/** The cleanup journal of one generation: commit order in, reverse order out,
    every claim exact. */
module Journals {
  import opened Fibers
  import opened Sequences
  import opened Services

  /** One cleanup obligation: withdraw one publication, or run a user cleanup. */
  datatype Obligation = Withdraw(key: Key, occurrence: Occurrence) | Plain(id: nat)

  datatype Journal = Journal(sn: nat, entries: map<nat, Obligation>)

  const EMPTY := Journal(0, map[])

  predicate Ordered(j: Journal) {
    forall k :: k in j.entries ==> 1 <= k <= j.sn
  }

  function Pushed(j: Journal, ob: Obligation): Journal {
    Journal(j.sn + 1, j.entries[j.sn + 1 := ob])
  }

  function Taken(j: Journal, token: nat): Journal {
    j.(entries := j.entries - {token})
  }

  /** The keys up to n, in commit order. */
  function TokensTo(entries: map<nat, Obligation>, n: nat): seq<nat> {
    if n == 0 then [] else TokensTo(entries, n - 1) + if n in entries then [n] else []
  }

  function Tokens(j: Journal): seq<nat> {
    TokensTo(j.entries, j.sn)
  }

  lemma {:induction false} TokensToExact(entries: map<nat, Obligation>, n: nat)
    ensures Ascending(TokensTo(entries, n))
    ensures forall k :: k in TokensTo(entries, n) <==> k in entries && 1 <= k <= n
  {
    if n > 0 {
      TokensToExact(entries, n - 1);
      var rest := TokensTo(entries, n - 1);
      forall i | 0 <= i < |rest| ensures rest[i] < n { assert rest[i] in rest; }
    }
  }

  /** The snapshot a drain takes names every committed obligation, in commit order. */
  lemma TokensExact(j: Journal)
    requires Ordered(j)
    ensures Ascending(Tokens(j)) && forall k :: k in Tokens(j) <==> k in j.entries
  {
    TokensToExact(j.entries, j.sn);
  }

  /** The obligations of a list of tokens, last first. */
  function Backwards(entries: map<nat, Obligation>, tokens: seq<nat>): seq<Obligation>
    requires forall k :: k in tokens ==> k in entries
  {
    if tokens == [] then []
    else
      var n := |tokens| - 1;
      assert tokens[n] in tokens;
      [entries[tokens[n]]] + Backwards(entries, tokens[..n])
  }

  /** Last committed, first run: the obligation at i is that of the i-th token from the end. */
  lemma {:induction false} BackwardsAt(entries: map<nat, Obligation>, tokens: seq<nat>, i: nat)
    requires (forall k :: k in tokens ==> k in entries) && i < |tokens|
    ensures |Backwards(entries, tokens)| == |tokens| && Backwards(entries, tokens)[i] == entries[tokens[|tokens| - 1 - i]]
  {
    if |tokens| > 1 { BackwardsAt(entries, tokens[..|tokens| - 1], if i > 0 then i - 1 else 0); }
  }

  /** Taking the last token off an ascending list. */
  lemma SplitLast(tokens: seq<nat>, init: seq<nat>, last: nat)
    requires Ascending(tokens) && tokens == init + [last]
    ensures Ascending(init) && last !in init
    ensures forall k :: k in tokens <==> k in init || k == last
  {
    assert forall i :: 0 <= i < |init| ==> init[i] == tokens[i];
    assert tokens[|init|] == last;
  }

  lemma BackwardsLast(entries: map<nat, Obligation>, init: seq<nat>, last: nat)
    requires last in entries && forall k :: k in init ==> k in entries
    ensures forall k :: k in init + [last] ==> k in entries
    ensures Backwards(entries, init + [last]) == [entries[last]] + Backwards(entries, init)
  {
    assert (init + [last])[..|init|] == init;
  }

  class DisposableList {
    var sn: nat
    var entries: map<nat, Obligation>

    function Contents(): Journal
      reads this
    {
      Journal(sn, entries)
    }

    predicate Valid()
      reads this
    {
      Ordered(Contents())
    }

    constructor ()
      ensures Valid() && Contents() == EMPTY
    {
      sn, entries := 0, map[];
    }

    method Push(ob: Obligation) returns (token: nat)
      requires Valid()
      modifies this
      ensures Valid() && token !in old(entries)
      ensures Contents() == Pushed(old(Contents()), ob) && token in entries && entries[token] == ob
    {
      sn := sn + 1;
      token := sn;
      entries := entries[token := ob];
    }

    /** The exact claim: whoever gets the obligation owns it, everyone after gets nothing. */
    method Remove(token: nat) returns (claimed: Option<Obligation>)
      requires Valid()
      modifies this
      ensures Valid() && token !in entries
      ensures Contents() == Taken(old(Contents()), token)
      ensures claimed == if token in old(entries) then Some(old(entries)[token]) else None
    {
      claimed := if token in entries then Some(entries[token]) else None;
      entries := entries - {token};
    }

    method TokenSnapshot() returns (tokens: seq<nat>)
      requires Valid()
      ensures tokens == Tokens(Contents())
    {
      tokens := [];
      var k := 0;
      while k < sn
        invariant k <= sn && tokens == TokensTo(entries, k)
      {
        k := k + 1;
        tokens := tokens + if k in entries then [k] else [];
      }
    }

    /** The whole drain, when nobody else claims meanwhile: every obligation
        runs once, in reverse commit order, and the journal is empty. */
    method Drain() returns (ran: seq<Obligation>)
      requires Valid()
      modifies this
      ensures Valid() && entries == map[] && sn == old(sn)
      ensures (forall k :: k in Tokens(old(Contents())) ==> k in old(entries)) && ran == Backwards(old(entries), Tokens(old(Contents())))
    {
      ghost var was := entries;
      TokensExact(Contents());
      var tokens := TokenSnapshot();
      ran := [];
      ghost var all := tokens;
      while tokens != []
        invariant Valid() && sn == old(sn) && Ascending(tokens)
        invariant forall k :: k in entries <==> k in tokens
        invariant forall k :: k in tokens ==> k in was && entries[k] == was[k]
        invariant ran + Backwards(was, tokens) == Backwards(was, all)
        decreases |tokens|
      {
        hide Backwards;
        hide Tokens;
        var init, last := tokens[..|tokens| - 1], tokens[|tokens| - 1];
        SplitLast(tokens, init, last);
        BackwardsLast(was, init, last);
        assert tokens == init + [last];
        var claimed := Remove(last);
        assert ran + ([was[last]] + Backwards(was, init)) == ran + [was[last]] + Backwards(was, init);
        ran := ran + [claimed.value];
        tokens := init;
      }
      assert ran + [] == ran;
    }
  }
}
