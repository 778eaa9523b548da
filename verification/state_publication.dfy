/** Reliable state publication: per-state revisions and one total sequence. */
module StatePublications {
  import opened Fibers

  function Index(s: FiberState): (i: nat)
    ensures i < 6
  {
    match s
    case Loading => 0
    case Active => 1
    case Pending => 2
    case Unloading => 3
    case Failed => 4
    case Disposed => 5
  }

  function Count(log: seq<FiberState>, s: FiberState): nat {
    if log == [] then 0 else Count(log[..|log| - 1], s) + if log[|log| - 1] == s then 1 else 0
  }

  function Sum(revisions: seq<nat>): nat {
    if revisions == [] then 0 else Sum(revisions[..|revisions| - 1]) + revisions[|revisions| - 1]
  }

  /** The revisions that a history of publications leaves behind. */
  function Revisions(log: seq<FiberState>): (r: seq<nat>)
    ensures |r| == 6
  {
    if log == [] then [0, 0, 0, 0, 0, 0]
    else
      var r, i := Revisions(log[..|log| - 1]), Index(log[|log| - 1]);
      r[i := r[i] + 1]
  }

  lemma {:induction false} SumBump(r: seq<nat>, i: nat)
    requires i < |r|
    ensures Sum(r[i := r[i] + 1]) == Sum(r) + 1
  {
    var n := |r| - 1;
    var r' := r[i := r[i] + 1];
    if i < n {
      SumBump(r[..n], i);
      assert r'[..n] == r[..n][i := r[i] + 1];
    } else {
      assert r'[..n] == r[..n];
    }
  }

  /** Every publication advances exactly one revision. */
  lemma {:induction false} RevisionsSum(log: seq<FiberState>)
    ensures Sum(Revisions(log)) == |log|
  {
    if log == [] {
      assert [0, 0, 0, 0, 0, 0][..5] == [0, 0, 0, 0, 0];
      Zeros(6);
    } else {
      RevisionsSum(log[..|log| - 1]);
      SumBump(Revisions(log[..|log| - 1]), Index(log[|log| - 1]));
    }
  }

  lemma {:induction false} Zeros(n: nat)
    ensures Sum(seq(n, _ => 0)) == 0
    ensures n == 6 ==> seq(n, _ => 0) == [0, 0, 0, 0, 0, 0]
  {
    if n > 0 {
      Zeros(n - 1);
      assert seq(n, _ => 0)[..n - 1] == seq(n - 1, _ => 0);
    }
  }

  lemma IndexInjective(a: FiberState, b: FiberState)
    ensures Index(a) == Index(b) <==> a == b
  {}

  /** The revision of a state counts its publications. */
  lemma {:induction false} RevisionCounts(log: seq<FiberState>, s: FiberState)
    ensures Revisions(log)[Index(s)] == Count(log, s)
  {
    if log != [] {
      RevisionCounts(log[..|log| - 1], s);
      IndexInjective(s, log[|log| - 1]);
    }
  }

  lemma {:induction false} CountGrows(log: seq<FiberState>, n: nat, s: FiberState)
    requires n <= |log|
    ensures Count(log[..n], s) <= Count(log, s)
    ensures Count(log[..n], s) < Count(log, s) <==> s in log[n..]
    decreases |log|
  {
    if n < |log| {
      var init := log[..|log| - 1];
      CountGrows(init, n, s);
      assert init[..n] == log[..n];
      assert log[n..] == init[n..] + [log[|log| - 1]];
    } else {
      assert log[..n] == log;
    }
  }

  class StatePublication {
    var current: FiberState
    var revisions: array<nat>
    var sequence: nat
    ghost var log: seq<FiberState> // every publication, the initial one first

    ghost predicate Valid()
      reads this, revisions
    {
      && log != [] && current == log[|log| - 1] && sequence + 1 == |log|
      && revisions.Length == 6 && revisions[..] == Revisions(log)
      && forall i :: 0 < i < |log| ==> log[i] != log[i - 1]
    }

    constructor (initial: FiberState)
      ensures Valid() && fresh(revisions) && log == [initial] && sequence == 0
    {
      current, sequence := initial, 0;
      log := [initial];
      revisions := new nat[6](_ => 0);
      new;
      revisions[Index(initial)] := 1;
      assert [initial][..0] == [];
    }

    /** Publishing the current state again publishes nothing. */
    method Publish(next: FiberState) returns (old': Option<FiberState>)
      requires Valid()
      modifies this`current, this`sequence, this`log, revisions
      ensures Valid() && current == next
      ensures old' == if old(current) == next then None else Some(old(current))
      ensures log == if old(current) == next then old(log) else old(log) + [next]
      ensures old(log) <= log
    {
      if current == next {
        return None;
      }
      old' := Some(current);
      ghost var was := log;
      current := next;
      revisions[Index(next)] := revisions[Index(next)] + 1;
      sequence := sequence + 1;
      log := log + [next];
      assert log[..|log| - 1] == was;
    }

    /** The invariant readers rely on: the revisions sum to the sequence plus one. */
    lemma RevisionsMatchSequence()
      requires Valid()
      ensures Sum(revisions[..]) == sequence + 1
    {
      RevisionsSum(log);
    }

    method Observe() returns (state: FiberState, seen: nat)
      requires Valid()
      ensures state == log[|log| - 1] && seen + 1 == |log|
    {
      state, seen := current, sequence;
    }

    method Snapshot(target: FiberState) returns (state: FiberState, revision: nat)
      requires Valid()
      ensures state == log[|log| - 1] && revision == Count(log, target)
    {
      RevisionCounts(log, target);
      state, revision := current, revisions[Index(target)];
    }

    /** Between two readings of the cell the sequence moved exactly if something
        was published; equal readings bracket no publication at all, so the state
        and every revision held throughout. */
    twostate lemma EqualReadings()
      requires old(Valid()) && Valid() && old(log) <= log
      ensures old(sequence) <= sequence && (sequence == old(sequence) <==> log == old(log))
      ensures sequence == old(sequence) ==> current == old(current) && revisions[..] == old(revisions[..])
    {}

    /** Between two readings of the cell a state's revision moved exactly if that
        state was published, however many others were. */
    twostate lemma RevisionReadings(target: FiberState)
      requires old(Valid()) && Valid() && old(log) <= log
      ensures old(revisions[Index(target)]) < revisions[Index(target)] <==> target in log[|old(log)|..]
    {
      RevisionCounts(old(log), target);
      RevisionCounts(log, target);
      RevisionTellsPublished(old(log), log, target);
    }
  }

  /** A waiter that remembers the target's revision cannot miss a publication of
      it, however many others follow before it looks again. */
  lemma RevisionTellsPublished(earlier: seq<FiberState>, later: seq<FiberState>, target: FiberState)
    requires earlier <= later
    ensures Count(earlier, target) < Count(later, target) <==> target in later[|earlier|..]
  {
    CountGrows(later, |earlier|, target);
    assert later[..|earlier|] == earlier;
  }
}
