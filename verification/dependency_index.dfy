/** The reverse dependency index against the scan of resident Fibers it saves. */
module DependencyIndexes {
  import opened Fibers
  import opened Sequences
  import opened Services

  /** An edge names one Service in one realm. */
  type Edge = Key

  // ----- the index -----

  function Pairs(reverse: map<Edge, seq<Fid>>): set<(Edge, Fid)> {
    set e, f | e in reverse && f in reverse[e] :: (e, f)
  }

  class DependencyIndex {
    var reverse: map<Edge, seq<Fid>>
    var complete: bool

    predicate Valid()
      reads this
    {
      forall e :: e in reverse ==> reverse[e] != []
    }

    /** What the index says, whatever the order and repetition of its rows. */
    function Contents(): set<(Edge, Fid)>
      reads this
    {
      Pairs(reverse)
    }

    constructor ()
      ensures Valid() && complete && Contents() == {}
    {
      reverse, complete := map[], true;
    }

    /** A Fiber that is already dead is skipped, inside the section that would insert it. */
    method Register(f: Fid, edges: seq<Edge>, alive: bool)
      requires Valid()
      modifies this`reverse
      ensures Valid()
      ensures Contents() == old(Contents()) + if complete && alive then (set e | e in edges :: (e, f)) else {}
    {
      if !complete {
        return;
      }
      if !alive {
        return;
      }
      var n := 0;
      while n < |edges|
        invariant n <= |edges| && Valid()
        invariant Contents() == old(Contents()) + (set e | e in edges[..n] :: (e, f))
      {
        ghost var before := reverse;
        var row := if edges[n] in reverse then reverse[edges[n]] else [];
        reverse := reverse[edges[n] := row + [f]];
        PushedPairs(before, edges[n], row, f);
        assert edges[..n + 1] == edges[..n] + [edges[n]];
        n := n + 1;
      }
      assert edges[..n] == edges;
    }

    method Unregister(f: Fid, edges: seq<Edge>)
      requires Valid()
      modifies this`reverse
      ensures Valid() && Contents() == old(Contents()) - (set e | e in edges :: (e, f))
    {
      var n := 0;
      while n < |edges|
        invariant n <= |edges| && Valid()
        invariant Contents() == old(Contents()) - (set e | e in edges[..n] :: (e, f))
      {
        ghost var before := reverse;
        if edges[n] in reverse {
          var row := WithoutFiber(reverse[edges[n]], f);
          WithoutExact(reverse[edges[n]], f);
          reverse := if row == [] then reverse - {edges[n]} else reverse[edges[n] := row];
        }
        ErasedPairs(before, edges[n], f, reverse);
        assert edges[..n + 1] == edges[..n] + [edges[n]];
        n := n + 1;
      }
      assert edges[..n] == edges;
    }

    /** One atomic snapshot over the requested edges: rows of vanished Fibers are
        pruned, and every Fiber found is reported once. */
    method DependentsOf(edges: seq<Edge>, existing: set<Fid>) returns (r: Option<seq<Fid>>)
      requires Valid()
      modifies this`reverse
      ensures Valid() && (r.Some? <==> complete)
      ensures Contents() == if complete then (set p | p in old(Contents()) && (p.0 in edges ==> p.1 in existing)) else old(Contents())
      ensures r.Some? ==> Distinct(r.value)
      ensures r.Some? ==> forall f :: f in r.value <==> f in existing && exists e :: e in edges && (e, f) in old(Contents())
    {
      if !complete {
        return None;
      }
      ghost var was := Contents();
      var upgraded, n := [], 0;
      while n < |edges|
        invariant n <= |edges| && Valid()
        invariant Contents() == Pruned(was, edges[..n], existing) && Found(upgraded, was, edges[..n], existing)
      {
        ghost var before := reverse;
        var e := edges[n];
        var kept := if e in reverse then Existing(reverse[e], existing) else [];
        if e in reverse {
          reverse := if kept == [] then reverse - {e} else reverse[e := kept];
        }
        PrunedPairs(before, e, existing, reverse, kept);
        FoundNext(upgraded, kept, was, Pairs(before), edges[..n], e, existing);
        upgraded := upgraded + kept;
        assert edges[..n + 1] == edges[..n] + [e];
        n := n + 1;
      }
      assert edges[..n] == edges;
      var unique := Deduplicated(upgraded);
      r := Some(unique);
    }
  }

  /** What is left once the rows of vanished Fibers are gone from these edges. */
  ghost function Pruned(was: set<(Edge, Fid)>, edges: seq<Edge>, existing: set<Fid>): set<(Edge, Fid)> {
    set p | p in was && (p.0 in edges ==> p.1 in existing)
  }

  /** Exactly the existing Fibers with a row for one of these edges. */
  ghost predicate Found(fs: seq<Fid>, was: set<(Edge, Fid)>, edges: seq<Edge>, existing: set<Fid>) {
    forall f :: f in fs <==> f in existing && exists e :: e in edges && (e, f) in was
  }

  lemma FoundNext(fs: seq<Fid>, kept: seq<Fid>, was: set<(Edge, Fid)>, now: set<(Edge, Fid)>, edges: seq<Edge>, e: Edge, existing: set<Fid>)
    requires Found(fs, was, edges, existing) && now == Pruned(was, edges, existing)
    requires forall f :: f in kept <==> f in existing && (e, f) in now
    ensures Found(fs + kept, was, edges + [e], existing)
    ensures (set p | p in now && (p.0 == e ==> p.1 in existing)) == Pruned(was, edges + [e], existing)
  {}

  lemma PushedPairs(reverse: map<Edge, seq<Fid>>, e: Edge, row: seq<Fid>, f: Fid)
    requires row == if e in reverse then reverse[e] else []
    ensures Pairs(reverse[e := row + [f]]) == Pairs(reverse) + {(e, f)}
  {}

  function WithoutFiber(s: seq<Fid>, f: Fid): seq<Fid> {
    if s == [] then [] else (if s[0] == f then [] else [s[0]]) + WithoutFiber(s[1..], f)
  }

  lemma {:induction false} WithoutExact(s: seq<Fid>, f: Fid)
    ensures forall g :: g in WithoutFiber(s, f) <==> g in s && g != f
  {
    if s != [] { WithoutExact(s[1..], f); }
  }

  function Existing(s: seq<Fid>, existing: set<Fid>): seq<Fid> {
    if s == [] then [] else (if s[0] in existing then [s[0]] else []) + Existing(s[1..], existing)
  }

  lemma {:induction false} ExistingExact(s: seq<Fid>, existing: set<Fid>)
    ensures forall g :: g in Existing(s, existing) <==> g in s && g in existing
  {
    if s != [] { ExistingExact(s[1..], existing); }
  }

  lemma ErasedPairs(reverse: map<Edge, seq<Fid>>, e: Edge, f: Fid, reverse': map<Edge, seq<Fid>>)
    requires reverse' ==
      if e !in reverse then reverse
      else if WithoutFiber(reverse[e], f) == [] then reverse - {e}
      else reverse[e := WithoutFiber(reverse[e], f)]
    ensures Pairs(reverse') == Pairs(reverse) - {(e, f)}
  {
    if e in reverse { WithoutExact(reverse[e], f); }
    assert forall x, g :: (x, g) in Pairs(reverse') <==> x in reverse' && g in reverse'[x];
    assert forall x, g :: (x, g) in Pairs(reverse) <==> x in reverse && g in reverse[x];
  }

  lemma PrunedPairs(reverse: map<Edge, seq<Fid>>, e: Edge, existing: set<Fid>, reverse': map<Edge, seq<Fid>>, kept: seq<Fid>)
    requires kept == if e in reverse then Existing(reverse[e], existing) else []
    requires reverse' == if e !in reverse then reverse else if kept == [] then reverse - {e} else reverse[e := kept]
    ensures Pairs(reverse') == set p | p in Pairs(reverse) && (p.0 == e ==> p.1 in existing)
    ensures forall f :: f in kept <==> f in existing && (e, f) in Pairs(reverse)
  {
    if e in reverse { ExistingExact(reverse[e], existing); }
    assert forall x, g :: (x, g) in Pairs(reverse') <==> x in reverse' && g in reverse'[x];
    assert forall x, g :: (x, g) in Pairs(reverse) <==> x in reverse && g in reverse[x];
  }

  /** The first occurrence of each Fiber, in order. */
  method Deduplicated(s: seq<Fid>) returns (unique: seq<Fid>)
    ensures Distinct(unique) && forall f :: f in unique <==> f in s
  {
    var seen := {};
    unique := [];
    var n := 0;
    while n < |s|
      invariant n <= |s| && Distinct(unique) && seen == (set f | f in s[..n])
      invariant forall f :: f in unique <==> f in s[..n]
    {
      assert s[..n + 1] == s[..n] + [s[n]];
      if s[n] !in seen {
        unique := unique + [s[n]];
      }
      seen := seen + {s[n]};
      n := n + 1;
    }
    assert s[..n] == s;
  }
}
