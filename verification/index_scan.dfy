/** Fibers come and go around the dependency index: when its answer is exactly
    what the scan of resident Fibers would find. */
module IndexScan {
  import opened Fibers
  import opened DependencyIndexes

  datatype Member = Member(
    edges: seq<Edge>,
    registered: bool,     // the spawn path's register section has run
    alive: bool,
    unregistered: bool,   // the teardown's unregister section has run
    resident: bool,       // strong Registry residency
    dropped: bool)        // no strong reference is left

  datatype World = World(members: map<Fid, Member>, index: set<(Edge, Fid)>)

  datatype Action =
    | Attach(f: Fid, edges: seq<Edge>)
    | Register(f: Fid)
    | Kill(f: Fid)
    | Unregister(f: Fid)
    | Release(f: Fid)
    | Drop(f: Fid)
    | Query(edges: seq<Edge>)

  predicate Enabled(w: World, a: Action) {
    match a
    case Attach(f, _) => f !in w.members
    case Register(f) => f in w.members && !w.members[f].registered && !w.members[f].dropped
    case Kill(f) => f in w.members && w.members[f].alive
    case Unregister(f) => f in w.members && !w.members[f].alive && !w.members[f].dropped
    case Release(f) => f in w.members && !w.members[f].alive
    case Drop(f) => f in w.members && !w.members[f].alive && !w.members[f].resident
    case Query(_) => true
  }

  function RowsOf(f: Fid, edges: seq<Edge>): set<(Edge, Fid)> {
    set e | e in edges :: (e, f)
  }

  function Existing(w: World): set<Fid> {
    set f | f in w.members && !w.members[f].dropped
  }

  function Do(w: World, a: Action): World
    requires Enabled(w, a)
  {
    match a
    case Attach(f, edges) => w.(members := w.members[f := Member(edges, false, true, false, true, false)])
    case Register(f) =>
      var m := w.members[f];
      World(w.members[f := m.(registered := true)], w.index + if m.alive then RowsOf(f, m.edges) else {})
    case Kill(f) => w.(members := w.members[f := w.members[f].(alive := false)])
    case Unregister(f) => World(w.members[f := w.members[f].(unregistered := true)], w.index - RowsOf(f, w.members[f].edges))
    case Release(f) => w.(members := w.members[f := w.members[f].(resident := false)])
    case Drop(f) => w.(members := w.members[f := w.members[f].(dropped := true)])
    case Query(edges) => w.(index := set p | p in w.index && (p.0 in edges ==> p.1 in Existing(w)))
  }

  /** What the index answers: DependentsOf over the Fibers that still exist. */
  function Found(w: World, edges: seq<Edge>): set<Fid> {
    set f | f in Existing(w) && exists e :: e in edges && (e, f) in w.index
  }

  /** What the fallback scan answers. */
  function Scanned(w: World, edges: seq<Edge>): set<Fid> {
    set f | f in w.members && w.members[f].resident && w.members[f].alive && exists e :: e in edges && e in w.members[f].edges
  }

  ghost predicate Inv(w: World) {
    && (forall p :: p in w.index ==> p.1 in w.members && p.0 in w.members[p.1].edges && w.members[p.1].registered && !w.members[p.1].unregistered)
    && (forall f, e :: f in w.members && w.members[f].alive && w.members[f].registered && e in w.members[f].edges ==> (e, f) in w.index)
    && (forall f :: f in w.members && w.members[f].alive ==> w.members[f].resident && !w.members[f].unregistered && !w.members[f].dropped)
  }

  predicate Init(w: World) {
    w == World(map[], {})
  }

  lemma StepKeeps(w: World, a: Action)
    requires Inv(w) && Enabled(w, a)
    ensures Inv(Do(w, a))
  {}

  ghost predicate IsRun(ws: seq<World>, acts: seq<Action>) {
    && |ws| == |acts| + 1
    && forall i :: 0 <= i < |acts| ==> Enabled(ws[i], acts[i]) && ws[i + 1] == Do(ws[i], acts[i])
  }

  lemma {:induction false} RunInv(ws: seq<World>, acts: seq<Action>, i: nat)
    requires IsRun(ws, acts) && Init(ws[0]) && i < |ws|
    ensures Inv(ws[i])
  {
    if i > 0 {
      RunInv(ws, acts, i - 1);
      StepKeeps(ws[i - 1], acts[i - 1]);
    }
  }

  /** Attached, but its register section has not run yet. */
  predicate Arriving(m: Member) {
    m.alive && !m.registered
  }

  /** Dead, but its unregister section has not run yet. */
  predicate Leaving(m: Member) {
    !m.alive && !m.unregistered
  }

  /** The two answers differ about a Fiber only inside one of its two windows. */
  lemma DifferOnlyInWindows(ws: seq<World>, acts: seq<Action>, i: nat, edges: seq<Edge>, f: Fid)
    requires IsRun(ws, acts) && Init(ws[0]) && i < |ws| && f in ws[i].members
    ensures f in Found(ws[i], edges) && f !in Scanned(ws[i], edges) ==> Leaving(ws[i].members[f])
    ensures f in Scanned(ws[i], edges) && f !in Found(ws[i], edges) <==> f in Scanned(ws[i], edges) && Arriving(ws[i].members[f])
  {
    RunInv(ws, acts, i);
  }

  /** Outside every window the index answers exactly what the scan would. */
  lemma IndexEqualsScan(ws: seq<World>, acts: seq<Action>, i: nat, edges: seq<Edge>)
    requires IsRun(ws, acts) && Init(ws[0]) && i < |ws|
    requires forall f :: f in ws[i].members ==> !Arriving(ws[i].members[f]) && !Leaving(ws[i].members[f])
    ensures Found(ws[i], edges) == Scanned(ws[i], edges)
  {
    forall f | f in Found(ws[i], edges) || f in Scanned(ws[i], edges)
      ensures f in Found(ws[i], edges) && f in Scanned(ws[i], edges)
    {
      DifferOnlyInWindows(ws, acts, i, edges, f);
    }
  }

  /** However late a register section runs, it brings back no row of a Fiber
      whose unregister section has run. */
  lemma {:induction false} NeverResurrected(ws: seq<World>, acts: seq<Action>, f: Fid, i: nat, k: nat)
    requires IsRun(ws, acts) && Init(ws[0]) && i <= k < |ws| && f in ws[i].members && ws[i].members[f].unregistered
    ensures f in ws[k].members && ws[k].members[f].unregistered && forall e :: (e, f) !in ws[k].index
  {
    if k > i { NeverResurrected(ws, acts, f, i, k - 1); }
    RunInv(ws, acts, k);
  }

  /** A dead Fiber whose residency is released can vanish, and the next query of its
      edges prunes it: no row of it is left there, and every other row stays. */
  lemma PrunedOnceGone(w: World, f: Fid, edges: seq<Edge>)
    requires Inv(w) && Enabled(w, Release(f))
    ensures var w1 := Do(w, Release(f)); Enabled(w1, Drop(f)) && f !in Existing(Do(w1, Drop(f)))
    ensures var gone := Do(Do(w, Release(f)), Drop(f));
      var index := Do(gone, Query(edges)).index;
      && (forall e :: e in edges ==> (e, f) !in index)
      && (forall p :: p in w.index && (p.0 !in edges || p.1 in Existing(gone)) ==> p in index) && index <= w.index
  {}

  /** A Fiber is found under its edges, by index and scan alike, from its register
      section on, and by neither once it is dead and its unregister section has run. */
  lemma ComesAndGoes(w: World, f: Fid, edges: seq<Edge>, e: Edge)
    requires Inv(w) && Enabled(w, Attach(f, edges)) && e in edges
    ensures var attached := Do(w, Attach(f, edges));
      Enabled(attached, Register(f)) && f in Scanned(attached, [e]) && f !in Found(attached, [e])
    ensures var here := Do(Do(w, Attach(f, edges)), Register(f));
      Enabled(here, Kill(f)) && f in Found(here, [e]) && f in Scanned(here, [e])
    ensures var dead := Do(Do(Do(w, Attach(f, edges)), Register(f)), Kill(f));
      Enabled(dead, Unregister(f)) && f !in Scanned(dead, [e]) && f in Found(dead, [e]) && f !in Found(Do(dead, Unregister(f)), [e])
  {
    var here := Do(Do(w, Attach(f, edges)), Register(f));
    StepKeeps(w, Attach(f, edges));
    assert e in [e] && (e, f) in here.index;
  }
}
