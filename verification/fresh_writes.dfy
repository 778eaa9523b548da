/** The settle protocol of one Fiber lets an edge turn only to an occurrence that
    was never visible before. Whatever the Runtime does, the edges of a Fiber turn
    in no other way. */
module FreshWrites {
  import opened Fibers
  import opened Services
  import opened GenerationProtocol
  import opened GenerationInvariants
  import opened GenerationTheorems
  import SettleProtocol

  /** An occurrence that appears at a key in one step was visible nowhere before
      it: it has not moved from another key. */
  lemma AppearsFromNowhere(w: World, a: Action, key: Key, o: Occurrence)
    requires Inv(w) && Enabled(w, a) && SeenAt(Do(w, a), key) == Some(o) && SeenAt(w, key) != Some(o)
    ensures !Seen(w, o)
  {
    SlotOrigin(w, a, key);
    assert forall t :: t in w.threads && Unpublished(w.threads[t]) ==> ThreadOk(w, t, w.threads[t]);
  }

  lemma SeenIsSeen(w: World, key: Key, o: Occurrence)
    requires SeenAt(w, key) == Some(o)
    ensures Seen(w, o)
  {}

  /** Nor was it at any earlier instant of the run. */
  lemma AppearsOnce(ws: seq<World>, acts: seq<Action>, i: nat, j: nat, key: Key, o: Occurrence)
    requires Reaches(ws, acts, i + 1) && j <= i
    requires SeenAt(ws[i + 1], key) == Some(o) && SeenAt(ws[i], key) != Some(o)
    ensures !Seen(ws[j], o)
  {
    hide Do;
    hide Inv;
    hide Seen;
    hide SeenAt;
    hide Init;
    RunInv(ws, acts, i);
    AppearsFromNowhere(ws[i], acts[i], key, o);
    SeenIsSeen(ws[i + 1], key, o);
    if Seen(ws[j], o) {
      OneInterval(ws, acts, o, j, i, i + 1);
    }
  }

  /** What a fixed list of dependency edges shows. */
  ghost function EdgesAt(w: World, edges: seq<Key>): (live: seq<Option<Occurrence>>)
    ensures |live| == |edges|
  {
    seq(|edges|, n requires 0 <= n < |edges| => SeenAt(w, edges[n]))
  }

  ghost predicate SeenBy(ws: seq<World>, i: nat, o: Occurrence)
    requires i < |ws|
  {
    exists j: nat :: j <= i && Seen(ws[j], o)
  }

  /** The settle state of a Fiber with these edges, at instant i of the Runtime. */
  ghost predicate Mirrors(s: SettleProtocol.Shared, ws: seq<World>, i: nat, edges: seq<Key>)
    requires i < |ws|
  {
    s.store.live == EdgesAt(ws[i], edges) && forall o :: o in s.past.used ==> SeenBy(ws, i, o)
  }

  lemma VisibleIsSeen(ws: seq<World>, i: nat, edges: seq<Key>, o: Occurrence)
    requires i < |ws| && o in SettleProtocol.Visible(EdgesAt(ws[i], edges))
    ensures SeenBy(ws, i, o)
  {
    var n :| 0 <= n < |edges| && EdgesAt(ws[i], edges)[n] == Some(o);
    assert SeenAt(ws[i], edges[n]) == Some(o);
    assert Seen(ws[i], o);
  }

  /** A Fiber that begins to settle at instant i mirrors the Runtime. */
  lemma MirrorStarts(w: SettleProtocol.World, ws: seq<World>, i: nat, edges: seq<Key>)
    requires i < |ws| && SettleProtocol.Init(w) && w.s.store.live == EdgesAt(ws[i], edges)
    ensures Mirrors(w.s, ws, i, edges)
  {
    forall o | o in w.s.past.used ensures SeenBy(ws, i, o) { VisibleIsSeen(ws, i, edges, o); }
  }

  /** Every step of the Runtime is one the settle protocol allows: a write of the
      new assignments is fresh, and the Fiber goes on mirroring the Runtime. */
  lemma MirrorFollows(s: SettleProtocol.Shared, ws: seq<World>, acts: seq<Action>, i: nat, edges: seq<Key>, rev: nat)
    requires Reaches(ws, acts, i + 1) && Mirrors(s, ws, i, edges)
    ensures SettleProtocol.FreshWrite(s, EdgesAt(ws[i + 1], edges))
    ensures Mirrors(SettleProtocol.WriteStore(s, rev, EdgesAt(ws[i + 1], edges)).s, ws, i + 1, edges)
  {
    var next := EdgesAt(ws[i + 1], edges);
    forall n: nat | n < |next| && next[n] != s.store.live[n] && next[n].Some? ensures next[n].value !in s.past.used {
      var o := next[n].value;
      if SeenBy(ws, i, o) {
        var j: nat :| j <= i && Seen(ws[j], o);
        AppearsOnce(ws, acts, i, j, edges[n], o);
      }
    }
    forall o | o in s.past.used + SettleProtocol.Visible(next) ensures SeenBy(ws, i + 1, o) {
      if o in s.past.used {
        var j: nat :| j <= i && Seen(ws[j], o);
      } else {
        VisibleIsSeen(ws, i + 1, edges, o);
      }
    }
  }
}
