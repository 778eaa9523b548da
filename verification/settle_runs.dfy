/** The settle protocol's guarantees at every instant of every run. */
module SettleRuns {
  import opened Fibers
  import opened SettleProtocol
  import opened SettleInvariants
  import opened SettleSteps
  import opened SettleTheorems
  import opened SettleReady
  import opened SettleOutcomes
  import opened SettlePasses
  import opened SettleKicks

  /** Instant i of a run from a fresh Fiber whose initial pass never abandons a
      slot it no longer owns. */
  ghost predicate Reaches(ws: seq<World>, acts: seq<Action>, i: nat) {
    Clean(ws, acts) && Init(ws[0]) && i < |ws|
  }

  lemma ReachesInv(ws: seq<World>, acts: seq<Action>, i: nat)
    requires Reaches(ws, acts, i)
    ensures Inv(ws[i])
  {
    InitInv(ws[0]);
    RunKeeps(ws, acts, i);
  }

  ghost predicate Excludes(ws: seq<World>) {
    forall i: nat :: i < |ws| ==> SingleDriver(ws[i])
  }

  /** Over a run from a fresh Fiber no slot has two owners, and none is owned
      while it reads IDLE, exactly when the initial pass never abandons a slot
      that is not IDLE. */
  lemma OneDriver(ws: seq<World>, acts: seq<Action>)
    requires IsRun(ws, acts) && Init(ws[0])
    ensures Excludes(ws) <==> forall j: nat :: j < |acts| ==> !StaleAbandon(ws[j], acts[j])
  {
    InitInv(ws[0]);
    if Excludes(ws) {
      ExclusionKeeps(ws, acts, |acts|);
    } else if Clean(ws, acts) {
      forall i: nat | i < |ws| ensures SingleDriver(ws[i]) {
        ReachesInv(ws, acts, i);
        InvSingleDriver(ws[i]);
      }
    }
  }

  /** The handoff decides: what the initial pass did up to it settles mutual
      exclusion for the whole life of the Fiber. */
  lemma HandoffDecides(ws: seq<World>, acts: seq<Action>, h: nat)
    requires IsRun(ws, acts) && Init(ws[0]) && h < |ws| && PastHandoff(ws[h])
    ensures Excludes(ws) <==> forall j: nat :: j < h ==> !StaleAbandon(ws[j], acts[j])
  {
    OneDriver(ws, acts);
    forall j: nat | h <= j < |acts| ensures !StaleAbandon(ws[j], acts[j]) {
      RunPastHandoff(ws, acts, h, j);
    }
  }

  // ----- quiescence -----

  /** Quiescence is sound: a live Fiber that a pass has released rests in the state
      that the last apply of the run earned for exactly the live target, or was
      turned back by the first-apply guard before it ever applied. */
  lemma QuiescenceSound(ws: seq<World>, acts: seq<Action>, i: nat)
    requires Reaches(ws, acts, i) && Quiescent(ws[i]) && ws[i].s.life.alive && ws[i].s.past.released
    ensures Shows(ws[i].s, LastRan(ws, acts, i)) <==> !ws[i].s.past.skipped
    ensures ws[i].s.past.skipped ==> !ws[i].s.life.applied && ws[i].s.life.state == Pending && !HasMissing(LiveTarget(ws[i].s))
  {
    ReachesInv(ws, acts, i);
    QuiescentExactly(ws[i]);
    RunOutcome(ws, acts, i);
    ShowsExactly(ws[i].s, LastRan(ws, acts, i));
  }

  /** A delivered Fiber nobody is closing, once it has applied, shows what its last
      apply earned for the live target whenever it is quiescent. */
  lemma DeliveredQuiescence(ws: seq<World>, acts: seq<Action>, i: nat)
    requires Reaches(ws, acts, i) && Quiescent(ws[i])
    requires !ws[i].s.life.creationPending && !ws[i].s.life.terminal && ws[i].s.life.applied
    ensures ws[i].s.life.alive && Shows(ws[i].s, LastRan(ws, acts, i))
  {
    ReachesInv(ws, acts, i);
    HandedOffReleased(ws[i]);
    QuiescenceSound(ws, acts, i);
  }

  /** No thread is in a store section or a kick. */
  predicate NothingUnderWay(w: World) {
    forall t :: t in w.threads ==> !InKick(w.threads[t]) && !w.threads[t].Writing?
  }

  /** No wake-up is lost: a live Fiber whose slot is IDLE, with nothing under way and
      nothing left behind since its last release, is quiescent, and so rests in the
      state its last apply earned unless it was turned back. */
  lemma NoLostWakeup(ws: seq<World>, acts: seq<Action>, i: nat)
    requires Reaches(ws, acts, i) && ws[i].s.life.alive && ws[i].s.slot.inertia == IDLE && NothingUnderWay(ws[i])
    requires !LeftBehind(ws, acts, i)
    ensures Quiescent(ws[i])
    ensures ws[i].s.past.released ==> (Shows(ws[i].s, LastRan(ws, acts, i)) <==> !ws[i].s.past.skipped)
  {
    RestOwesNothing(ws, acts, i);
    if ws[i].s.past.released { QuiescenceSound(ws, acts, i); }
  }

  /** An exit recheck that releases the slot has acknowledged the revision of every
      kick of the live Fiber that ended before, and has read every mutation up to
      the revision it acknowledges: each was written before its read began. */
  lemma ReleaseHasRead(ws: seq<World>, acts: seq<Action>, k: nat)
    requires Reaches(ws, acts, k) && k < |acts| && Releases(ws[k], acts[k])
    ensures forall i: nat :: i < k && EndsKick(ws[i], acts[i]) ==> KickOf(ws[i], acts[i].t) <= ws[k].s.slot.settled
    ensures ws[k].s.slot.settled <= ReadBy(ws, acts, k) <= WrittenBy(ws, acts, k)
  {
    ReachesInv(ws, acts, k);
    ReleaseFollowsRead(ws[k], acts[k].t);
    HistoryIsRun(ws, acts, k);
    forall i: nat | i < k && EndsKick(ws[i], acts[i]) ensures KickOf(ws[i], acts[i].t) <= ws[k].s.slot.settled {
      ReleaseAcknowledges(ws, acts, i, k);
    }
  }

  /** An apply runs alone, on a live Fiber, for a complete target with the committed
      input, with the Plugin state in its hands; and it is counted once. */
  lemma AppliesAlone(ws: seq<World>, acts: seq<Action>, i: nat, t: Tid)
    requires Reaches(ws, acts, i) && ApplyingAt(ws[i], t)
    ensures ws[i].s.life.alive && ws[i].s.life.state == Loading && !ws[i].s.life.lease
    ensures !HasMissing(ws[i].threads[t].pc.t) && ws[i].threads[t].pc.t.input == ws[i].s.life.input
    ensures forall u :: u in ws[i].threads && u != t ==> !ws[i].threads[u].Driving?
  {
    ReachesInv(ws, acts, i);
    ApplyIsAlone(ws[i], t);
  }

  /** A recheck that changes nothing costs nothing: a kick that wins the slot while
      the recorded target is the live one, and any pass probing the live target,
      goes on to its release without an apply, for as long as the live target stays. */
  lemma {:induction false} NeutralRecheck(ws: seq<World>, acts: seq<Action>, i: nat, k: nat, t: Tid)
    requires Reaches(ws, acts, i) && i <= k < |ws| && NeutralProbe(ws[i], t)
    requires forall j: nat :: i <= j <= k ==> ws[j].s.store.live == ws[i].s.store.live && t in ws[j].threads && ws[j].threads[t].Driving?
    ensures NeutralProbe(ws[k], t) && forall u :: !ApplyingAt(ws[k], u)
    decreases k
  {
    hide NeutralProbe;
    hide Do;
    hide Inv;
    if k > i {
      NeutralRecheck(ws, acts, i, k - 1, t);
      ReachesInv(ws, acts, k - 1);
      assert ws[k - 1].s.store.live == ws[k].s.store.live;
      NeutralProbeStays(ws[k - 1], acts[k - 1], t);
    }
    ReachesInv(ws, acts, k);
    NeutralIsNoApply(ws[k], t);
  }

  lemma NeutralIsNoApply(w: World, t: Tid)
    requires Inv(w) && NeutralProbe(w, t)
    ensures forall u :: !ApplyingAt(w, u)
  {
    InvSingleDriver(w);
    hide Inv;
  }

  // ----- the terminal barrier and ready -----

  /** The terminal barrier: whoever carries it is the one winner of the terminal
      claim, and whenever a dispose call has returned the Fiber is Disposed, dead,
      out of the index and not resident. */
  lemma TerminalBarrier(ws: seq<World>, acts: seq<Action>, i: nat, t: Tid)
    requires Reaches(ws, acts, i) && t in ws[i].threads
    ensures Closing(ws[i].threads[t]) ==>
      ws[i].s.past.closer == Some(t) && forall u :: u in ws[i].threads && Closing(ws[i].threads[u]) ==> u == t
    ensures ws[i].threads[t] == Returned ==>
      ws[i].s.life.state == Disposed && !ws[i].s.life.alive && !ws[i].s.life.indexed && !ws[i].s.life.resident
    ensures ws[i].s.life.terminal && !ws[i].s.life.complete ==>
      exists c :: c in ws[i].threads && (Closing(ws[i].threads[c]) || Inheriting(ws[i].threads[c]))
  {
    ReachesInv(ws, acts, i);
    assert Local(ws[i].s, t, ws[i].threads[t]);
    forall u | u in ws[i].threads && Closing(ws[i].threads[t]) && Closing(ws[i].threads[u]) ensures u == t {
      OneCloser(ws[i], t, u);
    }
    if ws[i].threads[t] == Returned { DisposeReturned(ws[i], t); }
    if ws[i].s.life.terminal && !ws[i].s.life.complete { WaitersHaveACloser(ws[i]); }
  }

  /** ready never answers with a transient state. At some instant m of the call a
      Fiber still alive showed that state, and it was what the last apply of the run
      had earned for the target then live exactly when the Fiber's last pass had not
      been turned back by the first-apply guard; a Fiber that had applied when the
      call began shows nothing else. */
  lemma ReadyLinearizes(ws: seq<World>, acts: seq<Action>, i0: nat, i1: nat, i2: nat, i3: nat, i4: nat)
    requires Reaches(ws, acts, 0) && ReadyRound(ws, i0, i1, i2, i3, i4) && ws[i1].s.past.released
    ensures ws[i0].s.life.state != Loading && ws[i0].s.life.state != Unloading
    ensures exists m: nat :: i1 <= m <= i3 && Explains(ws[m].s, ws[i0].s) && ShowsAt(ws, acts, m)
  {
    ReachesInv(ws, acts, 0);
    CleanIsSafe(ws, acts);
    ReadyAnswers(ws, acts, i0, i1, i2, i3, i4);
    var m: nat :| i1 <= m <= i3 && Explains(ws[m].s, ws[i0].s);
    ReachesInv(ws, acts, m);
    RunOutcome(ws, acts, m);
    if ws[m].s.life.alive { ShowsExactly(ws[m].s, LastRan(ws, acts, m)); }
    assert ShowsAt(ws, acts, m);
  }

  ghost predicate ShowsAt(ws: seq<World>, acts: seq<Action>, m: nat)
    requires |ws| == |acts| + 1 && m < |ws|
  {
    ws[m].s.life.alive ==> (Shows(ws[m].s, LastRan(ws, acts, m)) <==> !ws[m].s.past.skipped)
  }
}
