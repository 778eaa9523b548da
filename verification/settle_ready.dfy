/** What FiberHandle::ready answers with, and the terminal barrier that every
    dispose call waits for. */
module SettleReady {
  import opened Fibers
  import opened SettleProtocol
  import opened SettleInvariants
  import opened SettleSteps
  import opened SettleDriver
  import opened SettleTheorems

  /** At this instant a live Fiber shows the settled state for its live target,
      unless its last pass was turned back before it ever applied; a dead one
      shows Disposed. */
  predicate Answer(s: Shared) {
    if s.life.alive then (SettledForLive(s) <==> !s.past.skipped) && (s.past.skipped ==> !s.life.applied)
    else s.life.state == Disposed
  }

  ghost predicate AtStoreSettled(w: World) {
    exists t :: t in w.threads && w.threads[t].Driving? && w.threads[t].pc.StoreSettled?
  }

  lemma SettleNotStored(s: Shared, role: Role, target: Target, rev: nat, phase: Phase, flag: bool)
    ensures var th := SettleStep(s, role, target, rev, phase, flag).th; th.Driving? && !th.pc.StoreSettled?
  {
    hide Publish;
    hide HasMissing;
  }

  lemma FromLoadObserved(s: Shared, t: Tid, role: Role, pc: Pc, flag: bool)
    requires var m := DriveStep(s, t, role, pc, flag); m.th.Driving? && m.th.pc.StoreSettled?
    requires !pc.StoreSettled? && OwnerOk(s, role, pc)
    ensures pc.LoadObserved? && pc.live == pc.t && pc.rev == s.slot.committed
  {
    hide SettleStep;
    if pc.Settle? { SettleNotStored(s, role, pc.t, pc.rev, pc.phase, flag); }
  }

  /** A probe that found the target it compares with, in a state settled for it. */
  lemma ProbeFound(s: Shared, role: Role, target: Target, rev: nat)
    requires Global(s) && OwnerOk(s, role, LoadObserved(target, rev, target)) && rev == s.slot.committed
    requires !s.life.alive ==> s.life.state == Disposed
    ensures Answer(s)
  {
    if s.life.alive {
      assert target == LiveTarget(s) by {
        assert target.edges == s.store.live;
      }
      assert Reflects(s, target);
      ReflectsExactly(s);
    }
  }

  lemma OutsideNotStored(w: World, a: Action, m: Move)
    requires Enabled(w, a) && m == MoveOf(w, a) && (a.Run? ==> !w.threads[a.t].Driving?)
    ensures m.th.Driving? ==> !m.th.pc.StoreSettled?
  {}

  lemma StoredFromProbe(w: World, t: Tid, role: Role, pc: Pc, flag: bool)
    requires Inv(w) && t in w.threads && w.threads[t] == Driving(role, pc) && !pc.StoreSettled?
    requires var th := ThreadStep(w.s, t, w.threads[t], flag).th; th.Driving? && th.pc.StoreSettled?
    ensures Answer(w.s)
  {
    hide OwnerOk;
    hide Answer;
    hide DriveStep;
    assert Local(w.s, t, w.threads[t]);
    FromLoadObserved(w.s, t, role, pc, flag);
    ProbeFound(w.s, role, pc.t, pc.rev);
  }

  /** The only way to the store of recheck_settled is through a probe that found
      the state settled for the live target. */
  lemma ReachesStoreSettled(w: World, a: Action)
    requires Inv(w) && Enabled(w, a) && !AtStoreSettled(w) && AtStoreSettled(Do(w, a))
    ensures Answer(w.s)
  {
    hide OwnerOk;
    hide Answer;
    hide ThreadStep;
    hide LockStore;
    hide WriteStore;
    hide CancelStep;
    var th := MoveOf(w, a).th;
    assert th.Driving? && th.pc.StoreSettled?;
    if !(a.Run? && w.threads[a.t].Driving?) {
      OutsideNotStored(w, a, MoveOf(w, a));
    } else {
      StoredFromProbe(w, a.t, w.threads[a.t].role, w.threads[a.t].pc, a.flag);
    }
  }

  ghost predicate SafeRun(ws: seq<World>, acts: seq<Action>) {
    && IsRun(ws, acts)
    && (forall i :: 0 <= i < |ws| ==> Inv(ws[i]))
    && (forall i :: 0 <= i < |acts| ==> !StaleAbandon(ws[i], acts[i]))
  }

  lemma CleanIsSafe(ws: seq<World>, acts: seq<Action>)
    requires Clean(ws, acts) && Inv(ws[0])
    ensures SafeRun(ws, acts)
  {
    forall i: nat | i < |ws| ensures Inv(ws[i]) { RunKeeps(ws, acts, i); }
  }

  /** One step either leaves recheck_settled and the way to it alone, or comes
      from an instant that was settled for its live target. */
  ghost predicate StillOrAnswered(w: World, w': World) {
    !AtStoreSettled(w) ==>
      && w'.s.slot.settled == w.s.slot.settled
      && (AtStoreSettled(w') ==> Answer(w.s))
  }

  lemma StepStillOrAnswered(w: World, a: Action)
    requires Inv(w) && Enabled(w, a)
    ensures StillOrAnswered(w, Do(w, a))
  {
    hide Do;
    hide Inv;
    if Do(w, a).s.slot.settled != w.s.slot.settled { OnlyStoreSettled(w, a); }
    if !AtStoreSettled(w) && AtStoreSettled(Do(w, a)) { ReachesStoreSettled(w, a); }
  }

  /** From an instant off that way, either some instant up to k was settled for
      its live target, or recheck_settled has not moved. */
  lemma {:induction false} SettledOrStill(ws: seq<World>, i: nat, k: nat)
    requires i <= k < |ws| && !AtStoreSettled(ws[i])
    requires forall j :: i <= j < k ==> StillOrAnswered(ws[j], ws[j + 1])
    ensures (exists m :: i <= m <= k && Answer(ws[m].s))
         || (ws[k].s.slot.settled == ws[i].s.slot.settled && !AtStoreSettled(ws[k]))
    decreases k - i
  {
    if i < k {
      SettledOrStill(ws, i, k - 1);
      if !AtStoreSettled(ws[k - 1]) && AtStoreSettled(ws[k]) {
        assert i <= k - 1 <= k && Answer(ws[k - 1].s);
      }
      if exists m :: i <= m <= k - 1 && Answer(ws[m].s) {
        var m :| i <= m <= k - 1 && Answer(ws[m].s);
        assert i <= m <= k && Answer(ws[m].s);
      }
    }
  }

  // ----- what never goes back -----

  predicate Forward(s: Shared, s': Shared) {
    && s.slot.committed <= s'.slot.committed
    && s.life.sequence <= s'.life.sequence
    && (s.life.sequence == s'.life.sequence ==> s.life.state == s'.life.state)
    && (s.life.terminal ==> s'.life.terminal && s'.past.closer == s.past.closer)
    && (!s.life.alive ==> !s'.life.alive)
    && (s.past.released ==> s'.past.released) && (s.life.applied ==> s'.life.applied)
  }

  lemma EarlyForward(s: Shared, role: Role, target: Target, rev: nat, phase: Phase, flag: bool)
    requires phase.CheckAlive? || phase.CloseOld? || phase.DrainOld? || phase.CheckMissing?
    ensures Forward(s, SettleStep(s, role, target, rev, phase, flag).s)
  {}

  lemma MidForward(s: Shared, role: Role, target: Target, rev: nat, phase: Phase, flag: bool)
    requires phase.CheckFirstApply? || phase.Applying?
    ensures Forward(s, SettleStep(s, role, target, rev, phase, flag).s)
  {}

  lemma OpenForward(s: Shared, role: Role, target: Target, rev: nat, flag: bool)
    ensures Forward(s, SettleStep(s, role, target, rev, Open, flag).s)
  {}

  lemma PublishForward(s: Shared, next: FiberState)
    ensures Forward(s, Publish(s, next))
  {}

  lemma EndingState(s: Shared, role: Role, target: Target, rev: nat)
    ensures AfterSettle(s, role, target, rev).s == s
  {}

  lemma LateForward(s: Shared, role: Role, target: Target, rev: nat, phase: Phase, flag: bool)
    requires phase.Applied? || phase.DrainFailed?
    ensures Forward(s, SettleStep(s, role, target, rev, phase, flag).s)
  {
    var next := if phase.DrainFailed? then Failed else if phase.ok then Active else Unloading;
    PublishForward(s, next);
    EndingState(Publish(s, next), role, target, rev);
  }

  lemma SettleForward(s: Shared, role: Role, target: Target, rev: nat, phase: Phase, flag: bool)
    ensures Forward(s, SettleStep(s, role, target, rev, phase, flag).s)
  {
    if phase.CheckAlive? || phase.CloseOld? || phase.DrainOld? || phase.CheckMissing? {
      EarlyForward(s, role, target, rev, phase, flag);
    } else if phase.Open? {
      OpenForward(s, role, target, rev, flag);
    } else if phase.Applied? || phase.DrainFailed? {
      LateForward(s, role, target, rev, phase, flag);
    } else {
      MidForward(s, role, target, rev, phase, flag);
    }
  }

  lemma TeardownForward(s: Shared, role: Role, step: Step)
    ensures Forward(s, TeardownStep(s, role, step).s)
  {}

  lemma ExitForward(s: Shared, role: Role, pc: Pc)
    requires Exiting(pc)
    ensures Forward(s, ExitStep(s, role, pc).s)
  {}

  lemma ClaimedForward(s: Shared, role: Role, flag: bool)
    ensures Forward(s, ClaimedStep(s, role, flag).s)
  {}

  lemma ReadForward(s: Shared, role: Role, use: Use, input: nat, acc: seq<Option<Occurrence>>)
    ensures Forward(s, ReadStep(s, role, use, input, acc).s)
  {}

  lemma RestForward(s: Shared, t: Tid, role: Role, pc: Pc, flag: bool)
    requires !pc.Claimed? && !pc.Read? && !pc.Settle? && !pc.Teardown? && !Exiting(pc)
    ensures Forward(s, DriveStep(s, t, role, pc, flag).s)
  {}

  lemma DriveForward(s: Shared, t: Tid, role: Role, pc: Pc, flag: bool)
    ensures Forward(s, DriveStep(s, t, role, pc, flag).s)
  {
    hide SettleStep;
    hide ExitStep;
    hide TeardownStep;
    hide ReadStep;
    hide ClaimedStep;
    hide Forward;
    match pc {
      case Claimed => ClaimedForward(s, role, flag);
      case Read(use, input, acc) => ReadForward(s, role, use, input, acc);
      case Settle(target, rev, phase) => SettleForward(s, role, target, rev, phase, flag);
      case Teardown(step) => TeardownForward(s, role, step);
      case _ => if Exiting(pc) { ExitForward(s, role, pc); } else { RestForward(s, t, role, pc, flag); }
    }
  }

  lemma StoreForward(s: Shared, t: Tid, rev: nat, next: seq<Option<Occurrence>>)
    ensures Forward(s, LockStore(s, t).s) && Forward(s, WriteStore(s, rev, next).s)
  {}

  lemma KickForward(s: Shared, t: Tid, th: Thread, flag: bool)
    requires InKick(th)
    ensures Forward(s, KickStep(s, t, th, flag).s)
  {}

  lemma OtherForward(s: Shared, t: Tid, th: Thread)
    ensures Forward(s, OtherStep(s, t, th).s)
  {}

  lemma CancelForward(s: Shared, th: Thread)
    requires CanCancel(th)
    ensures Forward(s, CancelStep(s, th).s)
  {}

  lemma OutsideForward(w: World, a: Action, m: Move)
    requires Enabled(w, a) && m == MoveOf(w, a) && (a.Run? ==> !w.threads[a.t].Driving?)
    ensures Forward(w.s, m.s)
  {
    hide LockStore;
    hide WriteStore;
    hide KickStep;
    hide OtherStep;
    hide CancelStep;
    match a {
      case Arrive(_, _) =>
      case Lock(t) => StoreForward(w.s, t, 0, []);
      case Write(t, next) => StoreForward(w.s, t, w.threads[t].rev, next);
      case Cancel(t) => CancelForward(w.s, w.threads[t]);
      case Run(t, flag) =>
        if InKick(w.threads[t]) { KickForward(w.s, t, w.threads[t], flag); } else { OtherForward(w.s, t, w.threads[t]); }
    }
  }

  lemma StepForward(w: World, a: Action)
    requires Enabled(w, a)
    ensures Forward(w.s, Do(w, a).s)
  {
    if a.Run? && w.threads[a.t].Driving? {
      DriveForward(w.s, a.t, w.threads[a.t].role, w.threads[a.t].pc, a.flag);
    } else {
      OutsideForward(w, a, MoveOf(w, a));
    }
  }

  /** Equal readings of the publication sequence mean no publication in between. */
  lemma {:induction false} ForwardChain(ws: seq<World>, i: nat, k: nat)
    requires i <= k < |ws| && forall j :: i <= j < k ==> Forward(ws[j].s, ws[j + 1].s)
    ensures Forward(ws[i].s, ws[k].s)
    decreases k - i
  {
    if i < k { ForwardChain(ws, i, k - 1); }
  }

  lemma RunForward(ws: seq<World>, acts: seq<Action>, i: nat, k: nat)
    requires IsRun(ws, acts) && i <= k < |ws|
    ensures Forward(ws[i].s, ws[k].s)
  {
    forall j | i <= j < k ensures Forward(ws[j].s, ws[j + 1].s) { StepForward(ws[j], acts[j]); }
    ForwardChain(ws, i, k);
  }

  lemma RunSettledOrStill(ws: seq<World>, acts: seq<Action>, i: nat, k: nat)
    requires SafeRun(ws, acts) && i <= k < |ws| && ws[i].s.slot.inertia == IDLE
    ensures (exists m :: i <= m <= k && Answer(ws[m].s)) || ws[k].s.slot.settled == ws[i].s.slot.settled
  {
    InvSingleDriver(ws[i]);
    forall j | i <= j < k ensures StillOrAnswered(ws[j], ws[j + 1]) { StepStillOrAnswered(ws[j], acts[j]); }
    SettledOrStill(ws, i, k);
  }

  // ----- ready -----

  /** The loads of one answering round of ready, at steps of a run: observe state
      and sequence (i0), is_idle (i1), recheck_committed (i2), recheck_settled
      (i3), sequence again (i4). */
  ghost predicate ReadyRound(ws: seq<World>, i0: nat, i1: nat, i2: nat, i3: nat, i4: nat) {
    && i0 <= i1 <= i2 <= i3 <= i4 < |ws|
    && ws[i1].s.slot.inertia == IDLE
    && ws[i2].s.slot.committed == ws[i3].s.slot.settled
    && ws[i0].s.life.sequence == ws[i4].s.life.sequence
  }

  /** What ready observed at the start of the round is what the Fiber showed at
      instant s, and was then the answer; a Fiber that had applied by the start of
      the round has no answer but the settled state. */
  predicate Explains(s: Shared, observed: Shared) {
    && s.life.state == observed.life.state && Answer(s)
    && (s.life.alive && observed.life.applied ==> SettledForLive(s))
  }

  lemma ReadyAnswers(ws: seq<World>, acts: seq<Action>, i0: nat, i1: nat, i2: nat, i3: nat, i4: nat)
    requires SafeRun(ws, acts) && ReadyRound(ws, i0, i1, i2, i3, i4) && ws[i1].s.past.released
    ensures ws[i0].s.life.state != Loading && ws[i0].s.life.state != Unloading
    ensures exists m :: i1 <= m <= i3 && Explains(ws[m].s, ws[i0].s)
  {
    RunForward(ws, acts, i0, i1);
    RunForward(ws, acts, i1, i2);
    RunForward(ws, acts, i1, i4);
    assert Global(ws[i1].s);
    var m: int;
    if ws[i1].s.slot.committed == ws[i1].s.slot.settled {
      m := i1;
      if ws[m].s.life.alive { QuiescentExactly(ws[m]); }
    } else {
      RunSettledOrStill(ws, acts, i1, i3);
      m :| i1 <= m <= i3 && Answer(ws[m].s);
    }
    RunForward(ws, acts, i1, m);
    RunForward(ws, acts, m, i4);
    assert i1 <= m <= i3 && Explains(ws[m].s, ws[i0].s);
  }

  // ----- the terminal barrier -----

  /** However many dispose calls race, at most one thread drives the teardown. */
  lemma OneCloser(w: World, t: Tid, u: Tid)
    requires Inv(w) && t in w.threads && u in w.threads && Closing(w.threads[t]) && Closing(w.threads[u])
    ensures t == u
  {
    assert Local(w.s, t, w.threads[t]) && Local(w.s, u, w.threads[u]);
  }

  /** The terminal claim is won once. */
  lemma CloserStays(w: World, a: Action)
    requires Enabled(w, a) && w.s.life.terminal
    ensures Do(w, a).s.life.terminal && Do(w, a).s.past.closer == w.s.past.closer
  {
    StepForward(w, a);
  }

  /** Whenever a dispose call has returned, the Fiber is Disposed and dead, its
      index rows are gone and its residency is released. */
  lemma DisposeReturned(w: World, t: Tid)
    requires Inv(w) && t in w.threads && w.threads[t] == Returned
    ensures w.s.life.state == Disposed && !w.s.life.alive && !w.s.life.indexed && !w.s.life.resident
  {
    assert Local(w.s, t, w.threads[t]);
  }

  /** A caller that waits for dispose_complete never waits for nobody. */
  lemma WaitersHaveACloser(w: World)
    requires Inv(w) && w.s.life.terminal && !w.s.life.complete
    ensures exists c :: c in w.threads && (Closing(w.threads[c]) || Inheriting(w.threads[c]))
  {}
}
