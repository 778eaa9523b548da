/** What the settle protocol guarantees over every run, and the two places
    where it does not. */
module SettleTheorems {
  import opened Fibers
  import opened SettleProtocol
  import opened SettleInvariants
  import opened SettleSteps
  import opened SettleDriver

  lemma InitInv(w: World)
    requires Init(w)
    ensures Inv(w)
  {
    forall i | 0 <= i < |w.s.store.live| && w.s.store.live[i].Some?
      ensures w.s.store.live[i].value in w.s.past.used
    {
      VisibleIsUsed(w.s.store.live, i);
    }
    assert Local(w.s, SPAWN, w.threads[SPAWN]);
  }

  lemma StepKeeps(w: World, a: Action)
    requires Inv(w) && Enabled(w, a) && !StaleAbandon(w, a)
    ensures Inv(Do(w, a))
  {
    match a {
      case Arrive(t, th) => ArriveKeeps(w, t, th);
      case Lock(t) => LockKeeps(w, t);
      case Write(t, next) => WriteKeeps(w, t, next);
      case Cancel(t) => if w.threads[t].Driving? { InheritKeeps(w, t); } else { CancelOutsideKeeps(w, t); }
      case Run(t, flag) =>
        var th := w.threads[t];
        if th.Driving? {
          DriveKeeps(w, t, th.role, th.pc, flag);
        } else if InKick(th) {
          KickKeeps(w, t, flag);
        } else {
          OtherKeeps(w, t);
        }
    }
  }

  // ----- single driver -----

  /** Nobody owns an IDLE slot, and no slot has two owners. */
  ghost predicate SingleDriver(w: World) {
    && (forall t :: t in w.threads && w.threads[t].Driving? ==> w.s.slot.inertia != IDLE)
    && (forall t, u :: t in w.threads && u in w.threads && w.threads[t].Driving? && w.threads[u].Driving? ==> t == u)
  }

  lemma InvSingleDriver(w: World)
    requires Inv(w)
    ensures SingleDriver(w)
  {
    assert forall t :: t in w.threads ==> Local(w.s, t, w.threads[t]);
  }

  /** Mutual exclusion survives a step exactly when the initial pass does not
      abandon a slot it no longer owns. */
  lemma SingleDriverExactly(w: World, a: Action)
    requires Inv(w) && Enabled(w, a)
    ensures SingleDriver(Do(w, a)) <==> !StaleAbandon(w, a)
  {
    if StaleAbandon(w, a) {
      var h := w.s.past.holder.value;
      assert Local(w.s, h, w.threads[h]) && Local(w.s, a.t, w.threads[a.t]);
      assert Do(w, a).threads[h].Driving?;
    } else {
      StepKeeps(w, a);
      InvSingleDriver(Do(w, a));
    }
  }

  // ----- which steps make history -----

  predicate SameHistory(s: Shared, s': Shared) {
    && s'.past.skipped == s.past.skipped && s'.past.applies == s.past.applies
    && s'.slot.settled == s.slot.settled && s'.store == s.store
  }

  lemma SettleHistory(s: Shared, role: Role, target: Target, rev: nat, phase: Phase, flag: bool)
    ensures var s' := SettleStep(s, role, target, rev, phase, flag).s;
      && s'.slot.settled == s.slot.settled && s'.store == s.store
      && (s'.past.applies != s.past.applies ==> phase.Open?)
      && (s'.past.skipped && !s.past.skipped ==> s.life.creationPending && !s.life.applied && role != Spawner)
  {
    hide HasMissing;
  }

  lemma ExitHistory(s: Shared, role: Role, pc: Pc)
    requires Exiting(pc)
    ensures var s' := ExitStep(s, role, pc).s;
      if pc.StoreSettled? then s' == s.(slot := s.slot.(settled := pc.rev)) else SameHistory(s, s')
  {}

  lemma TeardownHistory(s: Shared, role: Role, step: Step)
    ensures SameHistory(s, TeardownStep(s, role, step).s)
  {}

  lemma ReadHistory(s: Shared, role: Role, use: Use, input: nat, acc: seq<Option<Occurrence>>)
    ensures SameHistory(s, ReadStep(s, role, use, input, acc).s)
  {}

  lemma ClaimedHistory(s: Shared, role: Role, flag: bool)
    ensures SameHistory(s, ClaimedStep(s, role, flag).s)
  {}

  /** A slot owner leaves the store alone; applies start, passes are turned back
      and revisions are acknowledged at one program point each. */
  lemma DriveHistory(s: Shared, t: Tid, role: Role, pc: Pc, flag: bool)
    ensures var s' := DriveStep(s, t, role, pc, flag).s;
      && s'.store == s.store
      && (s'.slot.settled != s.slot.settled ==> pc.StoreSettled? && s'.slot.settled == pc.rev)
      && (s'.past.applies != s.past.applies ==> pc.Settle? && pc.phase.Open?)
      && (s'.past.skipped && !s.past.skipped ==> s.life.creationPending && !s.life.applied && role != Spawner)
  {
    hide SettleStep;
    hide ExitStep;
    hide TeardownStep;
    hide ReadStep;
    hide ClaimedStep;
    match pc {
      case Claimed => ClaimedHistory(s, role, flag);
      case Settle(target, rev, phase) => SettleHistory(s, role, target, rev, phase, flag);
      case Teardown(step) => TeardownHistory(s, role, step);
      case Read(use, input, acc) => ReadHistory(s, role, use, input, acc);
      case _ => if Exiting(pc) { ExitHistory(s, role, pc); }
    }
  }

  // ----- runs -----

  /** A run in which the initial pass never abandons someone else's slot. */
  ghost predicate Clean(ws: seq<World>, acts: seq<Action>) {
    IsRun(ws, acts) && forall j: nat :: j < |acts| ==> !StaleAbandon(ws[j], acts[j])
  }

  lemma {:induction false} RunKeeps(ws: seq<World>, acts: seq<Action>, i: nat)
    requires Clean(ws, acts) && Inv(ws[0]) && i < |ws|
    ensures Inv(ws[i])
  {
    hide Do;
    hide Inv;
    if i > 0 {
      RunKeeps(ws, acts, i - 1);
      StepKeeps(ws[i - 1], acts[i - 1]);
    }
  }

  /** As long as no slot has two owners and none is owned while IDLE, the
      invariant holds: the one step that breaks it breaks that too. */
  lemma {:induction false} ExclusionKeeps(ws: seq<World>, acts: seq<Action>, i: nat)
    requires IsRun(ws, acts) && Inv(ws[0]) && i < |ws|
    requires forall k: nat :: k <= i ==> SingleDriver(ws[k])
    ensures Inv(ws[i]) && forall j: nat :: j < i ==> !StaleAbandon(ws[j], acts[j])
  {
    hide Do;
    hide Inv;
    hide SingleDriver;
    hide StaleAbandon;
    if i > 0 {
      ExclusionKeeps(ws, acts, i - 1);
      assert SingleDriver(ws[i]);
      SingleDriverExactly(ws[i - 1], acts[i - 1]);
      StepKeeps(ws[i - 1], acts[i - 1]);
    }
  }

  // ----- past handoff -----

  /** The spawn transaction is over: its thread runs no spawn code any more. */
  predicate PastHandoff(w: World) {
    SPAWN in w.threads && !SpawnSide(w.threads[SPAWN])
  }

  /** Only the spawn transaction runs spawn code or is about to. */
  predicate SpawnTidy(t: Tid, th: Thread) {
    && (SpawnSide(th) ==> t == SPAWN)
    && (th.Driving? && th.pc.Release? ==> !th.pc.next.Driving? && (SpawnSide(th.pc.next) ==> SpawnSide(th)))
  }

  predicate Tidy(w: World) {
    forall t :: t in w.threads ==> SpawnTidy(t, w.threads[t])
  }

  predicate StaysTidy(t: Tid, th: Thread, next: Thread) {
    SpawnTidy(t, next) && (SpawnSide(next) ==> SpawnSide(th))
  }

  lemma SettleTidy(s: Shared, t: Tid, role: Role, target: Target, rev: nat, phase: Phase, flag: bool)
    requires SpawnTidy(t, Driving(role, Settle(target, rev, phase)))
    ensures StaysTidy(t, Driving(role, Settle(target, rev, phase)), SettleStep(s, role, target, rev, phase, flag).th)
  {
    hide Publish;
    hide HasMissing;
  }

  lemma ExitTidy(s: Shared, t: Tid, role: Role, pc: Pc)
    requires Exiting(pc) && SpawnTidy(t, Driving(role, pc))
    ensures StaysTidy(t, Driving(role, pc), ExitStep(s, role, pc).th)
  {}

  lemma TeardownTidy(s: Shared, t: Tid, role: Role, step: Step)
    requires SpawnTidy(t, Driving(role, Teardown(step)))
    ensures StaysTidy(t, Driving(role, Teardown(step)), TeardownStep(s, role, step).th)
  {
    hide Publish;
  }

  /** A slot owner, with or without company, runs no spawn code it did not run before. */
  lemma DriveTidy(s: Shared, t: Tid, role: Role, pc: Pc, flag: bool)
    requires SpawnTidy(t, Driving(role, pc))
    ensures StaysTidy(t, Driving(role, pc), DriveStep(s, t, role, pc, flag).th)
  {
    hide SettleStep;
    hide ExitStep;
    hide TeardownStep;
    match pc {
      case Settle(target, rev, phase) => SettleTidy(s, t, role, target, rev, phase, flag);
      case Teardown(step) => TeardownTidy(s, t, role, step);
      case _ => if Exiting(pc) { ExitTidy(s, t, role, pc); }
    }
  }

  lemma OtherTidy(w: World, a: Action, m: Move)
    requires Enabled(w, a) && m == MoveOf(w, a) && Tidy(w) && (a.Run? ==> !w.threads[a.t].Driving?)
    ensures if a.t in w.threads then StaysTidy(a.t, w.threads[a.t], m.th) else SpawnTidy(a.t, m.th)
  {}

  /** Even a Fiber with two drivers stays past handoff, where no slot is abandoned. */
  lemma PastHandoffStays(w: World, a: Action)
    requires Enabled(w, a) && Tidy(w)
    ensures Tidy(Do(w, a))
    ensures PastHandoff(w) ==> !StaleAbandon(w, a) && PastHandoff(Do(w, a))
  {
    if a.Run? && w.threads[a.t].Driving? {
      DriveTidy(w.s, a.t, w.threads[a.t].role, w.threads[a.t].pc, a.flag);
    } else {
      OtherTidy(w, a, MoveOf(w, a));
    }
  }

  lemma {:induction false} RunTidy(ws: seq<World>, acts: seq<Action>, i: nat)
    requires IsRun(ws, acts) && Init(ws[0]) && i < |ws|
    ensures Tidy(ws[i])
  {
    if i > 0 {
      RunTidy(ws, acts, i - 1);
      PastHandoffStays(ws[i - 1], acts[i - 1]);
    }
  }

  /** In every run whatsoever from a fresh Fiber: from the handoff on, no slot is abandoned. */
  lemma {:induction false} RunPastHandoff(ws: seq<World>, acts: seq<Action>, h: nat, i: nat)
    requires IsRun(ws, acts) && Init(ws[0]) && h <= i < |ws| && PastHandoff(ws[h])
    ensures PastHandoff(ws[i]) && (i < |acts| ==> !StaleAbandon(ws[i], acts[i]))
    decreases i - h
  {
    if i > h {
      RunPastHandoff(ws, acts, h, i - 1);
      RunTidy(ws, acts, i - 1);
      PastHandoffStays(ws[i - 1], acts[i - 1]);
    }
    if i < |acts| {
      RunTidy(ws, acts, i);
      PastHandoffStays(ws[i], acts[i]);
    }
  }

  // ----- quiescence -----

  /** Arbitration is idle and no recheck is outstanding. */
  predicate Quiescent(w: World) {
    w.s.slot.inertia == IDLE && w.s.slot.committed == w.s.slot.settled
  }

  /** The published state is the settled state of the live target. */
  predicate SettledForLive(s: Shared) {
    && (s.life.state == Pending <==> HasMissing(LiveTarget(s)))
    && (s.life.state == Active || s.life.state == Failed <==> s.past.lastApply == Some(LiveTarget(s)))
  }

  lemma ReflectsExactly(s: Shared)
    requires Global(s) && Reflects(s, LiveTarget(s))
    ensures SettledForLive(s) <==> !s.past.skipped
  {}

  /** Despite torn reads and concurrent mutations, a quiescent live Fiber is
      settled for exactly the live target, unless its last pass was turned back
      by the first-apply guard. */
  lemma QuiescentExactly(w: World)
    requires Inv(w) && Quiescent(w) && w.s.life.alive && w.s.past.released
    ensures SettledForLive(w.s) <==> !w.s.past.skipped
  {
    ReflectsExactly(w.s);
  }

  /** The guard turns passes back only in the creation window: once the Fiber is
      handed off, no step sets the mark. */
  lemma SkipOnlyInCreation(w: World, a: Action)
    requires Enabled(w, a) && !w.s.past.skipped && Do(w, a).s.past.skipped
    ensures w.s.life.creationPending && !w.s.life.applied
    ensures a.Run? && a.t in w.threads && w.threads[a.t].Driving? && w.threads[a.t].role != Spawner
  {
    var th := if a.t in w.threads then w.threads[a.t] else Finished;
    if a.Run? && th.Driving? { DriveSkips(w.s, a.t, th.role, th.pc, a.flag); }
  }

  lemma DriveSkips(s: Shared, t: Tid, role: Role, pc: Pc, flag: bool)
    requires !s.past.skipped && DriveStep(s, t, role, pc, flag).s.past.skipped
    ensures s.life.creationPending && !s.life.applied && role != Spawner
  {
    DriveHistory(s, t, role, pc, flag);
  }

  /** A delivered Fiber that nobody is closing has been released by an exit recheck. */
  lemma HandedOffReleased(w: World)
    requires Inv(w) && !w.s.life.creationPending && !w.s.life.terminal
    ensures w.s.past.released
  {}

  // ----- acknowledged revisions -----

  /** The release that ends a holder's pass happens only after a full target read
      that began when every revision it acknowledges had been written. */
  lemma ReleaseFollowsRead(w: World, t: Tid)
    requires Inv(w) && t in w.threads && w.threads[t].Driving? && w.threads[t].pc.CasIdle? && w.s.slot.inertia == RELEASING
    ensures Do(w, Run(t, false)).s.slot.inertia == IDLE
    ensures w.s.slot.settled <= w.s.past.seen <= w.s.past.written
  {
    assert Local(w.s, t, w.threads[t]);
    if w.threads[t].pc.t.edges == [] { assert |w.s.store.live| == 0; }
  }

  /** recheck_settled changes only where a holder stores it. */
  lemma OnlyStoreSettled(w: World, a: Action)
    requires Enabled(w, a) && Do(w, a).s.slot.settled != w.s.slot.settled
    ensures a.t in w.threads && w.threads[a.t].Driving? && w.threads[a.t].pc.StoreSettled?
    ensures Do(w, a).s.slot.settled == w.threads[a.t].pc.rev
  {
    hide DriveStep;
    if a.Run? && w.threads[a.t].Driving? {
      DriveHistory(w.s, a.t, w.threads[a.t].role, w.threads[a.t].pc, a.flag);
    }
  }

  lemma StoredIsRead(s: Shared, role: Role, target: Target, rev: nat)
    requires Global(s) && OwnerOk(s, role, StoreSettled(target, rev))
    ensures rev <= s.past.seen <= s.past.written
  {}

  /** recheck_settled never passes a revision whose mutation was not read. */
  lemma AcknowledgesOnlyRead(w: World, a: Action)
    requires Inv(w) && Enabled(w, a) && Do(w, a).s.slot.settled != w.s.slot.settled
    ensures Do(w, a).s.slot.settled <= w.s.past.seen <= w.s.past.written
  {
    hide Do;
    hide OwnerOk;
    OnlyStoreSettled(w, a);
    var th := w.threads[a.t];
    assert Local(w.s, a.t, th);
    StoredIsRead(w.s, th.role, th.pc.t, th.pc.rev);
  }

  // ----- neutral rechecks -----

  /** Probing a target that is the live one, with a read that agrees so far. */
  predicate NeutralPc(s: Shared, pc: Pc) {
    var live := LiveTarget(s);
    || (pc.StoreReleasing? && pc.t == live)
    || (pc.Read? && pc.use.Probe? && pc.use.t == live && pc.input == live.input && pc.acc <= live.edges)
    || (pc.LoadObserved? && pc.t == live && pc.live == live)
    || (pc.StoreSettled? && pc.t == live)
    || (pc.CasIdle? && pc.t == live)
    || (pc.ReloadRevision? && pc.t == live)
  }

  /** A kick that has won the slot while the recorded target is the live one. */
  predicate NeutralKick(s: Shared, th: Thread) {
    th.Driving? && th.role == Kicker && (th.pc.Claimed? || th.pc.LoadCell?) && s.slot.cell == Some(LiveTarget(s))
  }

  predicate NeutralProbe(w: World, t: Tid) {
    t in w.threads && w.threads[t].Driving? && (NeutralPc(w.s, w.threads[t].pc) || NeutralKick(w.s, w.threads[t]))
  }

  /** Whatever revisions and kicks arrive, while the live target stays the one
      being probed, or recorded when a kick won the slot, the pass goes on probing it until it releases the slot: a
      target-neutral recheck is acknowledged without another apply. */
  lemma NeutralProbeStays(w: World, a: Action, t: Tid)
    requires Inv(w) && Enabled(w, a) && !StaleAbandon(w, a) && NeutralProbe(w, t)
    requires Do(w, a).s.store.live == w.s.store.live
    ensures NeutralProbe(Do(w, a), t) || (a.t == t && !Do(w, a).threads[t].Driving?)
    ensures Do(w, a).s.past.applies == w.s.past.applies
  {
    assert Local(w.s, t, w.threads[t]);
    if a.t == t {
      if a.Run? { OwnProbeStays(w, t, w.threads[t].role, w.threads[t].pc, a.flag, MoveOf(w, a)); }
    } else {
      if a.t in w.threads { assert Local(w.s, a.t, w.threads[a.t]); }
      OutsideApplies(w, a);
    }
  }

  lemma ReadProbeStays(s: Shared, role: Role, use: Use, input: nat, acc: seq<Option<Occurrence>>)
    requires NeutralPc(s, Read(use, input, acc))
    ensures var m := ReadStep(s, role, use, input, acc);
      m.th.Driving? && NeutralPc(m.s, m.th.pc) && m.s.past.applies == s.past.applies
  {
    if |acc| < |s.store.live| {
      assert acc + [s.store.live[|acc|]] <= s.store.live;
    } else {
      assert acc == s.store.live;
    }
  }

  lemma OwnProbeStays(w: World, t: Tid, role: Role, pc: Pc, flag: bool, m: Move)
    requires Inv(w) && NeutralProbe(w, t) && w.threads[t] == Driving(role, pc) && m == DriveStep(w.s, t, role, pc, flag)
    ensures NeutralProbe(After(w, t, m), t) || !m.th.Driving?
    ensures m.s.past.applies == w.s.past.applies
  {
    hide SettleStep;
    hide TeardownStep;
    hide ReadStep;
    hide Inv;
    if pc.Read? { ReadProbeStays(w.s, role, pc.use, pc.input, pc.acc); }
  }

  lemma OutsideApplies(w: World, a: Action)
    requires Enabled(w, a) && (a.t in w.threads ==> !w.threads[a.t].Driving?)
    ensures Do(w, a).s.past.applies == w.s.past.applies && Do(w, a).s.life.input == w.s.life.input
    ensures Do(w, a).s.slot.cell == w.s.slot.cell
  {
    if a.Run? {
      if InKick(w.threads[a.t]) { KickApplies(w.s, a.t, w.threads[a.t], a.flag); } else { OtherApplies(w.s, a.t, w.threads[a.t]); }
    }
    hide KickStep;
    hide OtherStep;
  }

  predicate SameApplies(s: Shared, s': Shared) {
    s'.past.applies == s.past.applies && s'.life.input == s.life.input && s'.slot.cell == s.slot.cell
  }

  lemma KickApplies(s: Shared, t: Tid, th: Thread, flag: bool)
    requires InKick(th)
    ensures SameApplies(s, KickStep(s, t, th, flag).s)
  {}

  lemma OtherApplies(s: Shared, t: Tid, th: Thread)
    requires !th.Driving?
    ensures SameApplies(s, OtherStep(s, t, th).s)
  {}
}
