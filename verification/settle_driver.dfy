/** Every step of the slot owner keeps the invariant. */
module SettleDriver {
  import opened Fibers
  import opened SettleProtocol
  import opened SettleInvariants
  import opened SettleSteps

  /** What the owner's step leaves alone for the sake of every other thread. */
  predicate DriverFrame(s: Shared, s': Shared, t: Tid) {
    && OwnBehalf(s, s', t)
    && s'.store.lock == s.store.lock && s'.slot.committed == s.slot.committed && s'.past.written == s.past.written
    && (s.life.state == Disposed ==> s'.life.state == Disposed)
    && (s'.life.alive ==> s.life.alive) && (s'.life.indexed ==> s.life.indexed)
    && (s'.life.alive == s.life.alive || s.past.closer == Some(t))
  }

  lemma DriverBeside(s: Shared, s': Shared, t: Tid, u: Tid, th: Thread)
    requires u != t && Local(s, u, th) && !th.Driving? && DriverFrame(s, s', t)
    requires s'.past.holder == Some(t) || s'.past.holder == None
    ensures Local(s', u, th)
  {
    ClaimLocalStable(s, s', t, u, th);
  }

  /** The owner's step, assembled. */
  lemma DriverKeeps(w: World, t: Tid, m: Move)
    requires Inv(w) && t in w.threads && w.threads[t].Driving?
    requires Global(m.s) && Local(m.s, t, m.th) && DriverFrame(w.s, m.s, t)
    requires Witnessed(After(w, t, m))
    ensures Inv(After(w, t, m))
  {
    assert Local(w.s, t, w.threads[t]);
    forall u | u in w.threads && u != t
      ensures Local(m.s, u, w.threads[u])
    {
      assert Local(w.s, u, w.threads[u]);
      DriverBeside(w.s, m.s, t, u, w.threads[u]);
    }
    Assemble(w, t, m);
  }

  /** The owner's step when it has nothing to do with the terminal barrier. */
  lemma OrdinaryKeeps(w: World, t: Tid, m: Move)
    requires Inv(w) && t in w.threads && w.threads[t].Driving?
    requires !Closing(w.threads[t]) && !Inheriting(w.threads[t])
    requires Global(m.s) && Local(m.s, t, m.th) && DriverFrame(w.s, m.s, t)
    requires m.s.past.closer == w.s.past.closer && m.s.life.complete == w.s.life.complete && m.s.life.alive == w.s.life.alive
    ensures Inv(After(w, t, m))
  {
    DriverKeeps(w, t, m);
  }

  // ----- reading the target -----

  lemma ExtendRead(s: Shared, acc: seq<Option<Occurrence>>)
    requires Global(s) && ReadKnown(s, acc) && |acc| < |s.store.live|
    ensures ReadKnown(s, acc + [s.store.live[|acc|]])
    ensures Supersedes(s, acc) ==> Supersedes(s, acc + [s.store.live[|acc|]])
  {}

  lemma ExtendProbe(s: Shared, t: Target, rev: nat, acc: seq<Option<Occurrence>>)
    requires Global(s) && |acc| < |s.store.live| && s.store.lock.None?
    requires Known(s, t) && Fresh(s, rev, acc) && (s.life.alive ==> ProbeOk(s, t, acc))
    ensures var s' := if acc == [] then s.(past := s.past.(seen := s.past.written)) else s;
      Fresh(s', rev, acc + [s.store.live[|acc|]]) && (s.life.alive ==> ProbeOk(s', t, acc + [s.store.live[|acc|]]))
  {
    var s' := if acc == [] then s.(past := s.past.(seen := s.past.written)) else s;
    var acc' := acc + [s.store.live[|acc|]];
    assert s.life.indexed && s.slot.committed == rev ==> acc' == s.store.live[..|acc'|];
    if s.life.alive && !Reflects(s, t) {
      var i :| StaleAt(s, t, acc, i);
      assert StaleAt(s', t, acc', i);
    }
  }

  // ----- one step of the owner, on the shared state and its own thread -----

  predicate SameView(s: Shared, s': Shared) {
    && s'.life.alive == s.life.alive && s'.life.state == s.life.state && s'.past.lastApply == s.past.lastApply && s'.past.skipped == s.past.skipped
    && s'.past.used == s.past.used && s'.store.live == s.store.live
  }

  lemma ProbeSame(s: Shared, s': Shared, t: Target, acc: seq<Option<Occurrence>>)
    requires SameView(s, s') && ProbeOk(s, t, acc)
    ensures ProbeOk(s', t, acc)
  {
    if !Reflects(s, t) {
      var i :| StaleAt(s, t, acc, i);
      assert StaleAt(s', t, acc, i);
    }
  }

  lemma CoveredSame(s: Shared, s': Shared)
    requires SameView(s, s') && s'.slot.cell == s.slot.cell && s'.life.input == s.life.input && CellCovered(s)
    ensures CellCovered(s')
  {
    if s.life.alive { ProbeSame(s, s', s.slot.cell.value, []); }
  }

  lemma RestSame(s: Shared, s': Shared)
    requires SameView(s, s') && s'.slot.cell == s.slot.cell && s'.life.input == s.life.input && Rest(s)
    requires s'.past.released == s.past.released && s'.slot.committed == s.slot.committed && s'.slot.settled == s.slot.settled
    ensures Rest(s')
  {
    if s.slot.cell.Some? { CoveredSame(s, s'); }
  }

  /** An ordinary step of the owner is good. */
  ghost predicate Good(s: Shared, t: Tid, m: Move) {
    && Global(m.s) && Local(m.s, t, m.th) && DriverFrame(s, m.s, t)
    && m.s.past.closer == s.past.closer && m.s.life.complete == s.life.complete && m.s.life.alive == s.life.alive
  }

  /** A step that keeps the slot, away from the terminal barrier. */
  ghost predicate KeepsSlot(s: Shared, s': Shared, t: Tid) {
    && s.past.holder == Some(t) && s'.past.holder == Some(t) && s'.slot.inertia != IDLE
    && s'.store.lock == s.store.lock && s'.slot.committed == s.slot.committed && s'.past.written == s.past.written
    && s'.store.live == s.store.live && s'.past.used == s.past.used
    && s'.life.terminal == s.life.terminal && s'.past.closer == s.past.closer && s'.life.complete == s.life.complete
    && s'.life.alive == s.life.alive && s'.life.indexed == s.life.indexed
    && s'.slot.settled <= s.past.written && s'.past.seen <= s.past.written
    && (s'.life.state == s.life.state || (s.life.alive && s'.life.state != Disposed))
    && (s'.life.resident ==> s.life.resident) && s'.past.released == s.past.released
    && s'.life.creationPending == s.life.creationPending && s.life.input <= s'.life.input
    && (s'.slot.cell.Some? ==> Known(s', s'.slot.cell.value))
    && (s'.past.lastApply.Some? ==> !HasMissing(s'.past.lastApply.value))
    && (s'.past.skipped ==> !s'.life.applied)
  }

  lemma KeepsSlotGlobal(s: Shared, s': Shared, t: Tid)
    requires Global(s) && KeepsSlot(s, s', t)
    ensures Global(s') && DriverFrame(s, s', t)
  {}

  lemma KeepsSlotGood(s: Shared, t: Tid, m: Move)
    requires Global(s) && KeepsSlot(s, m.s, t) && s.store.lock != Some(t)
    requires m.th.Driving? && !m.th.pc.Teardown? && !m.th.pc.MarkTerminal? && m.th.pc != Release(Unlinking)
    requires m.th.role != Guard && (SpawnSide(m.th) ==> t == SPAWN) && (HandingOff(m.th) ==> s.past.released)
    requires LifeLocal(m.s, m.th) && OwnerOk(m.s, m.th.role, m.th.pc) && (m.th.role != Updater ==> CellInput(m.s))
    ensures Good(s, t, m)
  {
    KeepsSlotGlobal(s, m.s, t);
  }

  /** What the step lemmas below know about the owner before the step. */
  ghost predicate Before(s: Shared, t: Tid, role: Role, pc: Pc) {
    && Global(s) && s.past.holder == Some(t) && s.store.lock != Some(t)
    && LifeLocal(s, Driving(role, pc)) && OwnerOk(s, role, pc) && (role != Updater ==> CellInput(s))
  }

  /** And what they establish. */
  ghost predicate Next(s: Shared, t: Tid, m: Move) {
    && KeepsSlot(s, m.s, t) && m.th.Driving? && LifeLocal(m.s, m.th)
    && OwnerOk(m.s, m.th.role, m.th.pc) && (m.th.role != Updater ==> CellInput(m.s))
  }

  lemma ClaimedNext(s: Shared, t: Tid, role: Role, flag: bool)
    requires Before(s, t, role, Claimed) && role != Guard
    ensures Next(s, t, ClaimedStep(s, role, flag))
  {
    hide ProbeOk;
    hide Reflects;
    hide Supersedes;
    hide Fresh;
    hide AdmitOk;
    hide ReadKnown;
    if role == Spawner && !s.life.alive { RestSame(s, s.(life := s.life.(resident := false))); }
  }

  lemma LoadNext(s: Shared, t: Tid, role: Role, pc: Pc)
    requires Before(s, t, role, pc) && (pc.LoadRevision? || pc.LoadCell?)
    ensures Next(s, t, DriveStep(s, t, role, pc, false))
  {
    hide ProbeOk;
    hide Reflects;
    hide Fresh;
  }

  lemma RecordNext(s: Shared, t: Tid, role: Role, pc: Pc)
    requires Before(s, t, role, pc)
    requires pc.RecordFirst? || pc.RecordDrift? || pc.RecordAdmitted? || pc.RecordApplied? || pc.RecordLive?
    ensures Next(s, t, DriveStep(s, t, role, pc, false))
  {
    hide Fresh;
  }

  lemma ReadFirstNext(s: Shared, t: Tid, role: Role, use: Use, input: nat, acc: seq<Option<Occurrence>>)
    requires Before(s, t, role, Read(use, input, acc)) && |acc| < |s.store.live| && s.store.lock.None? && (use.First? || use.Admit?)
    ensures Next(s, t, ReadStep(s, role, use, input, acc))
  {
    ExtendRead(s, acc);
  }

  lemma ReadCompareNext(s: Shared, t: Tid, role: Role, use: Use, input: nat, acc: seq<Option<Occurrence>>)
    requires Before(s, t, role, Read(use, input, acc)) && |acc| < |s.store.live| && s.store.lock.None? && use.Compare?
    ensures Next(s, t, ReadStep(s, role, use, input, acc))
  {
    ExtendRead(s, acc);
  }

  lemma ReadProbeNext(s: Shared, t: Tid, role: Role, use: Use, input: nat, acc: seq<Option<Occurrence>>)
    requires Before(s, t, role, Read(use, input, acc)) && |acc| < |s.store.live| && s.store.lock.None? && use.Probe?
    ensures Next(s, t, ReadStep(s, role, use, input, acc))
  {
    var s' := if acc == [] then s.(past := s.past.(seen := s.past.written)) else s;
    var acc' := acc + [s.store.live[|acc|]];
    ExtendRead(s, acc);
    ExtendProbe(s, use.t, use.rev, acc);
    CoveredSame(s, s');
    ProbeReadNext(s, s', t, role, use, input, acc, acc');
  }

  lemma ProbeReadNext(s: Shared, s': Shared, t: Tid, role: Role, use: Use, input: nat,
      acc: seq<Option<Occurrence>>, acc': seq<Option<Occurrence>>)
    requires Before(s, t, role, Read(use, input, acc)) && use.Probe?
    requires s' == s || s' == s.(past := s.past.(seen := s.past.written))
    requires ReadKnown(s, acc') && CellCovered(s') && Fresh(s', use.rev, acc')
    requires s.life.alive ==> ProbeOk(s', use.t, acc')
    ensures Next(s, t, At(s', role, Read(use, input, acc')))
  {}

  lemma ReadDoneNext(s: Shared, t: Tid, role: Role, use: Use, input: nat, acc: seq<Option<Occurrence>>)
    requires Before(s, t, role, Read(use, input, acc)) && |acc| == |s.store.live|
    ensures Next(s, t, ReadStep(s, role, use, input, acc))
  {}

  // ----- the settle pass -----

  lemma CheckAliveNext(s: Shared, t: Tid, role: Role, target: Target, rev: nat, phase: Phase, flag: bool)
    requires Before(s, t, role, Settle(target, rev, phase)) && phase.CheckAlive?
    ensures Next(s, t, SettleStep(s, role, target, rev, phase, flag))
  {}

  lemma CloseOldUnloads(s: Shared, t: Tid, role: Role, target: Target, rev: nat)
    requires Before(s, t, role, Settle(target, rev, CloseOld)) && (s.life.state == Active || s.life.state == Failed || s.life.state == Loading)
    ensures Next(s, t, At(Publish(s, Unloading), role, Settle(target, rev, DrainOld)))
  {}

  lemma CloseOldSkips(s: Shared, t: Tid, role: Role, target: Target, rev: nat)
    requires Before(s, t, role, Settle(target, rev, CloseOld)) && s.life.state == Pending
    ensures Next(s, t, At(s, role, Settle(target, rev, CheckMissing)))
  {}

  lemma CloseOldNext(s: Shared, t: Tid, role: Role, target: Target, rev: nat, phase: Phase, flag: bool)
    requires Before(s, t, role, Settle(target, rev, phase)) && phase.CloseOld?
    ensures Next(s, t, SettleStep(s, role, target, rev, phase, flag))
  {
    if s.life.state == Pending { CloseOldSkips(s, t, role, target, rev); } else { CloseOldUnloads(s, t, role, target, rev); }
  }

  lemma DrainOldNext(s: Shared, t: Tid, role: Role, target: Target, rev: nat, phase: Phase, flag: bool)
    requires Before(s, t, role, Settle(target, rev, phase)) && phase.DrainOld?
    ensures Next(s, t, SettleStep(s, role, target, rev, phase, flag))
  {}

  /** A settle pass that has published its outcome. */
  ghost predicate Settled(s: Shared, role: Role, target: Target, rev: nat) {
    && Settler(role) && AdmitOk(s, role, target) && rev <= s.slot.committed && Quiet(s) && s.life.lease
    && (s.life.alive ==> Reflects(s, target)) && (role != Updater ==> CellInput(s))
    && (CheckedAlive(role) ==> s.life.alive)
    && (s.life.alive && !s.life.applied ==> s.life.state == Pending)
  }

  lemma AfterSettleLocal(s: Shared, role: Role, target: Target, rev: nat)
    requires Settled(s, role, target, rev)
    ensures var m := AfterSettle(s, role, target, rev);
      && m.s == s && m.th.Driving? && m.th.role == role && LifeLocal(s, m.th) && OwnerOk(s, role, m.th.pc)
  {}

  lemma CheckMissingPends(s: Shared, t: Tid, role: Role, target: Target, rev: nat, s': Shared)
    requires Before(s, t, role, Settle(target, rev, CheckMissing)) && HasMissing(target)
    requires s' == Publish(s, Pending).(past := s.past.(skipped := false))
    ensures Settled(s', role, target, rev) && KeepsSlot(s, s', t)
  {
    hide ProbeOk;
    hide Fresh;
  }

  lemma CheckMissingOpens(s: Shared, t: Tid, role: Role, target: Target, rev: nat)
    requires Before(s, t, role, Settle(target, rev, CheckMissing)) && !HasMissing(target)
    ensures Next(s, t, At(s, role, Settle(target, rev, CheckFirstApply)))
  {}

  lemma CheckMissingNext(s: Shared, t: Tid, role: Role, target: Target, rev: nat, phase: Phase, flag: bool)
    requires Before(s, t, role, Settle(target, rev, phase)) && phase.CheckMissing?
    ensures Next(s, t, SettleStep(s, role, target, rev, phase, flag))
  {
    if HasMissing(target) {
      var s' := Publish(s, Pending).(past := s.past.(skipped := false));
      CheckMissingPends(s, t, role, target, rev, s');
      AfterSettleLocal(s', role, target, rev);
    } else {
      CheckMissingOpens(s, t, role, target, rev);
    }
  }

  lemma CheckFirstApplyNext(s: Shared, t: Tid, role: Role, target: Target, rev: nat, phase: Phase, flag: bool)
    requires Before(s, t, role, Settle(target, rev, phase)) && phase.CheckFirstApply?
    ensures Next(s, t, SettleStep(s, role, target, rev, phase, flag))
  {
    hide AfterSettle;
    hide ProbeOk;
    hide Fresh;
    if role != Spawner && s.life.creationPending && !s.life.applied {
      var s' := s.(past := s.past.(skipped := true));
      assert Settled(s', role, target, rev);
      AfterSettleLocal(s', role, target, rev);
    }
  }

  lemma OpenNext(s: Shared, t: Tid, role: Role, target: Target, rev: nat, phase: Phase, flag: bool)
    requires Before(s, t, role, Settle(target, rev, phase)) && phase.Open?
    ensures Next(s, t, SettleStep(s, role, target, rev, phase, flag))
  {
    hide ProbeOk;
    hide Fresh;
  }

  lemma ApplyingNext(s: Shared, t: Tid, role: Role, target: Target, rev: nat, phase: Phase, flag: bool)
    requires Before(s, t, role, Settle(target, rev, phase)) && phase.Applying?
    ensures Next(s, t, SettleStep(s, role, target, rev, phase, flag))
  {}

  lemma AppliedNext(s: Shared, t: Tid, role: Role, target: Target, rev: nat, phase: Phase, flag: bool)
    requires Before(s, t, role, Settle(target, rev, phase)) && phase.Applied?
    ensures Next(s, t, SettleStep(s, role, target, rev, phase, flag))
  {
    hide ProbeOk;
    hide Fresh;
    var s' := Publish(s, if phase.ok then Active else Unloading);
    assert KeepsSlot(s, s', t);
    if phase.ok {
      assert Settled(s', role, target, rev);
      AfterSettleLocal(s', role, target, rev);
    }
  }

  lemma DrainFailedNext(s: Shared, t: Tid, role: Role, target: Target, rev: nat, phase: Phase, flag: bool)
    requires Before(s, t, role, Settle(target, rev, phase)) && phase.DrainFailed?
    ensures Next(s, t, SettleStep(s, role, target, rev, phase, flag))
  {
    hide AfterSettle;
    hide ProbeOk;
    hide Fresh;
    var s' := Publish(s, Failed);
    assert Settled(s', role, target, rev);
    AfterSettleLocal(s', role, target, rev);
  }

  /** A Pending target that does not overwrite the cell: either the cell is
      Pending too, or one of its occurrences is gone for good. */
  lemma MarkPendingNext(s: Shared, t: Tid, role: Role, target: Target, rev: nat)
    requires Before(s, t, role, MarkPending(target, rev))
    ensures Next(s, t, DriveStep(s, t, role, MarkPending(target, rev), false))
  {
    if s.slot.cell.Some? && !HasMissing(s.slot.cell.value) {
      var i :| 0 <= i < |target.edges| && target.edges[i].None?;
      assert StaleAt(s, s.slot.cell.value, [], i);
    }
  }

  lemma CheckFailedNext(s: Shared, t: Tid, role: Role, target: Target, rev: nat)
    requires Before(s, t, role, CheckFailed(target, rev)) && s.life.state != Failed
    ensures Next(s, t, DriveStep(s, t, role, CheckFailed(target, rev), false))
  {}

  // ----- the exit recheck -----

  lemma StoreReleasingNext(s: Shared, t: Tid, role: Role, target: Target, rev: nat)
    requires Before(s, t, role, StoreReleasing(target, rev))
    ensures Next(s, t, ExitStep(s, role, StoreReleasing(target, rev)))
  {
    var s' := s.(slot := s.slot.(inertia := RELEASING));
    CoveredSame(s, s');
    if s.life.alive { ProbeSame(s, s', target, []); }
  }

  lemma LoadObservedNext(s: Shared, t: Tid, role: Role, target: Target, rev: nat, live: Target)
    requires Before(s, t, role, LoadObserved(target, rev, live))
    ensures Next(s, t, ExitStep(s, role, LoadObserved(target, rev, live)))
  {
    if s.life.alive && !Reflects(s, target) {
      var i: nat :| StaleAt(s, target, live.edges, i);
      assert live.edges[i] != target.edges[i];
    }
  }

  lemma StoreSettledNext(s: Shared, t: Tid, role: Role, target: Target, rev: nat)
    requires Before(s, t, role, StoreSettled(target, rev))
    ensures Next(s, t, ExitStep(s, role, StoreSettled(target, rev)))
  {
    hide ProbeOk;
    hide Supersedes;
    hide AdmitOk;
    CoveredSame(s, s.(slot := s.slot.(settled := rev)));
    if target.edges == [] { assert |s.store.live| == 0; }
  }

  lemma RetryNext(s: Shared, t: Tid, role: Role, pc: Pc)
    requires Before(s, t, role, pc)
    requires pc.StoreActive? || pc.ReloadRevision? || (pc.CasIdle? && s.slot.inertia != RELEASING)
    ensures Next(s, t, ExitStep(s, role, pc))
  {
    hide Fresh;
    hide Supersedes;
    hide AdmitOk;
  }

  // ----- giving the slot back -----

  lemma GiveBackGood(s: Shared, s': Shared, t: Tid)
    requires Global(s) && s.past.holder == Some(t) && Quiet(s) && s.life.lease && Rest(s')
    requires s.life.alive && !s.life.applied ==> s.life.state == Pending
    requires s' == s.(slot := s.slot.(inertia := IDLE), past := s.past.(holder := None))
          || s' == s.(slot := s.slot.(inertia := IDLE), past := s.past.(holder := None, released := true))
    ensures Global(s') && DriverFrame(s, s', t)
  {}

  lemma CasIdleGood(s: Shared, t: Tid, role: Role, target: Target, rev: nat)
    requires Before(s, t, role, CasIdle(target, rev)) && s.slot.inertia == RELEASING
    ensures var s' := ExitStep(s, role, CasIdle(target, rev)).s; Global(s') && DriverFrame(s, s', t)
  {
    var s' := ExitStep(s, role, CasIdle(target, rev)).s;
    CoveredSame(s, s');
    if s.life.alive && s.slot.committed == s.slot.settled {
      assert target.edges == s.store.live;
      assert target == LiveTarget(s');
    }
    GiveBackGood(s, s', t);
  }

  /** A driving thread steps out of the slot. */
  lemma LeaveLocal(s: Shared, t: Tid, th: Thread)
    requires !th.Driving? && !th.Writing? && !InKick(th) && s.past.holder != Some(t) && s.store.lock != Some(t)
    requires TerminalLocal(s, t, th) && (SpawnSide(th) ==> t == SPAWN) && (HandingOff(th) ==> s.past.released)
    requires th.Waiting? ==> th.role != Kicker && th.role != Converger
    ensures Local(s, t, th)
  {}

  lemma CasIdleKeeps(w: World, t: Tid)
    requires Inv(w) && t in w.threads && w.threads[t].Driving? && w.threads[t].pc.CasIdle? && w.s.slot.inertia == RELEASING
    ensures Inv(After(w, t, ExitStep(w.s, w.threads[t].role, w.threads[t].pc)))
  {
    hide OwnerOk;
    hide Global;
    hide DriverFrame;
    var th := w.threads[t];
    var m := ExitStep(w.s, th.role, th.pc);
    assert Local(w.s, t, th);
    CasIdleGood(w.s, t, th.role, th.pc.t, th.pc.rev);
    LeaveLocal(m.s, t, m.th);
    OrdinaryKeeps(w, t, m);
  }

  lemma ReleaseGood(s: Shared, t: Tid, role: Role, next: Thread)
    requires Before(s, t, role, Release(next))
    ensures var s' := DriveStep(s, t, role, Release(next), false).s; Global(s') && DriverFrame(s, s', t)
  {
    var s' := DriveStep(s, t, role, Release(next), false).s;
    RestSame(s, s');
    GiveBackGood(s, s', t);
  }

  lemma ReleaseLeaves(s: Shared, t: Tid, role: Role, next: Thread)
    requires Local(s, t, Driving(role, Release(next))) && s.past.holder == Some(t) && Global(s)
    ensures var m := DriveStep(s, t, role, Release(next), false); Local(m.s, t, m.th)
  {
    hide Rest;
    LeaveLocal(DriveStep(s, t, role, Release(next), false).s, t, next);
  }

  lemma ReleaseWitnessed(w: World, t: Tid, m: Move)
    requires Inv(w) && t in w.threads && w.threads[t].Driving? && w.threads[t].pc.Release?
    requires m == DriveStep(w.s, t, w.threads[t].role, w.threads[t].pc, false)
    ensures Witnessed(After(w, t, m))
  {
    hide OwnerOk;
    hide LifeLocal;
    hide Global;
    assert Local(w.s, t, w.threads[t]);
  }

  lemma ReleaseKeeps(w: World, t: Tid)
    requires Inv(w) && t in w.threads && w.threads[t].Driving? && w.threads[t].pc.Release?
    ensures Inv(After(w, t, DriveStep(w.s, t, w.threads[t].role, w.threads[t].pc, false)))
  {
    hide OwnerOk;
    hide Global;
    hide DriverFrame;
    var th := w.threads[t];
    var m := DriveStep(w.s, t, th.role, th.pc, false);
    assert Local(w.s, t, th);
    ReleaseGood(w.s, t, th.role, th.pc.next);
    ReleaseLeaves(w.s, t, th.role, th.pc.next);
    ReleaseWitnessed(w, t, m);
    DriverKeeps(w, t, m);
  }

  // ----- the terminal barrier -----

  /** A live Fiber's slot owner that is not closing it finds the terminal claim
      open, unless the creation guard waits for the slot with the claim in hand. */
  lemma TerminalOpen(w: World, t: Tid)
    requires Inv(w) && t in w.threads && w.threads[t].Driving? && !Closing(w.threads[t]) && !Inheriting(w.threads[t])
    requires t == SPAWN && w.s.life.alive
    ensures !w.s.life.terminal
  {
    assert forall u :: u in w.threads ==> Local(w.s, u, w.threads[u]);
  }

  lemma CloseGood(s: Shared, t: Tid)
    requires Global(s) && s.past.holder == Some(t)
    ensures Global(Close(s, t)) && DriverFrame(s, Close(s, t), t)
  {}

  lemma ClosingLocal(s: Shared, t: Tid, role: Role)
    requires Global(s) && s.past.holder == Some(t) && s.store.lock != Some(t) && s.past.closer == Some(t)
    requires (SpawnSide(Driving(role, Claimed)) ==> t == SPAWN) && s.life.lease
    requires s.life.state != Disposed && !s.life.complete
    requires role == Disposer || role == Era || role == Guard || role == Spawner
    requires role != Updater ==> CellInput(s)
    ensures Local(s, t, Driving(role, Teardown(ClosePending)))
  {
    hide ProbeOk;
    hide Reflects;
    hide Known;
    hide Fresh;
    hide AdmitOk;
    hide ReadKnown;
  }

  /** Winning the terminal claim, or inheriting it. */
  lemma CloseKeeps(w: World, t: Tid)
    requires Inv(w) && t in w.threads && w.threads[t].Driving? && w.s.past.holder == Some(t)
    requires w.s.life.lease && w.s.life.state != Disposed && !w.s.life.complete && CellInput(w.s)
    requires w.s.past.closer == None || w.s.past.closer == Some(t)
    requires !w.s.life.alive ==> w.threads[t].role == Guard
    requires var r := w.threads[t].role; r == Disposer || r == Era || r == Guard || r == Spawner
    ensures Inv(After(w, t, At(Close(w.s, t), w.threads[t].role, Teardown(ClosePending))))
  {
    hide OwnerOk;
    hide LifeLocal;
    hide Global;
    hide DriverFrame;
    var th := w.threads[t];
    assert Local(w.s, t, th);
    CloseGood(w.s, t);
    ClosingLocal(Close(w.s, t), t, th.role);
    DriverKeeps(w, t, At(Close(w.s, t), th.role, Teardown(ClosePending)));
  }

  /** What a teardown step does to the shared state. */
  lemma TeardownGood(s: Shared, t: Tid, role: Role, step: Step)
    requires Before(s, t, role, Teardown(step)) && TerminalLocal(s, t, Driving(role, Teardown(step)))
    ensures var s' := TeardownStep(s, role, step).s; Global(s') && DriverFrame(s, s', t)
  {}

  /** The thread goes on closing the Fiber, or the barrier is complete. */
  predicate StaysClosing(s: Shared, m: Move) {
    && m.s.past.closer == s.past.closer
    && (m.s.life.complete || (Closing(m.th) && (!m.s.life.alive ==> DeathMarked(m.th))))
  }

  lemma TeardownStage(s: Shared, t: Tid, role: Role, step: Step)
    requires Global(s) && TerminalLocal(s, t, Driving(role, Teardown(step)))
    requires !s.life.alive && !s.life.complete ==> DeathMarked(Driving(role, Teardown(step)))
    ensures StaysClosing(s, TeardownStep(s, role, step))
  {
    hide Rest;
    hide HasMissing;
    hide ProbeOk;
    hide Reflects;
    hide Known;
    hide Fresh;
    hide AdmitOk;
    hide ReadKnown;
  }

  lemma TeardownClaim(s: Shared, t: Tid, role: Role, step: Step)
    requires ClaimLocal(s, t, Driving(role, Teardown(step))) && (role == Guard || role == Spawner || role == Disposer || role == Era)
    ensures var m := TeardownStep(s, role, step); ClaimLocal(m.s, t, m.th)
  {}

  lemma TeardownTerminal(s: Shared, t: Tid, role: Role, step: Step)
    requires Global(s) && TerminalLocal(s, t, Driving(role, Teardown(step)))
    ensures var m := TeardownStep(s, role, step); TerminalLocal(m.s, t, m.th)
  {
    hide Rest;
    hide Known;
  }

  lemma TeardownLife(s: Shared, t: Tid, role: Role, step: Step)
    requires Global(s) && LifeLocal(s, Driving(role, Teardown(step))) && TerminalLocal(s, t, Driving(role, Teardown(step)))
    ensures LifeLocal(TeardownStep(s, role, step).s, TeardownStep(s, role, step).th)
  {
    hide Rest;
    hide Known;
  }

  lemma TeardownOwner(s: Shared, t: Tid, role: Role, step: Step)
    requires Global(s) && CellInput(s) && OwnerOk(s, role, Teardown(step)) && TerminalLocal(s, t, Driving(role, Teardown(step)))
    ensures var m := TeardownStep(s, role, step); m.th.Driving? && m.th.role == role && CellInput(m.s) && OwnerOk(m.s, role, m.th.pc)
  {
    hide Fresh;
    hide AdmitOk;
    hide ReadKnown;
    hide HasMissing;
    hide ProbeOk;
    hide Reflects;
    hide Known;
  }

  lemma TeardownLocal(s: Shared, t: Tid, role: Role, step: Step)
    requires Global(s) && Local(s, t, Driving(role, Teardown(step)))
    ensures var m := TeardownStep(s, role, step); Local(m.s, t, m.th)
  {
    hide TeardownStep;
    hide Global;
    TeardownClaim(s, t, role, step);
    TeardownTerminal(s, t, role, step);
    TeardownLife(s, t, role, step);
    TeardownOwner(s, t, role, step);
    hide ClaimLocal;
    hide TerminalLocal;
    hide LifeLocal;
    hide OwnerOk;
  }

  lemma ClosingKeeps(w: World, t: Tid, m: Move)
    requires Inv(w) && t in w.threads && w.threads[t].Driving? && Closing(w.threads[t])
    requires Global(m.s) && Local(m.s, t, m.th) && DriverFrame(w.s, m.s, t) && StaysClosing(w.s, m)
    ensures Inv(After(w, t, m))
  {
    assert Local(w.s, t, w.threads[t]);
    DriverKeeps(w, t, m);
  }

  lemma TeardownKeeps(w: World, t: Tid, role: Role, step: Step)
    requires Inv(w) && t in w.threads && w.threads[t] == Driving(role, Teardown(step))
    ensures Inv(After(w, t, TeardownStep(w.s, role, step)))
  {
    hide TeardownStep;
    hide Global;
    hide OwnerOk;
    assert Local(w.s, t, Driving(role, Teardown(step)));
    TeardownGood(w.s, t, role, step);
    TeardownStage(w.s, t, role, step);
    TeardownLocal(w.s, t, role, step);
    ClosingKeeps(w, t, TeardownStep(w.s, role, step));
  }

  /** Dropping the spawn future while its pass owns the slot. */
  lemma InheritLocal(s: Shared, t: Tid, role: Role, pc: Pc)
    requires Global(s) && Local(s, t, Driving(role, pc)) && role == Spawner && SpawnAwait(pc)
    requires pc.Teardown? || !s.life.terminal
    ensures var m := CancelStep(s, Driving(role, pc)); Global(m.s) && Local(m.s, t, m.th) && DriverFrame(s, m.s, t)
  {
    hide ProbeOk;
    hide Reflects;
    hide Supersedes;
    hide Fresh;
  }

  lemma InheritKeeps(w: World, t: Tid)
    requires Inv(w) && t in w.threads && w.threads[t].Driving? && CanCancel(w.threads[t])
    ensures Inv(After(w, t, CancelStep(w.s, w.threads[t])))
  {
    var th := w.threads[t];
    assert Local(w.s, t, th);
    if !th.pc.Teardown? { TerminalOpen(w, t); }
    InheritLocal(w.s, t, th.role, th.pc);
    DriverKeeps(w, t, CancelStep(w.s, th));
  }

  // ----- every step of the owner -----

  /** A step that keeps the slot and stays away from the terminal barrier. */
  lemma NextKeeps(w: World, t: Tid, role: Role, pc: Pc, m: Move)
    requires Inv(w) && t in w.threads && w.threads[t] == Driving(role, pc) && !Closing(w.threads[t]) && !Inheriting(w.threads[t])
    requires Next(w.s, t, m) && m.th.role != Guard && !Closing(m.th) && !m.th.pc.MarkTerminal?
    requires (SpawnSide(m.th) ==> t == SPAWN) && (HandingOff(m.th) ==> w.s.past.released)
    ensures Inv(After(w, t, m))
  {
    assert Local(w.s, t, w.threads[t]);
    KeepsSlotGood(w.s, t, m);
    OrdinaryKeeps(w, t, m);
  }

  predicate Recording(pc: Pc) {
    pc.RecordFirst? || pc.RecordDrift? || pc.RecordAdmitted? || pc.RecordApplied? || pc.RecordLive?
  }

  predicate Exiting(pc: Pc) {
    pc.StoreReleasing? || pc.LoadObserved? || pc.RecordLive? || pc.StoreActive? || pc.StoreSettled? || pc.CasIdle? || pc.ReloadRevision?
  }

  lemma SettleNext(s: Shared, t: Tid, role: Role, target: Target, rev: nat, phase: Phase, flag: bool)
    requires Before(s, t, role, Settle(target, rev, phase))
    ensures Next(s, t, SettleStep(s, role, target, rev, phase, flag))
  {
    match phase {
      case CheckAlive => CheckAliveNext(s, t, role, target, rev, phase, flag);
      case CloseOld => CloseOldNext(s, t, role, target, rev, phase, flag);
      case DrainOld => DrainOldNext(s, t, role, target, rev, phase, flag);
      case CheckMissing => CheckMissingNext(s, t, role, target, rev, phase, flag);
      case CheckFirstApply => CheckFirstApplyNext(s, t, role, target, rev, phase, flag);
      case Open => OpenNext(s, t, role, target, rev, phase, flag);
      case Applying => ApplyingNext(s, t, role, target, rev, phase, flag);
      case Applied(_) => AppliedNext(s, t, role, target, rev, phase, flag);
      case DrainFailed => DrainFailedNext(s, t, role, target, rev, phase, flag);
    }
  }

  lemma ReadNext(s: Shared, t: Tid, role: Role, use: Use, input: nat, acc: seq<Option<Occurrence>>)
    requires Before(s, t, role, Read(use, input, acc)) && (|acc| < |s.store.live| ==> s.store.lock.None?)
    ensures Next(s, t, ReadStep(s, role, use, input, acc))
  {
    if |acc| == |s.store.live| {
      ReadDoneNext(s, t, role, use, input, acc);
    } else if use.Probe? {
      ReadProbeNext(s, t, role, use, input, acc);
    } else if use.Compare? {
      ReadCompareNext(s, t, role, use, input, acc);
    } else {
      ReadFirstNext(s, t, role, use, input, acc);
    }
  }

  lemma ExitNext(s: Shared, t: Tid, role: Role, pc: Pc)
    requires Before(s, t, role, pc) && Exiting(pc) && !(pc.CasIdle? && s.slot.inertia == RELEASING)
    ensures Next(s, t, ExitStep(s, role, pc))
  {
    match pc {
      case StoreReleasing(target, rev) => StoreReleasingNext(s, t, role, target, rev);
      case LoadObserved(target, rev, live) => LoadObservedNext(s, t, role, target, rev, live);
      case RecordLive(_) => RecordNext(s, t, role, pc);
      case StoreSettled(target, rev) => StoreSettledNext(s, t, role, target, rev);
      case _ => RetryNext(s, t, role, pc);
    }
  }

  /** Steps of the owner that neither give the slot back nor close the Fiber. */
  predicate Inner(s: Shared, role: Role, pc: Pc) {
    && !pc.Release? && !pc.Teardown? && !pc.MarkTerminal? && !(pc.SwapTerminal? && !s.life.terminal)
    && !(pc.CasIdle? && s.slot.inertia == RELEASING)
    && !(pc.CheckFailed? && s.life.state == Failed)
    && !(pc.Claimed? && role == Guard)
    && (pc.Read? && |pc.acc| < |s.store.live| ==> s.store.lock.None?)
  }

  lemma SwapLostNext(s: Shared, t: Tid, role: Role)
    requires Before(s, t, role, SwapTerminal) && s.life.terminal
    ensures Next(s, t, DriveStep(s, t, role, SwapTerminal, false))
  {}

  lemma InnerNext(s: Shared, t: Tid, role: Role, pc: Pc, flag: bool)
    requires Before(s, t, role, pc) && Inner(s, role, pc)
    ensures Next(s, t, DriveStep(s, t, role, pc, flag))
  {
    hide Next;
    hide Before;
    hide SettleStep;
    hide ReadStep;
    hide ExitStep;
    hide ClaimedStep;
    match pc {
      case Claimed => ClaimedNext(s, t, role, flag);
      case LoadRevision => LoadNext(s, t, role, pc);
      case LoadCell(_) => LoadNext(s, t, role, pc);
      case Read(use, input, acc) => ReadNext(s, t, role, use, input, acc);
      case Settle(target, rev, phase) => SettleNext(s, t, role, target, rev, phase, flag);
      case SwapTerminal => SwapLostNext(s, t, role);
      case MarkPending(target, rev) => MarkPendingNext(s, t, role, target, rev);
      case CheckFailed(target, rev) => CheckFailedNext(s, t, role, target, rev);
      case _ =>
        if Exiting(pc) { ExitNext(s, t, role, pc); } else { RecordNext(s, t, role, pc); }
    }
  }

  predicate StaysInner(role: Role, th: Thread) {
    && th.Driving? && (th.role == role || th.role == Converger)
    && !th.pc.Teardown? && !th.pc.MarkTerminal? && th.pc != Release(Unlinking)
  }

  lemma SettleShape(s: Shared, role: Role, target: Target, rev: nat, phase: Phase, flag: bool)
    ensures StaysInner(role, SettleStep(s, role, target, rev, phase, flag).th)
  {}

  lemma InnerShape(s: Shared, t: Tid, role: Role, pc: Pc, flag: bool, m: Move)
    requires Before(s, t, role, pc) && Inner(s, role, pc) && m == DriveStep(s, t, role, pc, flag)
    ensures StaysInner(role, m.th)
  {
    hide Before;
    hide SettleStep;
    hide TeardownStep;
    if pc.Settle? { SettleShape(s, role, pc.t, pc.rev, pc.phase, flag); }
  }

  lemma InnerKeeps(w: World, t: Tid, role: Role, pc: Pc, flag: bool)
    requires Inv(w) && t in w.threads && w.threads[t] == Driving(role, pc) && Inner(w.s, role, pc) && role != Guard
    ensures Inv(After(w, t, DriveStep(w.s, t, role, pc, flag)))
  {
    hide OwnerOk;
    hide KeepsSlot;
    hide DriveStep;
    hide Global;
    assert Local(w.s, t, w.threads[t]);
    InnerNext(w.s, t, role, pc, flag);
    InnerShape(w.s, t, role, pc, flag, DriveStep(w.s, t, role, pc, flag));
    NextKeeps(w, t, role, pc, DriveStep(w.s, t, role, pc, flag));
  }

  /** The creation guard wins the slot. */
  lemma GuardClaimedLocal(s: Shared, t: Tid)
    requires Global(s) && Local(s, t, Driving(Guard, Claimed))
    ensures s.life.alive && Local(s, t, Driving(Guard, Teardown(ClosePending)))
  {}

  lemma GuardClaimedKeeps(w: World, t: Tid)
    requires Inv(w) && t in w.threads && w.threads[t] == Driving(Guard, Claimed)
    ensures Inv(After(w, t, ClaimedStep(w.s, Guard, false)))
  {
    assert Local(w.s, t, w.threads[t]);
    GuardClaimedLocal(w.s, t);
    assert ClaimedStep(w.s, Guard, false) == At(w.s, Guard, Teardown(ClosePending));
    ClosingKeeps(w, t, At(w.s, Guard, Teardown(ClosePending)));
  }

  /** The three places where a slot owner takes the terminal claim. */
  lemma ClaimTerminalKeeps(w: World, t: Tid, role: Role, pc: Pc)
    requires Inv(w) && t in w.threads && w.threads[t] == Driving(role, pc)
    requires (pc.SwapTerminal? && !w.s.life.terminal) || pc.MarkTerminal? || (pc.CheckFailed? && w.s.life.state == Failed)
    ensures Inv(After(w, t, At(Close(w.s, t), role, Teardown(ClosePending))))
  {
    assert Local(w.s, t, w.threads[t]);
    if pc.CheckFailed? { TerminalOpen(w, t); }
    CloseKeeps(w, t);
  }

  lemma BlockedRead(w: World, t: Tid, role: Role, pc: Pc, flag: bool)
    requires t in w.threads && w.threads[t] == Driving(role, pc)
    requires pc.Read? && |pc.acc| < |w.s.store.live| && w.s.store.lock.Some?
    ensures After(w, t, DriveStep(w.s, t, role, pc, flag)) == w
  {}

  /** The owner gives the slot up, or is closing the Fiber. */
  predicate Outer(s: Shared, role: Role, pc: Pc) {
    || pc.Release? || pc.Teardown? || pc.MarkTerminal? || (pc.SwapTerminal? && !s.life.terminal)
    || (pc.CheckFailed? && s.life.state == Failed) || (pc.Claimed? && role == Guard)
    || (pc.CasIdle? && s.slot.inertia == RELEASING)
  }

  lemma OuterKeeps(w: World, t: Tid, role: Role, pc: Pc, flag: bool)
    requires Inv(w) && t in w.threads && w.threads[t] == Driving(role, pc) && Outer(w.s, role, pc)
    ensures Inv(After(w, t, DriveStep(w.s, t, role, pc, flag)))
  {
    hide Inv;
    if pc.Release? {
      ReleaseKeeps(w, t);
    } else if pc.Teardown? {
      TeardownKeeps(w, t, role, pc.step);
    } else if pc.CasIdle? {
      CasIdleKeeps(w, t);
    } else if pc.Claimed? {
      GuardClaimedKeeps(w, t);
    } else {
      ClaimTerminalKeeps(w, t, role, pc);
    }
  }

  /** The creation guard only ever claims, inherits, tears down and releases. */
  lemma GuardIsOuter(s: Shared, pc: Pc)
    requires OwnerOk(s, Guard, pc)
    ensures Outer(s, Guard, pc)
  {}

  lemma DriveKeeps(w: World, t: Tid, role: Role, pc: Pc, flag: bool)
    requires Inv(w) && t in w.threads && w.threads[t] == Driving(role, pc)
    ensures Inv(After(w, t, DriveStep(w.s, t, role, pc, flag)))
  {
    hide DriveStep;
    hide OwnerOk;
    hide Global;
    assert Local(w.s, t, w.threads[t]);
    if Outer(w.s, role, pc) {
      OuterKeeps(w, t, role, pc, flag);
    } else if pc.Read? && |pc.acc| < |w.s.store.live| && w.s.store.lock.Some? {
      BlockedRead(w, t, role, pc, flag);
    } else {
      if role == Guard { GuardIsOuter(w.s, pc); }
      InnerKeeps(w, t, role, pc, flag);
    }
  }
}
