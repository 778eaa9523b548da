/** What every step of the settle protocol keeps: a part about the shared state
    and a part about each thread. */
module SettleInvariants {
  import opened Fibers
  import opened SettleProtocol

  /** The thread carries the terminal barrier forward. */
  predicate Closing(th: Thread) {
    match th
    case Waiting(role) => role == Guard
    case Driving(role, pc) => pc.Teardown? || pc == Release(Unlinking) || (role == Guard && pc.Claimed?)
    case Unlinking => true
    case Completing => true
    case _ => false
  }

  predicate Inheriting(th: Thread) {
    th == Driving(Guard, MarkTerminal)
  }

  /** The thread has passed, or will repeat, the death mark. */
  predicate DeathMarked(th: Thread) {
    match th
    case Driving(role, pc) =>
      || (role == Guard && (pc.MarkTerminal? || pc.Teardown?))
      || (pc.Teardown? && !pc.step.ClosePending? && !pc.step.Unload? && !pc.step.Pin? && !pc.step.Kill?)
      || pc == Release(Unlinking)
    case Unlinking => true
    case Completing => true
    case _ => false
  }

  /** Disposed has been published by this thread. */
  predicate PastPublish(th: Thread) {
    match th
    case Driving(_, pc) => pc == Teardown(Unlink) || pc == Teardown(Complete) || pc == Release(Unlinking)
    case Unlinking => true
    case Completing => true
    case _ => false
  }

  predicate SpawnSide(th: Thread) {
    match th
    case Waiting(role) => role == Spawner || role == Handoff || role == Guard
    case Driving(role, _) => role == Spawner || role == Handoff || role == Guard
    case TailLoad => true
    case TailStore => true
    case HandoffStore => true
    case GuardSwap => true
    case _ => false
  }

  predicate Quiet(s: Shared) {
    && s.life.state != Loading && s.life.state != Unloading
    && (!s.life.alive ==> s.life.state == Disposed)
  }

  predicate PhaseOk(s: Shared, target: Target, phase: Phase) {
    match phase
    case CheckAlive => Quiet(s)
    case CloseOld => s.life.alive && Quiet(s)
    case DrainOld => s.life.alive && s.life.state == Unloading
    case CheckMissing => s.life.alive && (s.life.state == Pending || s.life.state == Unloading)
    case CheckFirstApply => s.life.alive && (s.life.state == Pending || s.life.state == Unloading) && !HasMissing(target)
    case Open => s.life.alive && (s.life.state == Pending || s.life.state == Unloading) && !HasMissing(target)
    case Applying => s.life.alive && s.life.state == Loading && s.past.lastApply == Some(target) && !s.past.skipped
    case Applied(_) => s.life.alive && s.life.state == Loading && s.past.lastApply == Some(target) && s.life.applied && !s.past.skipped
    case DrainFailed => s.life.alive && s.life.state == Unloading && s.past.lastApply == Some(target) && s.life.applied && !s.past.skipped
  }

  predicate Ending(pc: Pc) {
    pc.Teardown? || pc.MarkTerminal?
  }

  predicate IsApplying(pc: Pc) {
    pc.Settle? && pc.phase.Applying?
  }

  // ----- targets -----

  ghost predicate Known(s: Shared, t: Target) {
    && |t.edges| == |s.store.live| && t.input <= s.life.input
    && forall i :: 0 <= i < |t.edges| && t.edges[i].Some? ==> t.edges[i].value in s.past.used
  }

  /** Occurrence `o` was visible and is no longer on edge i. */
  predicate Gone(s: Shared, i: nat, o: Occurrence) {
    o in s.past.used && i < |s.store.live| && s.store.live[i] != Some(o)
  }

  /** The published state is the one a settle pass toward t publishes. A pass
      that returned at the first-apply guard leaves Pending instead. */
  predicate Reflects(s: Shared, t: Target) {
    if HasMissing(t) then s.life.state == Pending && !s.past.skipped
    else
      || ((s.life.state == Active || s.life.state == Failed) && s.past.lastApply == Some(t) && !s.past.skipped)
      || (s.life.state == Pending && s.past.skipped)
  }

  predicate StaleAt(s: Shared, t: Target, acc: seq<Option<Occurrence>>, i: nat) {
    && i < |t.edges| && t.edges[i].Some? && Gone(s, i, t.edges[i].value)
    && (i < |acc| ==> acc[i] != t.edges[i])
  }

  /** Comparing a full read that extends acc with t can come out equal only if
      the published state is the one for t. */
  ghost predicate ProbeOk(s: Shared, t: Target, acc: seq<Option<Occurrence>>) {
    Reflects(s, t) || exists i :: StaleAt(s, t, acc, i)
  }

  /** The cell speaks about the committed input. */
  predicate CellInput(s: Shared) {
    s.slot.cell.Some? ==> s.slot.cell.value.input == s.life.input
  }

  ghost predicate CellCovered(s: Shared) {
    s.slot.cell.Some? && CellInput(s) && (s.life.alive ==> ProbeOk(s, s.slot.cell.value, []))
  }

  ghost predicate ReadKnown(s: Shared, acc: seq<Option<Occurrence>>) {
    && |acc| <= |s.store.live|
    && forall i :: 0 <= i < |acc| && acc[i].Some? ==> acc[i].value in s.past.used
  }

  /** Wherever the read differs from an occurrence in the cell, that occurrence is gone for good. */
  ghost predicate Supersedes(s: Shared, edges: seq<Option<Occurrence>>) {
    s.slot.cell.Some? && |s.slot.cell.value.edges| == |s.store.live| && |edges| <= |s.store.live| ==>
      forall i :: 0 <= i < |edges| && s.slot.cell.value.edges[i].Some? && edges[i] != s.slot.cell.value.edges[i] ==>
        Gone(s, i, s.slot.cell.value.edges[i].value)
  }

  ghost predicate Fresh(s: Shared, rev: nat, acc: seq<Option<Occurrence>>) {
    && rev <= s.slot.committed
    && (acc != [] ==> rev <= s.past.seen)
    && |acc| <= |s.store.live|
    && (s.life.indexed && s.slot.committed == rev ==> acc == s.store.live[..|acc|])
  }

  /** The slot rests: nothing is in progress, and if no recheck is outstanding
      the state is the one for the live target. */
  ghost predicate Rest(s: Shared) {
    && CellInput(s) && (s.slot.cell.Some? ==> CellCovered(s))
    && (s.life.alive && s.past.released && s.slot.committed == s.slot.settled ==> Reflects(s, LiveTarget(s)))
  }

  ghost predicate AdmitOk(s: Shared, role: Role, t: Target) {
    && Known(s, t) && t.input == s.life.input
    && if role == Spawner then Supersedes(s, t.edges) else s.slot.cell == Some(t)
  }

  predicate Settler(role: Role) {
    role == Converger || role == Restarter || role == Updater || role == Spawner
  }

  ghost predicate OwnerOk(s: Shared, role: Role, pc: Pc) {
    match pc
    case Claimed => Rest(s) && role != Converger
    case LoadRevision => Settler(role) && (role == Converger ==> s.slot.cell.Some?)
    case LoadCell(rev) => rev <= s.slot.committed && (role == Converger || role == Kicker)
        && (role == Converger ==> s.slot.cell.Some?) && (role == Kicker ==> Rest(s))
    case Read(use, input, acc) => input == s.life.input && ReadKnown(s, acc) &&
        (match use
         case First => role == Kicker
         case Compare(t, rev) => role == Converger && AdmitOk(s, role, t) && rev <= s.slot.committed && (s.life.alive ==> Reflects(s, t))
         case Admit(rev) => (role == Restarter || role == Updater || role == Spawner) && rev <= s.slot.committed
           && Supersedes(s, acc)
         case Probe(t, rev) =>
           && (role == Kicker || Settler(role)) && Known(s, t) && CellCovered(s) && Fresh(s, rev, acc)
           && (s.life.alive ==> ProbeOk(s, t, acc)))
    case RecordFirst(t) => role == Kicker && Known(s, t) && t.input == s.life.input
    case RecordDrift(t) => role == Converger && Known(s, t) && t.input == s.life.input
    case RecordAdmitted(t, rev) => (role == Restarter || role == Updater) && Known(s, t) && t.input == s.life.input && rev <= s.slot.committed
    case Settle(t, rev, phase) => Settler(role) && AdmitOk(s, role, t) && rev <= s.slot.committed
    case MarkPending(t, rev) => role == Spawner && s.life.alive && HasMissing(t) && AdmitOk(s, role, t) && rev <= s.slot.committed && Reflects(s, t)
    case RecordApplied(t, rev) => role == Spawner && s.life.alive && Known(s, t) && rev <= s.slot.committed && Reflects(s, t)
        && t.input == s.life.input
    case CheckFailed(t, rev) => role == Spawner && s.life.alive && Known(s, t) && rev <= s.slot.committed && Reflects(s, t) && s.slot.cell == Some(t)
    case StoreReleasing(t, rev) => (role == Kicker || Settler(role)) && Known(s, t) && CellCovered(s) && rev <= s.slot.committed
        && (s.life.alive ==> ProbeOk(s, t, []))
    case LoadObserved(t, rev, live) => (role == Kicker || Settler(role)) && Known(s, t) && CellCovered(s)
        && |live.edges| == |s.store.live| && ReadKnown(s, live.edges) && live.input == s.life.input
        && Fresh(s, rev, live.edges) && (s.life.alive ==> ProbeOk(s, t, live.edges))
    case RecordLive(live) => (role == Kicker || Settler(role)) && Known(s, live) && live.input == s.life.input
    case StoreActive => (role == Kicker || Settler(role)) && s.slot.cell.Some?
    case StoreSettled(t, rev) => (role == Kicker || Settler(role)) && Known(s, t) && CellCovered(s)
        && Fresh(s, rev, t.edges) && t.input == s.life.input && (s.life.alive ==> Reflects(s, t))
    case CasIdle(t, rev) => (role == Kicker || Settler(role)) && Known(s, t) && CellCovered(s)
        && Fresh(s, rev, t.edges) && t.input == s.life.input && (s.life.alive ==> Reflects(s, t)) && s.slot.settled == rev
    case ReloadRevision(t) => (role == Kicker || Settler(role)) && Known(s, t) && CellCovered(s)
        && (s.life.alive ==> ProbeOk(s, t, []))
    case SwapTerminal => (role == Disposer || role == Era) && Rest(s)
    case MarkTerminal => role == Guard
    case Teardown(_) => role == Disposer || role == Era || role == Guard || role == Spawner
    case Release(next) =>
        && Rest(s)
        && (next == HandoffStore || next == ForceUnlink || next == Finished || next == Returned || next == Unlinking || next == AwaitComplete)
        && (next == HandoffStore ==> role == Handoff) && (next == Returned ==> s.life.complete)
  }


  // ----- the invariant -----

  /** The spawn transaction after its initial pass ended live. */
  predicate HandingOff(th: Thread) {
    match th
    case Waiting(role) => role == Handoff
    case Driving(role, _) => role == Handoff
    case TailLoad => true
    case TailStore => true
    case HandoffStore => true
    case _ => false
  }

  /** Exactly the holder owns the slot, and exactly the lock owner writes. */
  predicate ClaimLocal(s: Shared, t: Tid, th: Thread) {
    && (th.Driving? <==> s.past.holder == Some(t))
    && (th.Writing? <==> s.store.lock == Some(t))
    && (th.Writing? ==>
          if th.rev == 0 then !s.life.indexed && s.past.written == s.slot.committed else s.slot.committed == th.rev == s.past.written + 1)
    && (InKick(th) ==> th.rev <= s.slot.committed)
    && (SpawnSide(th) ==> t == SPAWN)
    && (th.Waiting? ==> th.role != Kicker && th.role != Converger)
    && (HandingOff(th) ==> s.past.released)
  }

  predicate TerminalLocal(s: Shared, t: Tid, th: Thread) {
    && (Closing(th) ==> s.past.closer == Some(t))
    && (Inheriting(th) ==> (s.past.closer == None || s.past.closer == Some(t)) && s.life.state != Disposed && !s.life.complete)
    && (PastPublish(th) ==> s.life.state == Disposed && !s.life.alive && !s.life.indexed)
    && (th.Completing? || (th.Driving? && th.pc == Teardown(Complete)) ==> !s.life.resident)
    && (th.Driving? && th.pc.Teardown? ==>
          var step := th.pc.step;
          && (step.Unregister? || step.Drain? || step.PublishDisposed? ==> !s.life.alive)
          && (step.Drain? || step.PublishDisposed? ==> !s.life.indexed)
          && (!step.Unlink? && !step.Complete? ==> s.life.state != Disposed && !s.life.complete))
    && (th == Returned ==> s.life.complete)
    && (th == Waiting(Guard) || th == Driving(Guard, Claimed) ==> s.life.alive)
  }

  /** Roles that go on past Claimed only for a live Fiber. */
  predicate CheckedAlive(role: Role) {
    role == Restarter || role == Updater || role == Spawner
  }

  predicate LifeLocal(s: Shared, th: Thread) {
    th.Driving? ==>
      && (if th.pc.Settle? then PhaseOk(s, th.pc.t, th.pc.phase) else Ending(th.pc) || Quiet(s))
      && (IsApplying(th.pc) <==> !s.life.lease)
      && (s.life.alive && !s.life.applied && !Ending(th.pc) && !IsApplying(th.pc) ==> s.life.state == Pending)
      && (CheckedAlive(th.role) && !th.pc.Claimed? && !th.pc.Release? && !Ending(th.pc) ==> s.life.alive)
  }

  ghost predicate Local(s: Shared, t: Tid, th: Thread) {
    && ClaimLocal(s, t, th) && TerminalLocal(s, t, th) && LifeLocal(s, th)
    && (th.Driving? ==> OwnerOk(s, th.role, th.pc) && (th.role != Updater ==> CellInput(s)))
  }

  ghost predicate Global(s: Shared) {
    && (s.slot.inertia == IDLE <==> s.past.holder.None?)
    && s.slot.settled <= s.past.written <= s.slot.committed
    && s.past.seen <= s.past.written
    && (s.store.lock.None? ==> s.past.written == s.slot.committed)
    && (|s.store.live| == 0 ==> s.slot.committed == 0)
    && (forall i :: 0 <= i < |s.store.live| && s.store.live[i].Some? ==> s.store.live[i].value in s.past.used)
    && (s.life.terminal <==> s.past.closer.Some?)
    && (s.life.complete ==> s.life.state == Disposed && !s.life.alive && !s.life.indexed && !s.life.resident)
    && (s.life.state == Disposed ==> !s.life.alive)
    && (!s.life.indexed ==> !s.life.alive)
    && (!s.life.alive ==> s.life.terminal)
    && (!s.life.creationPending ==> s.past.released || s.life.terminal)
    && (s.past.holder.None? ==> Quiet(s) && s.life.lease && Rest(s) && (s.life.alive && !s.life.applied ==> s.life.state == Pending))
    && (s.past.lastApply.Some? ==> !HasMissing(s.past.lastApply.value))
    && (s.slot.cell.Some? ==> Known(s, s.slot.cell.value))
    && (s.past.skipped ==> !s.life.applied)
  }

  /** Whoever the shared state names exists and is at the right place. */
  predicate Witnessed(w: World) {
    && (w.s.past.holder.Some? ==> w.s.past.holder.value in w.threads)
    && (w.s.store.lock.Some? ==> w.s.store.lock.value in w.threads)
    && (w.s.past.closer.Some? && !w.s.life.complete ==>
          && w.s.past.closer.value in w.threads
          && var th := w.threads[w.s.past.closer.value];
             (Closing(th) || Inheriting(th)) && (!w.s.life.alive ==> DeathMarked(th)))
  }

  ghost predicate Inv(w: World) {
    && Global(w.s) && Witnessed(w)
    && forall t :: t in w.threads ==> Local(w.s, t, w.threads[t])
  }
}
