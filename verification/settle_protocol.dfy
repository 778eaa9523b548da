/** The settle protocol of one Fiber as a transition system.

    One step is one atomic load, store or compare-exchange, one read of one
    dependency edge, one state publication, or one Service-store section. Any
    number of threads run: mutators that publish and remove Services, the kicks
    they owe, restart, update, era and dispose callers, and the spawn
    transaction (thread SPAWN). */
module SettleProtocol {
  import opened Fibers

  const SPAWN: Tid := 0

  /** SemanticTarget: the committed input and one assignment for each edge. */
  datatype Target = Target(input: nat, edges: seq<Option<Occurrence>>)

  predicate HasMissing(t: Target) {
    exists i :: 0 <= i < |t.edges| && t.edges[i].None?
  }

  datatype Inertia = IDLE | ACTIVE | RELEASING

  datatype Role = Kicker | Converger | Restarter | Updater | Spawner | Handoff | Disposer | Era | Guard

  /** Where a settle pass (settle_once_inner) stands. */
  datatype Phase = CheckAlive | CloseOld | DrainOld | CheckMissing | CheckFirstApply | Open
                 | Applying | Applied(ok: bool) | DrainFailed

  datatype Step = ClosePending | Unload | Pin | Kill | Unregister | Drain | PublishDisposed | Unlink | Complete

  /** What a holder does with the target it is reading. */
  datatype Use = First | Compare(t: Target, rev: nat) | Admit(rev: nat) | Probe(t: Target, rev: nat)

  /** Program points of a thread that owns the slot. */
  datatype Pc =
    | Claimed
    | LoadRevision
    | LoadCell(rev: nat)
    | Read(use: Use, input: nat, acc: seq<Option<Occurrence>>)
    | RecordFirst(t: Target)
    | RecordDrift(t: Target)
    | RecordAdmitted(t: Target, rev: nat)
    | Settle(t: Target, rev: nat, phase: Phase)
    | MarkPending(t: Target, rev: nat)
    | RecordApplied(t: Target, rev: nat)
    | CheckFailed(t: Target, rev: nat)
    | StoreReleasing(t: Target, rev: nat)
    | LoadObserved(t: Target, rev: nat, live: Target)
    | RecordLive(live: Target)
    | StoreActive
    | StoreSettled(t: Target, rev: nat)
    | CasIdle(t: Target, rev: nat)
    | ReloadRevision(t: Target)
    | SwapTerminal
    | MarkTerminal
    | Teardown(step: Step)
    | Release(next: Thread)

  datatype Thread =
    | Finished
    | Writing(rev: nat)          // holds the Service-store lock; rev is the revision it committed, 0 for none
    | KickAlive(rev: nat)        // kick: the liveness gate
    | KickCommitted(rev: nat)    // kick: load recheck_committed
    | KickSettled(rev: nat, committed: nat)
    | KickLoad(rev: nat)
    | KickCasReleasing(rev: nat)
    | KickCasIdle(rev: nat)
    | DisposeEntry               // dispose: the fast dispose_complete test
    | Waiting(role: Role)        // in claim()
    | Driving(role: Role, pc: Pc)
    | TailLoad                   // initial pass after its loop: is_idle
    | TailStore                  // initial pass after its loop: abandon
    | HandoffStore               // spawn: creation_pending := false
    | ForceUnlink                // interrupted spawn: force_unlink
    | GuardSwap                  // cancelled creation that owned no slot
    | Unlinking                  // release_residency after the slot was given back
    | Completing                 // publish_dispose_complete
    | AwaitComplete              // wait_dispose_complete
    | Returned                   // a dispose call that has returned

  datatype Slot = Slot(
    inertia: Inertia,
    committed: nat,              // recheck_committed
    settled: nat,                // recheck_settled
    cell: Option<Target>)        // the target cell

  datatype Store = Store(
    live: seq<Option<Occurrence>>, // the visible occurrence of each dependency edge
    lock: Option<Tid>)             // Service-store lock between revision and write

  datatype Life = Life(
    input: nat,                  // effective_input
    state: FiberState,
    sequence: nat,               // StatePublication.sequence
    alive: bool,
    terminal: bool,              // disposing
    complete: bool,              // dispose_complete
    creationPending: bool,
    applied: bool,
    indexed: bool,               // rows in the dependency index
    resident: bool,              // residency claim
    lease: bool)                 // the Plugin state is home

  /** History: read by no step, kept so that properties can speak about it. */
  datatype Past = Past(
    holder: Option<Tid>,         // who claimed the slot last and has not released it
    closer: Option<Tid>,         // who won the terminal claim
    used: set<Occurrence>,       // every occurrence that was ever visible on an edge
    written: nat,                // committed revisions whose write has happened
    seen: nat,                   // writes done when the current target read took its first edge
    lastApply: Option<Target>,   // what the last apply ran against
    applies: nat,                // applies started
    skipped: bool,               // the last settle pass returned at the first-apply guard
    released: bool)              // some exit recheck has released the slot

  datatype Shared = Shared(slot: Slot, store: Store, life: Life, past: Past)

  datatype World = World(s: Shared, threads: map<Tid, Thread>)

  /** The outcome of one step of one thread. */
  datatype Move = Move(s: Shared, th: Thread)

  function LiveTarget(s: Shared): Target {
    Target(s.life.input, s.store.live)
  }

  function At(s: Shared, role: Role, pc: Pc): Move {
    Move(s, Driving(role, pc))
  }

  /** StatePublication.publish: publishing the current state again changes nothing. */
  function Publish(s: Shared, next: FiberState): Shared {
    if s.life.state == next then s else s.(life := s.life.(state := next, sequence := s.life.sequence + 1))
  }

  function Claim(s: Shared, t: Tid, role: Role): Move {
    At(s.(slot := s.slot.(inertia := ACTIVE), past := s.past.(holder := Some(t))), role, Claimed)
  }

  // ----- the Service store -----

  /** First half of a store section that touches an edge of this Fiber: take the
      lock and, while the Fiber is in the dependency index, commit a revision. */
  function LockStore(s: Shared, t: Tid): Move {
    var rev := if s.life.indexed then s.slot.committed + 1 else 0;
    Move(s.(store := s.store.(lock := Some(t)),
            slot := s.slot.(committed := if s.life.indexed then s.slot.committed + 1 else s.slot.committed)),
         Writing(rev))
  }

  /** An occurrence that appears on an edge was never visible before. */
  predicate FreshWrite(s: Shared, next: seq<Option<Occurrence>>) {
    && |next| == |s.store.live|
    && forall i :: 0 <= i < |next| ==> next[i] == s.store.live[i] || next[i].None? || next[i].value !in s.past.used
  }

  function Visible(edges: seq<Option<Occurrence>>): set<Occurrence> {
    set i | 0 <= i < |edges| && edges[i].Some? :: edges[i].value
  }

  /** Second half: change visibility, release the lock, and owe a kick. */
  function WriteStore(s: Shared, rev: nat, next: seq<Option<Occurrence>>): Move {
    Move(s.(store := s.store.(lock := None, live := next),
            past := s.past.(used := s.past.used + Visible(next), written := if rev > 0 then s.past.written + 1 else s.past.written)),
         if rev > 0 then KickAlive(rev) else Finished)
  }

  // ----- kicks -----

  predicate InKick(th: Thread) {
    th.KickAlive? || th.KickCommitted? || th.KickSettled? || th.KickLoad? || th.KickCasReleasing? || th.KickCasIdle?
  }

  /** One step of InertiaSlot::kick. `flag` answers Handle::try_current. */
  function KickStep(s: Shared, t: Tid, th: Thread, flag: bool): Move
    requires InKick(th)
  {
    match th
    case KickAlive(r) => Move(s, if s.life.alive then KickCommitted(r) else Finished)
    case KickCommitted(r) => Move(s, KickSettled(r, s.slot.committed))
    case KickSettled(r, c) => Move(s, if c != s.slot.settled then KickLoad(r) else Finished)
    case KickLoad(r) =>
      (match s.slot.inertia
       case ACTIVE => Move(s, Finished)
       case RELEASING => Move(s, KickCasReleasing(r))
       case IDLE => Move(s, if flag then KickCasIdle(r) else Finished))
    case KickCasReleasing(r) =>
      if s.slot.inertia == RELEASING
      then Move(s.(slot := s.slot.(inertia := ACTIVE)), Finished) else Move(s, KickLoad(r))
    case KickCasIdle(r) =>
      if s.slot.inertia == IDLE then Claim(s, t, Kicker) else Move(s, KickLoad(r))
  }

  // ----- compute_target -----

  function StartRead(s: Shared, role: Role, use: Use): Move {
    At(s, role, Read(use, s.life.input, []))
  }

  /** Read one edge under the store lock, or finish when all are read. */
  function ReadStep(s: Shared, role: Role, use: Use, input: nat, acc: seq<Option<Occurrence>>): Move {
    if |acc| < |s.store.live| then
      if s.store.lock.Some? then At(s, role, Read(use, input, acc))
      else At(if acc == [] then s.(past := s.past.(seen := s.past.written)) else s, role, Read(use, input, acc + [s.store.live[|acc|]]))
    else
      var live := Target(input, acc);
      match use
      case First => At(s, role, RecordFirst(live))
      case Compare(target, rev) =>
        At(s, role, if live != target then RecordDrift(live) else StoreReleasing(target, rev))
      case Admit(rev) =>
        At(s, role, if role == Spawner then Settle(live, rev, CheckAlive) else RecordAdmitted(live, rev))
      case Probe(target, rev) => At(s, role, LoadObserved(target, rev, live))
  }

  // ----- settle_once -----

  /** What follows a settle pass. */
  function AfterSettle(s: Shared, role: Role, target: Target, rev: nat): Move {
    match role
    case Converger => StartRead(s, role, Compare(target, rev))
    case Spawner => At(s, role, if HasMissing(target) then MarkPending(target, rev) else RecordApplied(target, rev))
    case _ => At(s, role, StoreReleasing(target, rev))
  }

  /** One step of settle_once_inner. `flag` is the outcome of the Plugin's apply. */
  function SettleStep(s: Shared, role: Role, target: Target, rev: nat, phase: Phase, flag: bool): Move {
    match phase
    case CheckAlive =>
      if s.life.alive then At(s, role, Settle(target, rev, CloseOld)) else AfterSettle(s, role, target, rev)
    case CloseOld =>
      if s.life.state == Active || s.life.state == Failed || s.life.state == Loading
      then At(Publish(s, Unloading), role, Settle(target, rev, DrainOld))
      else At(s, role, Settle(target, rev, CheckMissing))
    case DrainOld => At(s, role, Settle(target, rev, CheckMissing))
    case CheckMissing =>
      if HasMissing(target)
      then AfterSettle(Publish(s, Pending).(past := s.past.(skipped := false)), role, target, rev)
      else At(s, role, Settle(target, rev, CheckFirstApply))
    case CheckFirstApply =>
      if role != Spawner && s.life.creationPending && !s.life.applied
      then AfterSettle(s.(past := s.past.(skipped := true)), role, target, rev)
      else At(s, role, Settle(target, rev, Open))
    case Open =>
      At(Publish(s, Loading).(
           life := Publish(s, Loading).life.(lease := false),
           past := s.past.(applies := s.past.applies + 1, lastApply := Some(Target(s.life.input, target.edges)), skipped := false)),
         role, Settle(target, rev, Applying))
    case Applying =>
      At(s.(life := s.life.(lease := true, applied := true)), role, Settle(target, rev, Applied(flag)))
    case Applied(true) =>
      AfterSettle(Publish(s, Active), role, target, rev)
    case Applied(false) =>
      At(Publish(s, Unloading), role, Settle(target, rev, DrainFailed))
    case DrainFailed =>
      AfterSettle(Publish(s, Failed), role, target, rev)
  }

  // ----- exit_recheck -----

  /** Where a pass goes on when its exit recheck found drift. */
  function AfterDrift(s: Shared, role: Role): Move {
    At(s, if role == Kicker then Converger else role, LoadRevision)
  }

  function ExitStep(s: Shared, role: Role, pc: Pc): Move
    requires pc.StoreReleasing? || pc.LoadObserved? || pc.RecordLive? || pc.StoreActive? || pc.StoreSettled?
          || pc.CasIdle? || pc.ReloadRevision?
  {
    match pc
    case StoreReleasing(target, rev) =>
      StartRead(s.(slot := s.slot.(inertia := RELEASING)), role, Probe(target, rev))
    case LoadObserved(target, rev, live) =>
      At(s, role,
         if live != target then RecordLive(live)
         else if s.slot.committed != rev then StoreReleasing(target, s.slot.committed)
         else StoreSettled(target, rev))
    case RecordLive(live) => At(s.(slot := s.slot.(cell := Some(live))), role, StoreActive)
    case StoreActive => AfterDrift(s.(slot := s.slot.(inertia := ACTIVE)), role)
    case StoreSettled(target, rev) => At(s.(slot := s.slot.(settled := rev)), role, CasIdle(target, rev))
    case CasIdle(target, rev) =>
      if s.slot.inertia == RELEASING
      then Move(s.(slot := s.slot.(inertia := IDLE), past := s.past.(holder := None, released := true)),
                if role == Spawner then TailLoad else Finished)
      else At(s, role, ReloadRevision(target))
    case ReloadRevision(target) => At(s, role, StoreReleasing(target, s.slot.committed))
  }

  // ----- terminal paths -----

  function TeardownStep(s: Shared, role: Role, step: Step): Move {
    match step
    case ClosePending =>
      At(s.(life := s.life.(creationPending := false)), role, Teardown(if s.life.state == Disposed then Unlink else Unload))
    case Unload => At(Publish(s, Unloading), role, Teardown(Pin))
    case Pin => At(s.(slot := s.slot.(cell := None)), role, Teardown(Kill))
    case Kill => At(s.(life := s.life.(alive := false)), role, Teardown(Unregister))
    case Unregister => At(s.(life := s.life.(indexed := false)), role, Teardown(Drain))
    case Drain => At(s, role, Teardown(PublishDisposed))
    case PublishDisposed =>
      At(Publish(s, Disposed), role, if role == Spawner then Teardown(Unlink) else Release(Unlinking))
    case Unlink =>
      if role == Spawner then At(s.(life := s.life.(resident := false)), role, Teardown(Complete))
      else At(s, role, Release(Unlinking))
    case Complete => At(s.(life := s.life.(complete := true)), role, Release(Finished))
  }

  /** The first thing a holder does after winning the slot. `flag` is the
      recursion refusal of an era swap. */
  function ClaimedStep(s: Shared, role: Role, flag: bool): Move {
    match role
    case Kicker => At(s, role, LoadCell(s.slot.committed))
    case Converger => At(s, role, LoadRevision)
    case Restarter => At(s, role, if s.life.alive then LoadRevision else Release(Finished))
    case Updater =>
      if s.life.alive then At(s.(life := s.life.(input := s.life.input + 1)), role, LoadRevision) else At(s, role, Release(Finished))
    case Spawner =>
      if s.life.alive then At(s, role, LoadRevision)
      else At(s.(life := s.life.(resident := false)), role, Release(Finished))
    case Handoff => At(s, role, Release(if s.life.alive then HandoffStore else ForceUnlink))
    case Disposer => At(s, role, if s.life.complete then Release(Returned) else SwapTerminal)
    case Era => At(s, role, if !s.life.alive || flag then Release(Finished) else SwapTerminal)
    case Guard => At(s, role, if s.life.alive then Teardown(ClosePending) else Release(Finished))
  }

  function Close(s: Shared, t: Tid): Shared {
    s.(life := s.life.(terminal := true), past := s.past.(closer := if s.life.terminal then s.past.closer else Some(t)))
  }

  /** One step of the slot owner. */
  function DriveStep(s: Shared, t: Tid, role: Role, pc: Pc, flag: bool): Move {
    match pc
    case Claimed => ClaimedStep(s, role, flag)
    case LoadRevision =>
      if role == Kicker || role == Converger then At(s, role, LoadCell(s.slot.committed))
      else StartRead(s, role, Admit(s.slot.committed))
    case LoadCell(rev) =>
      if s.slot.cell.None? then StartRead(s, role, First)
      else At(s, role, if role == Kicker then StoreReleasing(s.slot.cell.value, rev) else Settle(s.slot.cell.value, rev, CheckAlive))
    case Read(use, input, acc) => ReadStep(s, role, use, input, acc)
    case RecordFirst(live) => At(s.(slot := s.slot.(cell := Some(live))), Converger, LoadRevision)
    case RecordDrift(live) => At(s.(slot := s.slot.(cell := Some(live))), role, LoadRevision)
    case RecordAdmitted(target, rev) => At(s.(slot := s.slot.(cell := Some(target))), role, Settle(target, rev, CheckAlive))
    case Settle(target, rev, phase) => SettleStep(s, role, target, rev, phase, flag)
    case MarkPending(target, rev) =>
      At(if s.slot.cell.None? then s.(slot := s.slot.(cell := Some(target))) else s, role, StoreReleasing(target, rev))
    case RecordApplied(target, rev) => At(s.(slot := s.slot.(cell := Some(target))), role, CheckFailed(target, rev))
    case CheckFailed(target, rev) =>
      if s.life.state == Failed then At(Close(s, t), role, Teardown(ClosePending))
      else At(s, role, StoreReleasing(target, rev))
    case SwapTerminal =>
      if s.life.terminal then At(s, role, Release(if role == Disposer then AwaitComplete else Finished))
      else At(Close(s, t), role, Teardown(ClosePending))
    case MarkTerminal => At(Close(s, t), role, Teardown(ClosePending))
    case Teardown(step) => TeardownStep(s, role, step)
    case Release(next) => Move(s.(slot := s.slot.(inertia := IDLE), past := s.past.(holder := None)), next)
    case _ => ExitStep(s, role, pc)
  }

  /** One step of a thread that owns nothing and is not inside a kick. */
  function OtherStep(s: Shared, t: Tid, th: Thread): Move {
    match th
    case DisposeEntry => Move(s, if s.life.complete then Returned else Waiting(Disposer))
    case Waiting(role) => if s.slot.inertia == IDLE then Claim(s, t, role) else Move(s, th)
    case TailLoad => Move(s, if s.slot.inertia == IDLE then Waiting(Handoff) else TailStore)
    case TailStore => Move(s.(slot := s.slot.(inertia := IDLE)), Waiting(Handoff))
    case HandoffStore => Move(s.(life := s.life.(creationPending := false)), Finished)
    case ForceUnlink => Move(s.(life := s.life.(resident := false)), Finished)
    case GuardSwap => Move(Close(s, t), if s.life.terminal then AwaitComplete else Waiting(Guard))
    case Unlinking => Move(s.(life := s.life.(resident := false)), Completing)
    case Completing => Move(s.(life := s.life.(complete := true)), Returned)
    case AwaitComplete => if s.life.complete then Move(s, Returned) else Move(s, th)
    case _ => Move(s, th)
  }

  function ThreadStep(s: Shared, t: Tid, th: Thread, flag: bool): Move {
    if th.Driving? then DriveStep(s, t, th.role, th.pc, flag)
    else if InKick(th) then KickStep(s, t, th, flag)
    else OtherStep(s, t, th)
  }

  // ----- cancellation -----

  /** The await points at which the spawn future, polled by its caller, can be dropped. */
  predicate SpawnAwait(pc: Pc) {
    || (pc.Settle? && (pc.phase.DrainOld? || pc.phase.Applying? || pc.phase.DrainFailed?))
    || pc == Teardown(Drain)
  }

  predicate CanCancel(th: Thread) {
    match th
    case Waiting(role) => role == Restarter || role == Updater || role == Disposer || role == Era || role == Spawner || role == Handoff
    case AwaitComplete => true
    case Driving(role, pc) => role == Spawner && SpawnAwait(pc)
    case _ => false
  }

  /** Dropping a caller's future. Dropping the spawn future fires the creation
      guard, which inherits the slot when the dead pass owned it. */
  function CancelStep(s: Shared, th: Thread): Move
    requires CanCancel(th)
  {
    match th
    case Driving(role, pc) => At(s.(life := s.life.(lease := true)), Guard, MarkTerminal)
    case Waiting(role) => Move(s, if role == Spawner || role == Handoff then GuardSwap else Finished)
    case _ => Move(s, Finished)
  }

  // ----- runs -----

  datatype Action =
    | Arrive(t: Tid, th: Thread)
    | Lock(t: Tid)
    | Write(t: Tid, next: seq<Option<Occurrence>>)
    | Run(t: Tid, flag: bool)
    | Cancel(t: Tid)

  /** What may arrive from outside: a kick for a committed revision, a dispose
      call, and restart, update or era swap once a FiberHandle exists. */
  predicate CanArrive(s: Shared, th: Thread) {
    || (th.KickAlive? && th.rev <= s.slot.committed)
    || th == DisposeEntry
    || (!s.life.creationPending && (th == Waiting(Restarter) || th == Waiting(Updater) || th == Waiting(Era)))
  }

  predicate Enabled(w: World, a: Action) {
    match a
    case Arrive(t, th) => t != SPAWN && t !in w.threads && CanArrive(w.s, th)
    case Lock(t) => t != SPAWN && t !in w.threads && w.s.store.lock.None? && |w.s.store.live| > 0
    case Write(t, next) => t in w.threads && w.threads[t].Writing? && FreshWrite(w.s, next)
    case Run(t, flag) => t in w.threads && !w.threads[t].Writing?
    case Cancel(t) => t in w.threads && CanCancel(w.threads[t])
  }

  function MoveOf(w: World, a: Action): Move
    requires Enabled(w, a)
  {
    match a
    case Arrive(t, th) => Move(w.s, th)
    case Lock(t) => LockStore(w.s, t)
    case Write(t, next) => WriteStore(w.s, w.threads[t].rev, next)
    case Run(t, flag) => ThreadStep(w.s, t, w.threads[t], flag)
    case Cancel(t) => CancelStep(w.s, w.threads[t])
  }

  function After(w: World, t: Tid, m: Move): World {
    World(m.s, w.threads[t := m.th])
  }

  function Do(w: World, a: Action): World
    requires Enabled(w, a)
  {
    After(w, a.t, MoveOf(w, a))
  }

  /** A Fiber that is resident and indexed, its initial pass about to claim.
      Every target read waits for the Service store, so a section that took the
      store before the Fiber was indexed is part of the initial assignment. */
  predicate Init(w: World) {
    var s := w.s;
    && w.threads == map[SPAWN := Waiting(Spawner)]
    && s.slot.inertia == IDLE && s.slot.committed == 0 && s.slot.settled == 0 && s.slot.cell == None
    && s.store.lock == None && s.life.state == Pending
    && s.life.alive && !s.life.terminal && !s.life.complete && s.life.creationPending && !s.life.applied
    && s.life.indexed && s.life.resident && s.life.lease
    && s.past.holder == None && s.past.closer == None && s.past.used == Visible(s.store.live)
    && s.past.written == 0 && s.past.seen == 0
    && s.past.lastApply == None && s.past.applies == 0 && !s.past.skipped && !s.past.released
  }

  ghost predicate IsRun(ws: seq<World>, acts: seq<Action>) {
    && |ws| == |acts| + 1
    && forall i :: 0 <= i < |acts| ==> Enabled(ws[i], acts[i]) && ws[i + 1] == Do(ws[i], acts[i])
  }
}
