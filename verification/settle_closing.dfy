/** How disposal and creation end: a dispose call goes on until the barrier is
    complete, whoever closes gets there, and a creation is handed off or closed. */
module SettleClosing {
  import opened Fibers
  import opened SettleProtocol
  import opened SettleInvariants
  import opened SettleSteps
  import opened SettleDriver
  import opened SettleTheorems
  import opened SettleReady

  /** A dispose call that has not been dropped, up to its return. */
  predicate DisposeSide(th: Thread) {
    match th
    case DisposeEntry => true
    case Waiting(role) => role == Disposer
    case Driving(role, _) => role == Disposer
    case Unlinking => true
    case Completing => true
    case AwaitComplete => true
    case Returned => true
    case _ => false
  }

  /** Where each way out of the slot leads. */
  predicate LeavesWell(s: Shared, th: Thread) {
    th.Driving? && th.pc.Release? ==>
      && !th.pc.next.Driving? && (th.pc.next.AwaitComplete? ==> s.life.terminal)
      && (th.role == Disposer ==> s.life.terminal && DisposeSide(th.pc.next))
      && (SpawnSide(th) && !SpawnSide(th.pc.next) ==> s.life.terminal)
      && (SpawnSide(th) && th.pc.next.Finished? ==> !s.life.alive && !s.life.resident)
      && (th.pc.next.ForceUnlink? ==> !s.life.alive)
  }

  /** How far the teardown has come with the creation window and the target cell. */
  predicate TornDown(s: Shared, th: Thread) {
    match th
    case Driving(role, pc) =>
      && (pc == Teardown(Complete) ==> role == Spawner)
      && (pc.Teardown? && !pc.step.ClosePending? ==> !s.life.creationPending)
      && (pc.Teardown? && (pc.step.Kill? || pc.step.Unregister? || pc.step.Drain? || pc.step.PublishDisposed?) ==> s.slot.cell.None?)
      && (pc == Release(Unlinking) ==> !s.life.creationPending)
    case Unlinking => !s.life.creationPending
    case Completing => !s.life.creationPending
    case _ => true
  }

  predicate ThreadEnds(s: Shared, th: Thread) {
    LeavesWell(s, th) && TornDown(s, th) && (th.AwaitComplete? ==> s.life.terminal) && (th.ForceUnlink? ==> !s.life.alive)
  }

  /** A pending creation is still the spawn transaction's, or somebody closes the Fiber. */
  predicate CreationOwned(w: World) {
    w.s.life.creationPending ==> w.s.life.terminal || (SPAWN in w.threads && SpawnSide(w.threads[SPAWN]))
  }

  predicate EndsWell(w: World) {
    && (forall t :: t in w.threads ==> ThreadEnds(w.s, w.threads[t]))
    && CreationOwned(w) && (w.s.life.complete ==> !w.s.life.creationPending)
  }

  // ----- every step keeps it -----

  /** What never comes back. */
  predicate Closes(s: Shared, s': Shared) {
    && (s.life.terminal ==> s'.life.terminal) && (s'.life.creationPending ==> s.life.creationPending)
    && (s'.life.alive ==> s.life.alive) && (s'.life.resident ==> s.life.resident)
  }

  /** What the owner's step makes of its own thread. */
  predicate OwnEnds(s: Shared, th: Thread, m: Move) {
    && Closes(s, m.s) && ThreadEnds(m.s, m.th)
    && (m.s.life.complete ==> s.life.complete || !m.s.life.creationPending)
    && (SpawnSide(th) && !SpawnSide(m.th) ==> m.s.life.terminal || !m.s.life.creationPending)
    && (SpawnSide(th) && m.th.Finished? ==> th.Driving? && th.pc.Release?)
  }

  lemma PassGoesOn(s: Shared, role: Role, target: Target, rev: nat)
    ensures var m := AfterSettle(s, role, target, rev);
      m.s == s && m.th.Driving? && m.th.role == role && !m.th.pc.Teardown? && !m.th.pc.Release?
  {}

  /** A settle pass has no hand in creation, death or disposal. */
  predicate PassLeaves(s: Shared, role: Role, m: Move) {
    && m.s.life.terminal == s.life.terminal && m.s.life.creationPending == s.life.creationPending && m.s.life.alive == s.life.alive
    && m.s.life.resident == s.life.resident && m.s.life.complete == s.life.complete
    && m.th.Driving? && m.th.role == role && !m.th.pc.Teardown? && !m.th.pc.Release?
  }

  lemma EarlyLeaves(s: Shared, role: Role, target: Target, rev: nat, phase: Phase, flag: bool)
    requires phase.CheckAlive? || phase.CloseOld? || phase.DrainOld? || phase.CheckMissing? || phase.CheckFirstApply?
    ensures PassLeaves(s, role, SettleStep(s, role, target, rev, phase, flag))
  {
    hide HasMissing;
    hide AfterSettle;
    PassGoesOn(s, role, target, rev);
    PassGoesOn(Publish(s, Pending).(past := s.past.(skipped := false)), role, target, rev);
    PassGoesOn(s.(past := s.past.(skipped := true)), role, target, rev);
  }

  lemma LateLeaves(s: Shared, role: Role, target: Target, rev: nat, phase: Phase, flag: bool)
    requires phase.Open? || phase.Applying? || phase.Applied? || phase.DrainFailed?
    ensures PassLeaves(s, role, SettleStep(s, role, target, rev, phase, flag))
  {
    hide AfterSettle;
    var m := SettleStep(s, role, target, rev, phase, flag);
    PassGoesOn(Publish(s, Active), role, target, rev);
    PassGoesOn(Publish(s, Failed), role, target, rev);
    match phase {
      case Open =>
        var p := Publish(s, Loading);
        assert m.s.life == p.life.(lease := false) && m.th == Driving(role, Settle(target, rev, Applying));
      case Applying =>
        assert m.s.life == s.life.(lease := true, applied := true) && m.th == Driving(role, Settle(target, rev, Applied(flag)));
      case Applied(ok) =>
        if ok {
          assert m == AfterSettle(Publish(s, Active), role, target, rev);
        } else {
          assert m == At(Publish(s, Unloading), role, Settle(target, rev, DrainFailed));
        }
      case DrainFailed => assert m == AfterSettle(Publish(s, Failed), role, target, rev);
      case _ =>
    }
    hide SettleStep;
  }

  lemma SettleEnds(s: Shared, role: Role, target: Target, rev: nat, phase: Phase, flag: bool)
    ensures OwnEnds(s, Driving(role, Settle(target, rev, phase)), SettleStep(s, role, target, rev, phase, flag))
  {
    if phase.Open? || phase.Applying? || phase.Applied? || phase.DrainFailed? {
      LateLeaves(s, role, target, rev, phase, flag);
    } else {
      EarlyLeaves(s, role, target, rev, phase, flag);
    }
    hide SettleStep;
  }

  lemma ExitEnds(s: Shared, role: Role, pc: Pc)
    requires Exiting(pc) && role != Handoff && role != Guard
    ensures OwnEnds(s, Driving(role, pc), ExitStep(s, role, pc))
  {}

  lemma ReadEnds(s: Shared, role: Role, use: Use, input: nat, acc: seq<Option<Occurrence>>)
    ensures OwnEnds(s, Driving(role, Read(use, input, acc)), ReadStep(s, role, use, input, acc))
  {}

  lemma TeardownEnds(s: Shared, role: Role, step: Step)
    requires TornDown(s, Driving(role, Teardown(step))) && s.life.terminal && (step.Complete? ==> !s.life.alive && !s.life.resident)
    ensures OwnEnds(s, Driving(role, Teardown(step)), TeardownStep(s, role, step))
  {}

  lemma ClaimedEnds(s: Shared, role: Role, flag: bool)
    requires (!s.life.alive ==> s.life.terminal) && (s.life.complete ==> s.life.terminal)
    requires role == Guard ==> s.life.terminal && s.life.alive
    ensures OwnEnds(s, Driving(role, Claimed), ClaimedStep(s, role, flag))
  {}

  lemma TerminalEnds(s: Shared, t: Tid, role: Role, pc: Pc, flag: bool)
    requires (pc.SwapTerminal? && !SpawnSide(Driving(role, pc))) || pc.MarkTerminal? || pc.CheckFailed?
    ensures OwnEnds(s, Driving(role, pc), DriveStep(s, t, role, pc, flag))
  {
    hide SettleStep;
    hide ExitStep;
    hide ReadStep;
    hide TeardownStep;
    hide ClaimedStep;
  }

  lemma RestEnds(s: Shared, t: Tid, role: Role, pc: Pc, flag: bool)
    requires pc.LoadRevision? || pc.LoadCell? || pc.RecordFirst? || pc.RecordDrift? || pc.RecordAdmitted? || pc.MarkPending? || pc.RecordApplied?
    requires pc.RecordFirst? ==> role == Kicker
    ensures OwnEnds(s, Driving(role, pc), DriveStep(s, t, role, pc, flag))
  {
    hide SettleStep;
    hide ExitStep;
    hide TeardownStep;
    hide ClaimedStep;
  }

  lemma DriveEnds(s: Shared, t: Tid, role: Role, pc: Pc, flag: bool)
    requires TornDown(s, Driving(role, pc)) && !pc.Release?
    requires (pc.RecordFirst? ==> role == Kicker) && (Exiting(pc) ==> role != Handoff && role != Guard)
    requires pc.SwapTerminal? ==> !SpawnSide(Driving(role, pc))
    requires (!s.life.alive ==> s.life.terminal) && (s.life.complete ==> s.life.terminal)
    requires pc.Teardown? || (role == Guard && pc.Claimed?) ==> s.life.terminal
    requires (role == Guard && pc.Claimed? ==> s.life.alive) && (pc == Teardown(Complete) ==> !s.life.alive && !s.life.resident)
    ensures OwnEnds(s, Driving(role, pc), DriveStep(s, t, role, pc, flag))
  {
    if pc.Settle? {
      SettleEnds(s, role, pc.t, pc.rev, pc.phase, flag);
    } else if Exiting(pc) {
      ExitEnds(s, role, pc);
    } else if pc.Read? {
      ReadEnds(s, role, pc.use, pc.input, pc.acc);
    } else if pc.Teardown? {
      TeardownEnds(s, role, pc.step);
    } else if pc.Claimed? {
      ClaimedEnds(s, role, flag);
    } else if pc.SwapTerminal? || pc.MarkTerminal? || pc.CheckFailed? {
      TerminalEnds(s, t, role, pc, flag);
    } else {
      RestEnds(s, t, role, pc, flag);
    }
    hide SettleStep;
    hide ExitStep;
    hide ReadStep;
    hide TeardownStep;
    hide ClaimedStep;
    hide OwnEnds;
  }

  lemma OwnFacts(w: World, t: Tid)
    requires Inv(w) && t in w.threads && w.threads[t].Driving?
    ensures var s, role, pc := w.s, w.threads[t].role, w.threads[t].pc;
      && (!s.life.alive ==> s.life.terminal) && (s.life.complete ==> s.life.terminal)
      && (pc.Teardown? || (role == Guard && pc.Claimed?) ==> s.life.terminal)
      && (role == Guard && pc.Claimed? ==> s.life.alive) && (pc == Teardown(Complete) ==> !s.life.alive && !s.life.resident)
      && (pc.SwapTerminal? ==> !SpawnSide(Driving(role, pc)))
      && (pc.RecordFirst? ==> role == Kicker) && (Exiting(pc) ==> role != Handoff && role != Guard)
      && (pc.Release? ==> !pc.next.GuardSwap? && !pc.next.Completing?)
  {
    hide Known;
    hide CellCovered;
    hide Rest;
    assert Local(w.s, t, w.threads[t]);
  }

  lemma ReleaseEnds(s: Shared, t: Tid, role: Role, next: Thread, flag: bool, m: Move)
    requires ThreadEnds(s, Driving(role, Release(next))) && m == DriveStep(s, t, role, Release(next), flag) && !next.Completing?
    ensures OwnEnds(s, Driving(role, Release(next)), m)
  {}

  lemma OwnStepEnds(w: World, t: Tid, flag: bool, m: Move)
    requires Inv(w) && EndsWell(w) && t in w.threads && w.threads[t].Driving? && m == DriveStep(w.s, t, w.threads[t].role, w.threads[t].pc, flag)
    ensures EndsWell(After(w, t, m))
  {
    hide DriveStep;
    var th := w.threads[t];
    OwnFacts(w, t);
    InvSingleDriver(w);
    assert ThreadEnds(w.s, th);
    hide Inv;
    if th.pc.Release? { ReleaseEnds(w.s, t, th.role, th.pc.next, flag, m); } else { DriveEnds(w.s, t, th.role, th.pc, flag); }
    OwnKeeps(w, t, m);
  }

  /** The whole world, given what the owner's step made of its own thread. */
  lemma OwnKeeps(w: World, t: Tid, m: Move)
    requires EndsWell(w) && SingleDriver(w) && t in w.threads && w.threads[t].Driving? && OwnEnds(w.s, w.threads[t], m)
    ensures EndsWell(After(w, t, m))
  {
    forall u | u in w.threads && u != t ensures ThreadEnds(m.s, w.threads[u]) {
      assert ThreadEnds(w.s, w.threads[u]) && !w.threads[u].Driving?;
    }
  }

  // ----- steps of anybody else -----

  /** What a step outside the slot makes of its own thread. */
  predicate OthersEnd(s: Shared, th: Thread, m: Move) {
    && Closes(s, m.s) && m.s.slot.cell == s.slot.cell && (m.th.Driving? ==> m.th.pc.Claimed?)
    && (m.th.AwaitComplete? ==> m.s.life.terminal) && (m.th.Unlinking? ==> th.Unlinking?) && !m.th.ForceUnlink?
    && (m.th.Completing? ==> th.Unlinking? || th.Completing?)
    && (m.s.life.complete ==> s.life.complete || th.Completing?)
    && (SpawnSide(th) && !SpawnSide(m.th) ==> m.s.life.terminal || !m.s.life.creationPending)
  }

  lemma KickEnds(s: Shared, t: Tid, th: Thread, flag: bool)
    requires InKick(th)
    ensures OthersEnd(s, th, KickStep(s, t, th, flag))
  {}

  lemma OtherEnds(s: Shared, t: Tid, th: Thread)
    requires !th.Driving? && (th.AwaitComplete? ==> s.life.terminal)
    ensures OthersEnd(s, th, OtherStep(s, t, th))
  {}

  lemma CancelEnds(s: Shared, th: Thread)
    requires CanCancel(th) && !th.Driving?
    ensures OthersEnd(s, th, CancelStep(s, th))
  {}

  lemma OutsideEnds(w: World, a: Action, m: Move)
    requires Enabled(w, a) && m == MoveOf(w, a) && ((a.Run? || a.Cancel?) ==> !w.threads[a.t].Driving?)
    requires a.t in w.threads && w.threads[a.t].AwaitComplete? ==> w.s.life.terminal
    ensures OthersEnd(w.s, if a.t in w.threads then w.threads[a.t] else Finished, m)
  {
    hide KickStep;
    hide OtherStep;
    hide CancelStep;
    if a.Cancel? {
      CancelEnds(w.s, w.threads[a.t]);
    } else if a.Run? {
      if InKick(w.threads[a.t]) { KickEnds(w.s, a.t, w.threads[a.t], a.flag); } else { OtherEnds(w.s, a.t, w.threads[a.t]); }
    }
  }

  lemma OthersKeep(w: World, t: Tid, m: Move)
    requires EndsWell(w) && (t in w.threads ==> !w.threads[t].Driving?) && (t !in w.threads ==> t != SPAWN)
    requires OthersEnd(w.s, if t in w.threads then w.threads[t] else Finished, m)
    ensures EndsWell(After(w, t, m))
  {
    if t in w.threads { assert ThreadEnds(w.s, w.threads[t]); }
    forall u | u in w.threads && u != t ensures ThreadEnds(m.s, w.threads[u]) { assert ThreadEnds(w.s, w.threads[u]); }
  }

  lemma InheritEnds(w: World, t: Tid)
    requires EndsWell(w) && t in w.threads && w.threads[t].Driving? && CanCancel(w.threads[t])
    ensures EndsWell(After(w, t, CancelStep(w.s, w.threads[t])))
  {
    var m := CancelStep(w.s, w.threads[t]);
    assert m.th == Driving(Guard, MarkTerminal) && m.s == w.s.(life := w.s.life.(lease := true));
    forall u | u in w.threads && u != t ensures ThreadEnds(m.s, w.threads[u]) { assert ThreadEnds(w.s, w.threads[u]); }
  }

  lemma EndsStep(w: World, a: Action)
    requires Inv(w) && EndsWell(w) && Enabled(w, a)
    ensures EndsWell(Do(w, a))
  {
    hide DriveStep;
    hide Inv;
    if a.Run? && w.threads[a.t].Driving? {
      OwnStepEnds(w, a.t, a.flag, MoveOf(w, a));
    } else if a.Cancel? && w.threads[a.t].Driving? {
      InheritEnds(w, a.t);
    } else {
      if a.t in w.threads { assert ThreadEnds(w.s, w.threads[a.t]); NotDriving(w, a); }
      OutsideEnds(w, a, MoveOf(w, a));
      OthersKeep(w, a.t, MoveOf(w, a));
    }
  }

  lemma NotDriving(w: World, a: Action)
    requires Enabled(w, a) && a.t in w.threads && !(a.Run? && w.threads[a.t].Driving?) && !(a.Cancel? && w.threads[a.t].Driving?)
    ensures !w.threads[a.t].Driving?
  {}

  lemma {:induction false} RunEnds(ws: seq<World>, acts: seq<Action>, i: nat)
    requires Clean(ws, acts) && Init(ws[0]) && i < |ws|
    ensures Inv(ws[i]) && EndsWell(ws[i])
  {
    hide Do;
    hide Inv;
    InitInv(ws[0]);
    RunKeeps(ws, acts, i);
    if i > 0 {
      RunEnds(ws, acts, i - 1);
      EndsStep(ws[i - 1], acts[i - 1]);
    }
  }

  // ----- what it means -----

  /** A creation is handed off or closed: as long as its window is open the spawn
      transaction is at work, or somebody has won the terminal claim. */
  lemma CreationNeverOrphaned(ws: seq<World>, acts: seq<Action>, i: nat)
    requires Clean(ws, acts) && Init(ws[0]) && i < |ws| && ws[i].s.life.creationPending && !ws[i].s.life.terminal
    ensures SPAWN in ws[i].threads && SpawnSide(ws[i].threads[SPAWN])
  {
    RunEnds(ws, acts, i);
  }

  /** A creation that is not handed off ends with its Fiber dead and unlinked,
      whoever disposed of it and however far that unlink lagged. */
  lemma CreationEndsUnlinked(ws: seq<World>, acts: seq<Action>, i: nat)
    requires Clean(ws, acts) && Init(ws[0]) && i < |acts| && acts[i].Run? && acts[i].t == SPAWN
    requires SPAWN in ws[i].threads && (SpawnSide(ws[i].threads[SPAWN]) || ws[i].threads[SPAWN].ForceUnlink?)
    requires ws[i + 1].threads[SPAWN].Finished?
    ensures ws[i].threads[SPAWN].HandoffStore? || (!ws[i + 1].s.life.alive && !ws[i + 1].s.life.resident)
  {
    RunEnds(ws, acts, i);
    var w, th := ws[i], ws[i].threads[SPAWN];
    assert ThreadEnds(w.s, th);
    if th.Driving? {
      OwnFacts(w, SPAWN);
      if th.pc.Release? { ReleaseKeepsLife(w.s, SPAWN, th.role, th.pc, acts[i].flag); } else { DriveEnds(w.s, SPAWN, th.role, th.pc, acts[i].flag); }
    } else {
      SpawnLeaves(w.s, SPAWN, th);
    }
    hide Inv;
    hide DriveStep;
    hide OtherStep;
  }

  lemma ReleaseKeepsLife(s: Shared, t: Tid, role: Role, pc: Pc, flag: bool)
    requires pc.Release?
    ensures var m := DriveStep(s, t, role, pc, flag); m.s.life == s.life && m.th == pc.next
  {}

  /** Outside the slot a creation ends handed off or by force_unlink. */
  lemma SpawnLeaves(s: Shared, t: Tid, th: Thread)
    requires !th.Driving? && (SpawnSide(th) || (th.ForceUnlink? && !s.life.alive))
    ensures var m := OtherStep(s, t, th); m.th.Finished? ==> th.HandoffStore? || (!m.s.life.alive && !m.s.life.resident)
  {}

  /** When Disposed is about to be published the target cell is pinned and the
      creation window is closed. */
  lemma TeardownPins(ws: seq<World>, acts: seq<Action>, i: nat, t: Tid)
    requires Clean(ws, acts) && Init(ws[0]) && i < |ws| && t in ws[i].threads
    requires ws[i].threads[t].Driving? && ws[i].threads[t].pc == Teardown(PublishDisposed)
    ensures ws[i].s.slot.cell == None && !ws[i].s.life.creationPending && !ws[i].s.life.alive && !ws[i].s.life.indexed
  {
    RunEnds(ws, acts, i);
    assert ThreadEnds(ws[i].s, ws[i].threads[t]) && Local(ws[i].s, t, ws[i].threads[t]);
  }

  lemma OwnDispose(s: Shared, t: Tid, pc: Pc, flag: bool)
    requires OwnerOk(s, Disposer, pc) && LeavesWell(s, Driving(Disposer, pc))
    ensures DisposeSide(DriveStep(s, t, Disposer, pc, flag).th)
  {
    hide SettleStep;
    hide ExitStep;
    hide ReadStep;
  }

  lemma OtherDispose(s: Shared, t: Tid, th: Thread)
    requires DisposeSide(th) && !th.Driving?
    ensures DisposeSide(OtherStep(s, t, th).th)
  {}

  /** A dispose call goes on: until it has returned, or its caller dropped it, it
      never stops short of the barrier. */
  lemma DisposeGoesOn(ws: seq<World>, acts: seq<Action>, i: nat)
    requires Clean(ws, acts) && Init(ws[0]) && i < |acts|
    requires acts[i].Run? && acts[i].t in ws[i].threads && DisposeSide(ws[i].threads[acts[i].t])
    ensures DisposeSide(ws[i + 1].threads[acts[i].t])
    ensures ws[i].s.life.complete && ws[i].threads[acts[i].t].AwaitComplete? ==> ws[i + 1].threads[acts[i].t] == Returned
  {
    RunEnds(ws, acts, i);
    var w, t := ws[i], acts[i].t;
    assert ThreadEnds(w.s, w.threads[t]) && Local(w.s, t, w.threads[t]);
    hide Inv;
    hide DriveStep;
    hide OtherStep;
    if w.threads[t].Driving? { OwnDispose(w.s, t, w.threads[t].pc, acts[i].flag); } else { OtherDispose(w.s, t, w.threads[t]); }
  }

  /** The own steps from the terminal claim to the end of the barrier. */
  function StepsLeft(th: Thread): nat {
    match th
    case Unlinking => 2
    case Completing => 1
    case Driving(_, pc) =>
      (match pc
       case Claimed => 14
       case MarkTerminal => 13
       case Teardown(step) =>
         (match step
          case ClosePending => 12
          case Unload => 11
          case Pin => 10
          case Kill => 9
          case Unregister => 8
          case Drain => 7
          case PublishDisposed => 6
          case Unlink => 5
          case Complete => 4)
       case Release(_) => 3
       case _ => 0)
    case _ => 0
  }

  /** The barrier is complete, or its bearer is a step nearer to that. */
  predicate Nearer(th: Thread, m: Move) {
    m.s.life.complete || (Closing(m.th) && !m.th.Waiting? && StepsLeft(m.th) < StepsLeft(th))
  }

  lemma EarlyAdvances(s: Shared, role: Role, step: Step)
    requires !step.PublishDisposed? && !step.Unlink? && !step.Complete? && s.life.state != Disposed
    ensures var m := TeardownStep(s, role, step); m.th.Driving? && m.th.pc.Teardown? && StepsLeft(m.th) == StepsLeft(Driving(role, Teardown(step))) - 1
  {
    hide Publish;
  }

  lemma LateAdvances(s: Shared, role: Role, step: Step)
    requires step.PublishDisposed? || step.Unlink? || step.Complete?
    ensures Nearer(Driving(role, Teardown(step)), TeardownStep(s, role, step))
  {
    hide Publish;
  }

  lemma TeardownAdvances(s: Shared, role: Role, step: Step)
    requires !step.Unlink? && !step.Complete? ==> s.life.state != Disposed
    ensures var th, m := Driving(role, Teardown(step)), TeardownStep(s, role, step);
      Nearer(th, m) && (StepsLeft(th) >= 7 ==> StepsLeft(m.th) == StepsLeft(th) - 1)
  {
    hide TeardownStep;
    if step.PublishDisposed? || step.Unlink? || step.Complete? { LateAdvances(s, role, step); } else { EarlyAdvances(s, role, step); }
  }

  lemma OwnerAdvances(s: Shared, t: Tid, role: Role, pc: Pc, flag: bool)
    requires pc.MarkTerminal? || pc == Release(Unlinking) || (role == Guard && pc.Claimed? && s.life.alive)
    ensures Nearer(Driving(role, pc), DriveStep(s, t, role, pc, flag))
    ensures pc.MarkTerminal? ==> StepsLeft(DriveStep(s, t, role, pc, flag).th) == 12
  {
    hide SettleStep;
    hide ExitStep;
    hide ReadStep;
    hide TeardownStep;
  }

  lemma DriveTeardown(s: Shared, t: Tid, role: Role, step: Step, flag: bool)
    ensures DriveStep(s, t, role, Teardown(step), flag) == TeardownStep(s, role, step)
  {
    hide TeardownStep;
  }

  /** Whoever closes the Fiber gets there: every step it takes once it owns the slot
      brings the barrier nearer, and the last one completes it. From the terminal
      mark to the publication of Disposed no stage is passed over. */
  lemma CloserAdvances(w: World, t: Tid, flag: bool)
    requires Inv(w) && t in w.threads && (Closing(w.threads[t]) || Inheriting(w.threads[t])) && !w.threads[t].Waiting?
    ensures var w' := Do(w, Run(t, flag));
      w'.s.life.complete || (Closing(w'.threads[t]) && !w'.threads[t].Waiting? && StepsLeft(w'.threads[t]) < StepsLeft(w.threads[t]))
    ensures 7 <= StepsLeft(w.threads[t]) <= 13 ==> StepsLeft(Do(w, Run(t, flag)).threads[t]) == StepsLeft(w.threads[t]) - 1
  {
    hide Global;
    hide OwnerOk;
    hide DriveStep;
    var th := w.threads[t];
    assert Local(w.s, t, th);
    if th.Driving? {
      if th.pc.Teardown? {
        TeardownAdvances(w.s, th.role, th.pc.step);
        DriveTeardown(w.s, t, th.role, th.pc.step, flag);
      } else {
        OwnerAdvances(w.s, t, th.role, th.pc, flag);
      }
    }
    hide TeardownStep;
  }

  // ----- the era swap -----

  lemma {:induction false} Unmoved(ws: seq<World>, acts: seq<Action>, i: nat, k: nat, t: Tid)
    requires IsRun(ws, acts) && i <= k < |ws| && t in ws[i].threads && forall j :: i <= j < k ==> acts[j].t != t
    ensures t in ws[k].threads && ws[k].threads[t] == ws[i].threads[t]
    decreases k
  {
    hide MoveOf;
    if k > i { Unmoved(ws, acts, i, k - 1, t); }
  }

  /** An era swap that owns the slot closes the Fiber, unless it finds it dead, is
      refused, or somebody else has made the terminal claim when it gets there; it
      then gives the slot back and has changed nothing. */
  lemma EraCloses(ws: seq<World>, acts: seq<Action>, i: nat, k: nat, t: Tid)
    requires IsRun(ws, acts) && i < k < |acts| && acts[i].Run? && acts[k].Run? && acts[i].t == acts[k].t == t
    requires t in ws[i].threads && ws[i].threads[t] == Driving(Era, Claimed) && forall j :: i < j < k ==> acts[j].t != t
    ensures t in ws[k].threads && t in ws[k + 1].threads && ws[i + 1].s == ws[i].s
    ensures var closes := ws[i].s.life.alive && !acts[i].flag && !ws[k].s.life.terminal;
      && (Closing(ws[k + 1].threads[t]) <==> closes)
      && (closes ==> ws[k + 1].s.life.terminal && ws[k + 1].s.past.closer == Some(t))
      && (!closes ==> ws[k + 1].s.life == ws[k].s.life && ws[k + 1].threads[t] in {Finished, Driving(Era, Release(Finished))})
  {
    assert ws[i + 1] == Do(ws[i], acts[i]);
    Unmoved(ws, acts, i + 1, k, t);
    assert ws[k + 1] == Do(ws[k], acts[k]);
    hide SettleStep;
    hide ExitStep;
    hide ReadStep;
    hide TeardownStep;
  }

  // ----- dropping the spawn future -----

  /** Dropping the spawn future inside its initial pass leaves its guard in the pass's
      place: it owns the slot and carries the terminal claim. */
  lemma DroppedPassCloses(w: World, flag: bool)
    requires Inv(w) && SPAWN in w.threads && w.threads[SPAWN].Driving? && w.threads[SPAWN].role == Spawner
    requires var pc := w.threads[SPAWN].pc; pc.Settle? && (pc.phase.DrainOld? || pc.phase.Applying? || pc.phase.DrainFailed?)
    ensures Enabled(w, Cancel(SPAWN)) && Enabled(Do(w, Cancel(SPAWN)), Run(SPAWN, flag))
    ensures var w' := Do(Do(w, Cancel(SPAWN)), Run(SPAWN, flag));
      && w'.s.slot == w.s.slot && w'.s.past.holder == Some(SPAWN) && w'.s.life.lease
      && w'.s.past.closer == Some(SPAWN) && Closing(w'.threads[SPAWN])
  {
    hide Inv;
    hide DriveStep;
    var w1 := Do(w, Cancel(SPAWN));
    StepKeeps(w, Cancel(SPAWN));
    InheritsClaim(w1, SPAWN);
    MarkCloses(w1.s, SPAWN, flag);
  }

  lemma InheritsClaim(w: World, t: Tid)
    requires Inv(w) && t in w.threads && Inheriting(w.threads[t])
    ensures (w.s.past.closer == None || w.s.past.closer == Some(t)) && (w.s.life.terminal <==> w.s.past.closer.Some?)
    ensures w.s.past.holder == Some(t)
  {
    assert Local(w.s, t, w.threads[t]);
    hide OwnerOk;
  }

  lemma MarkCloses(s: Shared, t: Tid, flag: bool)
    requires (s.past.closer == None || s.past.closer == Some(t)) && (s.life.terminal <==> s.past.closer.Some?)
    ensures DriveStep(s, t, Guard, MarkTerminal, flag) == At(Close(s, t), Guard, Teardown(ClosePending))
    ensures Close(s, t).past.closer == Some(t)
  {
    hide SettleStep;
    hide ExitStep;
    hide ReadStep;
    hide TeardownStep;
    hide ClaimedStep;
  }

  /** Dropping it while it waits for the slot leaves the guard with the terminal claim
      and the next turn at the slot, or waiting for whoever made the claim before. */
  lemma DroppedWaitCloses(w: World, flag: bool)
    requires SPAWN in w.threads && w.threads[SPAWN] in {Waiting(Spawner), Waiting(Handoff)}
    ensures Enabled(w, Cancel(SPAWN)) && Enabled(Do(w, Cancel(SPAWN)), Run(SPAWN, flag))
    ensures var w' := Do(Do(w, Cancel(SPAWN)), Run(SPAWN, flag));
      && w'.s.slot == w.s.slot && w'.s.life.terminal
      && (if w.s.life.terminal then w'.s.past == w.s.past && w'.threads[SPAWN] == AwaitComplete
          else w'.s.past.closer == Some(SPAWN) && w'.threads[SPAWN] == Waiting(Guard))
  {}
}
