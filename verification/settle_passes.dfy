/** What one settle pass does for whoever asked for it: an apply is published as it
    ended, a restart or an update applies anew, and the committed input counts the
    updates. */
module SettlePasses {
  import opened Fibers
  import opened SettleProtocol
  import opened SettleInvariants
  import opened SettleSteps
  import opened SettleDriver
  import opened SettleTheorems
  import opened SettleOutcomes

  // ----- applies -----

  /** The step takes its thread into an apply. */
  predicate EntersApply(w: World, a: Action)
    requires Enabled(w, a)
  {
    !ApplyingAt(w, a.t) && ApplyingAt(Do(w, a), a.t)
  }

  lemma SettleEnters(s: Shared, role: Role, target: Target, rev: nat, phase: Phase, flag: bool)
    ensures var m := SettleStep(s, role, target, rev, phase, flag);
      && (IsApplying(m.th.pc) <==> phase.Open?)
      && m.s.past.applies == s.past.applies + if phase.Open? then 1 else 0
  {
    hide HasMissing;
  }

  lemma RestEnters(s: Shared, t: Tid, role: Role, pc: Pc, flag: bool)
    requires !pc.Settle? && OwnerOk(s, role, pc)
    ensures var m := DriveStep(s, t, role, pc, flag);
      m.s.past.applies == s.past.applies && (m.th.Driving? ==> !IsApplying(m.th.pc))
  {
    hide OutcomeMoves;
    DriveHistory(s, t, role, pc, flag);
    if pc.Teardown? { TeardownEarns(s, role, pc.step); } else { RestEarns(s, t, role, pc, flag); }
    hide DriveStep;
  }

  /** The count of applies in the history is that of the run. */
  lemma AppliesCounted(w: World, a: Action)
    requires Inv(w) && Enabled(w, a)
    ensures Do(w, a).s.past.applies == w.s.past.applies + if EntersApply(w, a) then 1 else 0
  {
    hide DriveStep;
    hide OwnerOk;
    hide Global;
    var m := MoveOf(w, a);
    if a.Run? && w.threads[a.t].Driving? {
      var th := w.threads[a.t];
      assert Local(w.s, a.t, th);
      if th.pc.Settle? {
        assert m == SettleStep(w.s, th.role, th.pc.t, th.pc.rev, th.pc.phase, a.flag) by { SettleIsDriven(w.s, a.t, th.role, th.pc, a.flag); }
        hide SettleStep;
        SettleEnters(w.s, th.role, th.pc.t, th.pc.rev, th.pc.phase, a.flag);
        SettleShape(w.s, th.role, th.pc.t, th.pc.rev, th.pc.phase, a.flag);
      } else {
        RestEnters(w.s, a.t, th.role, th.pc, a.flag);
      }
    } else {
      OutsideEarnless(w, a, m);
    }
  }

  lemma SettleIsDriven(s: Shared, t: Tid, role: Role, pc: Pc, flag: bool)
    requires pc.Settle?
    ensures DriveStep(s, t, role, pc, flag) == SettleStep(s, role, pc.t, pc.rev, pc.phase, flag)
  {}

  /** While a thread is inside an apply the Fiber is live and shows Loading, the
      Plugin state is away, the target is complete and speaks of the committed
      input, and no other thread is anywhere inside the slot. */
  lemma ApplyIsAlone(w: World, t: Tid)
    requires Inv(w) && ApplyingAt(w, t)
    ensures w.s.life.alive && w.s.life.state == Loading && !w.s.life.lease
    ensures var target := w.threads[t].pc.t; !HasMissing(target) && target.input == w.s.life.input
    ensures forall u :: u in w.threads && u != t ==> !w.threads[u].Driving?
  {
    InvSingleDriver(w);
    assert Local(w.s, t, w.threads[t]);
    ApplyingFacts(w.s, t, w.threads[t].role, w.threads[t].pc);
  }

  // ----- the outcome is published -----

  /** After an apply its owner's next step publishes Active if the Plugin answered
      so, and otherwise Unloading and, once the drain is over, Failed. */
  lemma ApplyPublishes(ws: seq<World>, acts: seq<Action>, i: nat)
    requires Clean(ws, acts) && Init(ws[0]) && i < |acts| && acts[i].Run?
    requires var w, t := ws[i], acts[i].t; t in w.threads && w.threads[t].Driving? && w.threads[t].pc.Settle?
    ensures var phase, ran := ws[i].threads[acts[i].t].pc.phase, LastRan(ws, acts, i);
      && (phase.Applied? ==> ran.Some? && ws[i + 1].s.life.state == if ran.value.ok then Active else Unloading)
      && (phase.DrainFailed? ==> ran.Some? && !ran.value.ok && ws[i + 1].s.life.state == Failed)
  {
    RunOutcome(ws, acts, i);
    var w, t := ws[i], acts[i].t;
    assert PhaseEarned(w.s, w.threads[t].pc, LastRan(ws, acts, i));
    var th := w.threads[t];
    if th.pc.phase.Applied? || th.pc.phase.DrainFailed? { PassPublishes(w.s, t, th.role, th.pc, acts[i].flag); }
  }

  lemma PassPublishes(s: Shared, t: Tid, role: Role, pc: Pc, flag: bool)
    requires pc.Settle? && (pc.phase.Applied? || pc.phase.DrainFailed?)
    ensures DriveStep(s, t, role, pc, flag).s.life.state ==
      if pc.phase.DrainFailed? then Failed else if pc.phase.ok then Active else Unloading
  {
    hide AfterSettle;
    AfterSettleShape(Publish(s, Active), role, pc.t, pc.rev);
    AfterSettleShape(Publish(s, Failed), role, pc.t, pc.rev);
  }

  // ----- the committed input -----

  /** The step in which an update of a live Fiber commits its input. */
  predicate CommitsUpdate(w: World, a: Action) {
    a.Run? && a.t in w.threads && w.threads[a.t] == Driving(Updater, Claimed) && w.s.life.alive
  }

  lemma ClaimedInput(s: Shared, role: Role, flag: bool, m: Move)
    requires m == ClaimedStep(s, role, flag)
    ensures role == Updater && s.life.alive ==> m.s.life.input == s.life.input + 1
    ensures !(role == Updater && s.life.alive) ==> m.s.life.input == s.life.input
  {
    match role {
      case Updater =>
      case Spawner =>
      case _ => assert m.s == s;
    }
  }

  lemma OwnInput(s: Shared, t: Tid, th: Thread, flag: bool, m: Move)
    requires th.Driving? && m == DriveStep(s, t, th.role, th.pc, flag)
    ensures th == Driving(Updater, Claimed) && s.life.alive ==> m.s.life.input == s.life.input + 1
    ensures !(th == Driving(Updater, Claimed) && s.life.alive) ==> m.s.life.input == s.life.input
  {
    hide SettleStep;
    hide TeardownStep;
    hide ExitStep;
    hide ReadStep;
    hide ClaimedStep;
    if th.pc.Claimed? {
      ClaimedInput(s, th.role, flag, m);
    } else if !th.pc.Release? {
      DriveOutcome(s, t, th.role, th.pc, flag);
      hide DriveStep;
    }
  }

  lemma InputStep(w: World, a: Action)
    requires Enabled(w, a)
    ensures CommitsUpdate(w, a) ==> Do(w, a).s.life.input == w.s.life.input + 1
    ensures !CommitsUpdate(w, a) ==> Do(w, a).s.life.input == w.s.life.input
  {
    hide DriveStep;
    if a.Run? && w.threads[a.t].Driving? {
      OwnInput(w.s, a.t, w.threads[a.t], a.flag, MoveOf(w, a));
    } else {
      OutsideEarnless(w, a, MoveOf(w, a));
      hide MoveOf;
    }
  }

  ghost function Updates(ws: seq<World>, acts: seq<Action>, i: nat): nat
    requires |ws| == |acts| + 1 && i < |ws|
  {
    if i == 0 then 0 else Updates(ws, acts, i - 1) + if CommitsUpdate(ws[i - 1], acts[i - 1]) then 1 else 0
  }

  /** In every run whatsoever the input an apply runs with is the newest one that an
      update has committed: it counts the updates that found the Fiber alive. */
  lemma {:induction false} InputCounts(ws: seq<World>, acts: seq<Action>, i: nat)
    requires IsRun(ws, acts) && i < |ws|
    ensures ws[i].s.life.input == ws[0].s.life.input + Updates(ws, acts, i)
  {
    if i > 0 {
      InputCounts(ws, acts, i - 1);
      hide Do;
      hide CommitsUpdate;
      InputStep(ws[i - 1], acts[i - 1]);
    }
  }

  // ----- a restart or update applies anew -----

  predicate Renewing(role: Role) {
    role == Restarter || role == Updater
  }

  predicate Exits(pc: Pc) {
    Exiting(pc) || (pc.Read? && pc.use.Probe?)
  }

  /** Past the settle pass, the thread has applied or left the Fiber Pending. */
  predicate RenewalOk(s: Shared, pc: Pc, applied: bool) {
    && s.life.alive && !pc.Release? && !pc.SwapTerminal? && !Ending(pc)
    && (pc.Settle? && (pc.phase.Applying? || pc.phase.Applied? || pc.phase.DrainFailed?) ==> applied)
    && (Exits(pc) ==> applied || s.life.state == Pending)
  }

  lemma AfterRenews(s: Shared, role: Role, target: Target, rev: nat, applied: bool)
    requires Renewing(role) && s.life.alive && (applied || s.life.state == Pending)
    ensures var m := AfterSettle(s, role, target, rev); m.s == s && m.th.Driving? && m.th.role == role && RenewalOk(s, m.th.pc, applied)
  {}

  lemma EarlyRenews(s: Shared, t: Tid, role: Role, pc: Pc, flag: bool, applied: bool)
    requires Local(s, t, Driving(role, pc)) && Renewing(role) && RenewalOk(s, pc, applied)
    requires pc.Settle? && (pc.phase.CheckAlive? || pc.phase.CloseOld? || pc.phase.DrainOld? || pc.phase.CheckMissing? || pc.phase.CheckFirstApply?)
    ensures var m := SettleStep(s, role, pc.t, pc.rev, pc.phase, flag);
      m.th.Driving? && m.th.role == role && RenewalOk(m.s, m.th.pc, applied)
  {
    hide OwnerOk;
    hide ClaimLocal;
    hide TerminalLocal;
    hide AfterSettle;
    hide HasMissing;
    if pc.phase.CheckMissing? && HasMissing(pc.t) {
      AfterRenews(Publish(s, Pending).(past := s.past.(skipped := false)), role, pc.t, pc.rev, applied);
    } else if pc.phase.CheckFirstApply? && s.life.creationPending && !s.life.applied {
      AfterRenews(s.(past := s.past.(skipped := true)), role, pc.t, pc.rev, applied);
    }
  }

  lemma LateRenews(s: Shared, role: Role, pc: Pc, flag: bool, applied: bool)
    requires Renewing(role) && RenewalOk(s, pc, applied)
    requires pc.Settle? && (pc.phase.Open? || pc.phase.Applying? || pc.phase.Applied? || pc.phase.DrainFailed?)
    ensures var m := SettleStep(s, role, pc.t, pc.rev, pc.phase, flag);
      m.th.Driving? && m.th.role == role && RenewalOk(m.s, m.th.pc, applied || IsApplying(m.th.pc))
  {
    hide AfterSettle;
    if pc.phase.Applied? { AfterRenews(Publish(s, Active), role, pc.t, pc.rev, applied); }
    if pc.phase.DrainFailed? { AfterRenews(Publish(s, Failed), role, pc.t, pc.rev, applied); }
  }

  lemma RestRenews(s: Shared, t: Tid, role: Role, pc: Pc, flag: bool, applied: bool)
    requires Local(s, t, Driving(role, pc)) && Renewing(role) && !pc.Settle? && RenewalOk(s, pc, applied)
    ensures var m := DriveStep(s, t, role, pc, flag);
      if m.th.Driving? then m.th.role == role && RenewalOk(m.s, m.th.pc, applied)
      else applied || m.s.life.state == Pending
  {
    hide SettleStep;
    hide TeardownStep;
    hide ClaimLocal;
    hide TerminalLocal;
    hide Rest;
    hide CellCovered;
    hide AdmitOk;
    hide Known;
  }

  /** The pass, one own step on. */
  lemma OwnRenews(w: World, t: Tid, flag: bool, applied: bool)
    requires Inv(w) && t in w.threads && w.threads[t].Driving? && Renewing(w.threads[t].role)
    requires RenewalOk(w.s, w.threads[t].pc, applied)
    ensures var m := DriveStep(w.s, t, w.threads[t].role, w.threads[t].pc, flag);
      if m.th.Driving? then m.th.role == w.threads[t].role && RenewalOk(m.s, m.th.pc, applied || IsApplying(m.th.pc))
      else applied || m.s.life.state == Pending
  {
    hide Global;
    hide OwnerOk;
    hide DriveStep;
    hide SettleStep;
    var th := w.threads[t];
    assert Local(w.s, t, th);
    if th.pc.Settle? {
      SettleIsDriven(w.s, t, th.role, th.pc, flag);
      if th.pc.phase.Open? || th.pc.phase.Applying? || th.pc.phase.Applied? || th.pc.phase.DrainFailed? {
        LateRenews(w.s, th.role, th.pc, flag, applied);
      } else {
        EarlyRenews(w.s, t, th.role, th.pc, flag, applied);
      }
    } else {
      RestRenews(w.s, t, th.role, th.pc, flag, applied);
    }
  }

  /** Nobody else moves the pass, or what it has published. */
  lemma OthersRenew(w: World, a: Action, t: Tid)
    requires Inv(w) && Enabled(w, a) && t in w.threads && w.threads[t].Driving? && Renewing(w.threads[t].role)
    requires !(a.Run? && a.t == t)
    ensures var w' := Do(w, a);
      t in w'.threads && w'.threads[t] == w.threads[t] && w'.s.life.alive == w.s.life.alive && w'.s.life.state == w.s.life.state
  {
    InvSingleDriver(w);
    hide Inv;
    hide DriveStep;
    OutsideEarnless(w, a, MoveOf(w, a));
  }

  /** Thread t was inside an apply at some instant after i and not after k. */
  ghost predicate AppliedWithin(ws: seq<World>, i: nat, k: nat, t: Tid)
    requires k < |ws|
  {
    exists j: nat :: i < j <= k && ApplyingAt(ws[j], t)
  }

  lemma {:induction false} Renews(ws: seq<World>, acts: seq<Action>, i: nat, k: nat, t: Tid)
    requires Clean(ws, acts) && Init(ws[0]) && i <= k < |ws|
    requires t in ws[i].threads && ws[i].threads[t].Driving? && ws[i].threads[t].pc.Claimed? && Renewing(ws[i].threads[t].role) && ws[i].s.life.alive
    requires forall j: nat :: i <= j < k ==> t in ws[j].threads && ws[j].threads[t].Driving?
    ensures t in ws[k].threads
    ensures if ws[k].threads[t].Driving?
            then ws[k].threads[t].role == ws[i].threads[t].role && RenewalOk(ws[k].s, ws[k].threads[t].pc, AppliedWithin(ws, i, k, t))
            else k > i && (AppliedWithin(ws, i, k, t) || ws[k].s.life.state == Pending)
    decreases k - i
  {
    hide Inv;
    hide Do;
    hide RenewalOk;
    if k == i {
      RenewalBegins(ws[i].s, AppliedWithin(ws, i, k, t));
    } else {
      var w, a := ws[k - 1], acts[k - 1];
      Renews(ws, acts, i, k - 1, t);
      InitInv(ws[0]);
      RunKeeps(ws, acts, k - 1);
      RenewalStep(w, a, t, AppliedWithin(ws, i, k - 1, t));
      WithinNext(ws, i, k, t);
    }
  }

  lemma RenewalBegins(s: Shared, applied: bool)
    requires s.life.alive
    ensures RenewalOk(s, Claimed, applied)
  {}

  lemma WithinNext(ws: seq<World>, i: nat, k: nat, t: Tid)
    requires i < k < |ws|
    ensures AppliedWithin(ws, i, k, t) <==> AppliedWithin(ws, i, k - 1, t) || ApplyingAt(ws[k], t)
  {}

  lemma RenewalStep(w: World, a: Action, t: Tid, applied: bool)
    requires Inv(w) && Enabled(w, a) && t in w.threads && w.threads[t].Driving? && Renewing(w.threads[t].role)
    requires RenewalOk(w.s, w.threads[t].pc, applied)
    ensures var w' := Do(w, a);
      t in w'.threads
      && if w'.threads[t].Driving?
         then w'.threads[t].role == w.threads[t].role && RenewalOk(w'.s, w'.threads[t].pc, applied || ApplyingAt(w', t))
         else applied || w'.s.life.state == Pending
  {
    if a.Run? && a.t == t {
      OwnRenews(w, t, a.flag, applied);
      hide DriveStep;
    } else {
      OthersRenew(w, a, t);
      hide Do;
    }
  }

  /** A restart or an update that found the Fiber alive has, when it gives the slot
      back, applied anew, or it leaves the Fiber Pending. */
  lemma RestartApplies(ws: seq<World>, acts: seq<Action>, i: nat, k: nat, t: Tid)
    requires Clean(ws, acts) && Init(ws[0]) && i < k < |ws|
    requires t in ws[i].threads && (ws[i].threads[t] == Driving(Restarter, Claimed) || ws[i].threads[t] == Driving(Updater, Claimed)) && ws[i].s.life.alive
    requires forall j: nat :: i <= j < k ==> t in ws[j].threads && ws[j].threads[t].Driving?
    requires t in ws[k].threads ==> !ws[k].threads[t].Driving?
    ensures (exists j: nat :: i < j < k && ApplyingAt(ws[j], t)) || ws[k].s.life.state == Pending
  {
    Renews(ws, acts, i, k, t);
    if AppliedWithin(ws, i, k, t) {
      var j: nat :| i < j <= k && ApplyingAt(ws[j], t);
    }
  }

  // ----- the initial pass -----

  /** From its last look at the state on, the initial pass rests on one that is not
      Failed; and what it records as applied is what it applied. */
  predicate InitialOk(s: Shared, th: Thread) {
    && (th.Driving? && th.role == Spawner && (Exits(th.pc) || th.pc.MarkPending?) ==> s.life.state != Failed)
    && (th.Driving? && th.pc.RecordApplied? ==>
          s.past.lastApply == Some(th.pc.t) && (s.life.state == Active || s.life.state == Failed))
  }

  lemma PassLooks(s: Shared, role: Role, target: Target, rev: nat)
    requires role == Spawner ==>
      if HasMissing(target) then s.life.state != Failed
      else s.past.lastApply == Some(target) && (s.life.state == Active || s.life.state == Failed)
    ensures InitialOk(AfterSettle(s, role, target, rev).s, AfterSettle(s, role, target, rev).th)
  {
    hide HasMissing;
  }

  lemma SettleSpawns(s: Shared, t: Tid, role: Role, pc: Pc, flag: bool)
    requires Local(s, t, Driving(role, pc)) && pc.Settle? && (s.past.lastApply.Some? ==> !HasMissing(s.past.lastApply.value))
    ensures var m := SettleStep(s, role, pc.t, pc.rev, pc.phase, flag); InitialOk(m.s, m.th)
  {
    hide ClaimLocal;
    hide TerminalLocal;
    hide OwnerOk;
    hide HasMissing;
    hide AfterSettle;
    match pc.phase {
      case CheckAlive => if !s.life.alive { PassLooks(s, role, pc.t, pc.rev); }
      case CheckMissing => if HasMissing(pc.t) { PassLooks(Publish(s, Pending).(past := s.past.(skipped := false)), role, pc.t, pc.rev); }
      case CheckFirstApply => if role != Spawner { PassLooks(s.(past := s.past.(skipped := true)), role, pc.t, pc.rev); }
      case Applied(ok) => if ok { PassLooks(Publish(s, Active), role, pc.t, pc.rev); }
      case DrainFailed => PassLooks(Publish(s, Failed), role, pc.t, pc.rev);
      case _ =>
    }
  }

  lemma ExitSpawns(s: Shared, role: Role, pc: Pc)
    requires Exiting(pc) && InitialOk(s, Driving(role, pc))
    ensures InitialOk(ExitStep(s, role, pc).s, ExitStep(s, role, pc).th)
  {}

  lemma ReadSpawns(s: Shared, role: Role, use: Use, input: nat, acc: seq<Option<Occurrence>>)
    requires InitialOk(s, Driving(role, Read(use, input, acc))) && (use.Compare? ==> role == Converger)
    ensures InitialOk(ReadStep(s, role, use, input, acc).s, ReadStep(s, role, use, input, acc).th)
  {}

  lemma TeardownSpawns(s: Shared, role: Role, step: Step)
    ensures InitialOk(TeardownStep(s, role, step).s, TeardownStep(s, role, step).th)
  {
    hide Publish;
  }

  lemma ClaimedSpawns(s: Shared, role: Role, flag: bool)
    ensures InitialOk(ClaimedStep(s, role, flag).s, ClaimedStep(s, role, flag).th)
  {}

  lemma RestSpawns(s: Shared, t: Tid, th: Thread, flag: bool)
    requires th.Driving? && !th.pc.Settle? && InitialOk(s, th) && (th.pc.Release? ==> !th.pc.next.Driving?)
    requires th.pc.Read? && th.pc.use.Compare? ==> th.role == Converger
    ensures var m := DriveStep(s, t, th.role, th.pc, flag); InitialOk(m.s, m.th)
  {
    if Exiting(th.pc) {
      ExitSpawns(s, th.role, th.pc);
    } else if th.pc.Read? {
      ReadSpawns(s, th.role, th.pc.use, th.pc.input, th.pc.acc);
    } else if th.pc.Teardown? {
      TeardownSpawns(s, th.role, th.pc.step);
    } else if th.pc.Claimed? {
      ClaimedSpawns(s, th.role, flag);
    }
    hide SettleStep;
    hide ExitStep;
    hide ReadStep;
    hide TeardownStep;
    hide ClaimedStep;
  }

  lemma SpawnFacts(w: World, t: Tid)
    requires Inv(w) && t in w.threads && w.threads[t].Driving?
    ensures var th := w.threads[t];
      && Local(w.s, t, th) && (w.s.past.lastApply.Some? ==> !HasMissing(w.s.past.lastApply.value))
      && (th.pc.Release? ==> !th.pc.next.Driving?) && (th.pc.Read? && th.pc.use.Compare? ==> th.role == Converger)
  {}

  lemma OwnSpawns(w: World, t: Tid, flag: bool)
    requires Inv(w) && t in w.threads && w.threads[t].Driving? && InitialOk(w.s, w.threads[t])
    ensures var m := DriveStep(w.s, t, w.threads[t].role, w.threads[t].pc, flag); InitialOk(m.s, m.th)
  {
    hide DriveStep;
    hide InitialOk;
    var th := w.threads[t];
    SpawnFacts(w, t);
    hide Inv;
    hide Local;
    if th.pc.Settle? {
      SettleSpawns(w.s, t, th.role, th.pc, flag);
      SettleIsDriven(w.s, t, th.role, th.pc, flag);
    } else {
      RestSpawns(w.s, t, th, flag);
    }
  }

  lemma SpawnStep(w: World, a: Action)
    requires Inv(w) && Enabled(w, a) && forall t :: t in w.threads ==> InitialOk(w.s, w.threads[t])
    ensures forall t :: t in Do(w, a).threads ==> InitialOk(Do(w, a).s, Do(w, a).threads[t])
  {
    InvSingleDriver(w);
    hide DriveStep;
    hide InitialOk;
    if a.Run? && w.threads[a.t].Driving? {
      OwnSpawns(w, a.t, a.flag);
      SpawnsKept(w, a.t, MoveOf(w, a));
    } else {
      OutsideEarnless(w, a, MoveOf(w, a));
      ArrivesPlainly(w, a, MoveOf(w, a));
      EarnlessSpawns(w, a.t, MoveOf(w, a));
    }
    hide Inv;
    hide MoveOf;
  }

  /** Who comes to own the slot stands at its beginning. */
  lemma ArrivesPlainly(w: World, a: Action, m: Move)
    requires Enabled(w, a) && m == MoveOf(w, a) && (a.Run? ==> !w.threads[a.t].Driving?)
    ensures m.th.Driving? ==> m.th.pc.Claimed? || m.th.pc.MarkTerminal?
  {}

  lemma SpawnsKept(w: World, t: Tid, m: Move)
    requires SingleDriver(w) && t in w.threads && w.threads[t].Driving? && InitialOk(m.s, m.th)
    ensures forall u :: u in After(w, t, m).threads ==> InitialOk(m.s, After(w, t, m).threads[u])
  {}

  lemma EarnlessSpawns(w: World, t: Tid, m: Move)
    requires (forall u :: u in w.threads ==> InitialOk(w.s, w.threads[u])) && Earnless(w.s, m)
    requires m.th.Driving? ==> m.th.pc.Claimed? || m.th.pc.MarkTerminal?
    ensures forall u :: u in After(w, t, m).threads ==> InitialOk(m.s, After(w, t, m).threads[u])
  {
    forall u | u in w.threads && u != t ensures InitialOk(m.s, w.threads[u]) { assert InitialOk(w.s, w.threads[u]); }
  }

  lemma {:induction false} RunSpawns(ws: seq<World>, acts: seq<Action>, i: nat)
    requires Clean(ws, acts) && Init(ws[0]) && i < |ws|
    ensures Inv(ws[i]) && forall t :: t in ws[i].threads ==> InitialOk(ws[i].s, ws[i].threads[t])
  {
    hide Do;
    hide Inv;
    hide InitialOk;
    InitInv(ws[0]);
    RunKeeps(ws, acts, i);
    if i > 0 {
      RunSpawns(ws, acts, i - 1);
      SpawnStep(ws[i - 1], acts[i - 1]);
    } else {
      FreshSpawns(ws[0]);
    }
  }

  lemma FreshSpawns(w: World)
    requires Init(w)
    ensures forall t :: t in w.threads ==> InitialOk(w.s, w.threads[t])
  {}

  /** A creation whose apply failed is not handed off: whenever the initial pass gives
      the slot back by its exit recheck, the Fiber is Active or Pending, or somebody
      has disposed of it; a Failed one it keeps and tears down. */
  lemma InitialReleasesSettled(ws: seq<World>, acts: seq<Action>, i: nat)
    requires Clean(ws, acts) && Init(ws[0]) && i < |acts| && acts[i].Run? && acts[i].t in ws[i].threads
    requires var th := ws[i].threads[acts[i].t]; th.Driving? && th.role == Spawner && th.pc.CasIdle? && ws[i].s.slot.inertia == RELEASING
    ensures ws[i + 1].threads[acts[i].t] == TailLoad
    ensures ws[i + 1].s.life.state in {Active, Pending, Disposed}
  {
    RunSpawns(ws, acts, i);
    var w, t := ws[i], acts[i].t;
    assert InitialOk(w.s, w.threads[t]) && Local(w.s, t, w.threads[t]);
    hide Inv;
    hide OwnerOk;
    hide SettleStep;
  }

  /** What the initial pass records over any earlier target is the one its own apply,
      the last of the run, ran against; a target with something Missing it never does. */
  lemma InitialRecordsApplied(ws: seq<World>, acts: seq<Action>, i: nat, t: Tid)
    requires Clean(ws, acts) && Init(ws[0]) && i < |ws| && t in ws[i].threads
    requires ws[i].threads[t].Driving? && ws[i].threads[t].pc.RecordApplied?
    ensures LastRan(ws, acts, i).Some? && LastRan(ws, acts, i).value.target == ws[i].threads[t].pc.t
    ensures !HasMissing(ws[i].threads[t].pc.t)
  {
    RunSpawns(ws, acts, i);
    RunOutcome(ws, acts, i);
    assert InitialOk(ws[i].s, ws[i].threads[t]);
    hide Inv;
    hide LastRan;
  }
}
