/** What a settle pass achieves: the published state follows the outcome of the
    last apply, a restart or update applies anew, and the committed input counts
    the updates. */
module SettleOutcomes {
  import opened Fibers
  import opened SettleProtocol
  import opened SettleInvariants
  import opened SettleSteps
  import opened SettleDriver
  import opened SettleTheorems

  // ----- the last apply of a run -----

  /** An apply that has returned: what it ran against and whether it succeeded. */
  datatype Ran = Ran(target: Target, ok: bool)

  predicate ApplyingAt(w: World, t: Tid) {
    t in w.threads && w.threads[t].Driving? && IsApplying(w.threads[t].pc)
  }

  /** The last apply to have returned before instant i, as the run itself tells:
      the answer is the Plugin's, the input the one then committed. */
  ghost function LastRan(ws: seq<World>, acts: seq<Action>, i: nat): Option<Ran>
    requires |ws| == |acts| + 1 && i < |ws|
  {
    if i == 0 then None else RanNext(ws[i - 1], acts[i - 1], LastRan(ws, acts, i - 1))
  }

  function RanNext(w: World, a: Action, ran: Option<Ran>): Option<Ran> {
    if a.Run? && ApplyingAt(w, a.t)
    then Some(Ran(Target(w.s.life.input, w.threads[a.t].pc.t.edges), a.flag))
    else ran
  }

  /** The state shown is the one that the last apply earned for the live target:
      Pending if something is Missing, Active if it succeeded, Failed if it failed. */
  predicate Shows(s: Shared, ran: Option<Ran>) {
    && (s.life.state == Pending <==> HasMissing(LiveTarget(s)))
    && (s.life.state == Active <==> ran == Some(Ran(LiveTarget(s), true)))
    && (s.life.state == Failed <==> ran == Some(Ran(LiveTarget(s), false)))
  }

  /** The returned apply is the one the state speaks about. */
  predicate Earned(s: Shared, ran: Option<Ran>, ok: bool) {
    ran.Some? && s.past.lastApply == Some(ran.value.target) && ran.value.ok == ok
  }

  predicate PhaseEarned(s: Shared, pc: Pc, ran: Option<Ran>) {
    pc.Settle? ==>
      && (pc.phase.Applied? ==> Earned(s, ran, pc.phase.ok))
      && (pc.phase.DrainFailed? ==> Earned(s, ran, false))
  }

  predicate StateEarned(s: Shared, ran: Option<Ran>) {
    && (s.life.state == Active ==> Earned(s, ran, true))
    && (s.life.state == Failed ==> Earned(s, ran, false))
    && (ran.Some? ==> s.life.applied && !HasMissing(ran.value.target))
  }

  predicate OutcomeOk(w: World, ran: Option<Ran>) {
    && StateEarned(w.s, ran)
    && forall t :: t in w.threads && w.threads[t].Driving? ==> PhaseEarned(w.s, w.threads[t].pc, ran)
  }

  /** What the slot owner's step may do to state and history. */
  predicate OutcomeMoves(s: Shared, pc: Pc, flag: bool, m: Move) {
    && (s.life.applied ==> m.s.life.applied) && (!pc.Claimed? ==> m.s.life.input == s.life.input)
    && (m.s.past.lastApply != s.past.lastApply ==> m.s.life.state == Loading && m.th.Driving? && IsApplying(m.th.pc))
    && (m.s.life.state == Active && s.life.state != Active ==> pc.Settle? && pc.phase == Applied(true))
    && (m.s.life.state == Failed && s.life.state != Failed ==> pc.Settle? && pc.phase == DrainFailed)
    && (m.th.Driving? && m.th.pc.Settle? && m.th.pc.phase.Applied? ==> IsApplying(pc) && m.th.pc.phase.ok == flag && m.th.pc.t == pc.t)
    && (m.th.Driving? && m.th.pc.Settle? && m.th.pc.phase.DrainFailed? ==> pc.Settle? && pc.phase == Applied(false))
    && (IsApplying(pc) ==> m.s.life.applied && m.s.life.state == s.life.state && m.s.past.lastApply == s.past.lastApply)
  }

  lemma EarlyOutcome(s: Shared, role: Role, target: Target, rev: nat, phase: Phase, flag: bool)
    requires phase.CheckAlive? || phase.CloseOld? || phase.DrainOld? || phase.CheckMissing? || phase.CheckFirstApply?
    ensures OutcomeMoves(s, Settle(target, rev, phase), flag, SettleStep(s, role, target, rev, phase, flag))
  {
    hide HasMissing;
  }

  lemma OpenOutcome(s: Shared, role: Role, target: Target, rev: nat, flag: bool)
    ensures OutcomeMoves(s, Settle(target, rev, Open), flag, SettleStep(s, role, target, rev, Open, flag))
  {
    var m, p := SettleStep(s, role, target, rev, Open, flag), Publish(s, Loading);
    assert m.th == Driving(role, Settle(target, rev, Applying)) && m.s.life == p.life.(lease := false);
    hide SettleStep;
  }

  lemma ApplyingOutcome(s: Shared, role: Role, target: Target, rev: nat, flag: bool)
    ensures OutcomeMoves(s, Settle(target, rev, Applying), flag, SettleStep(s, role, target, rev, Applying, flag))
  {
    hide AfterSettle;
  }

  lemma AfterSettleShape(s: Shared, role: Role, target: Target, rev: nat)
    ensures var m := AfterSettle(s, role, target, rev); m.s == s && m.th.Driving? && !m.th.pc.Settle?
  {}

  lemma LateOutcome(s: Shared, role: Role, target: Target, rev: nat, phase: Phase, flag: bool)
    requires phase.Applied? || phase.DrainFailed?
    ensures OutcomeMoves(s, Settle(target, rev, phase), flag, SettleStep(s, role, target, rev, phase, flag))
  {
    hide AfterSettle;
    var m := SettleStep(s, role, target, rev, phase, flag);
    AfterSettleShape(Publish(s, Active), role, target, rev);
    AfterSettleShape(Publish(s, Failed), role, target, rev);
    if phase == Applied(false) {
      assert m == At(Publish(s, Unloading), role, Settle(target, rev, DrainFailed));
    } else {
      assert m.s == Publish(s, if phase.DrainFailed? then Failed else Active) && m.th.Driving? && !m.th.pc.Settle?;
    }
    hide SettleStep;
  }

  lemma SettleOutcome(s: Shared, role: Role, target: Target, rev: nat, phase: Phase, flag: bool)
    ensures OutcomeMoves(s, Settle(target, rev, phase), flag, SettleStep(s, role, target, rev, phase, flag))
  {
    hide OutcomeMoves;
    hide SettleStep;
    if phase.Open? {
      OpenOutcome(s, role, target, rev, flag);
    } else if phase.Applying? {
      ApplyingOutcome(s, role, target, rev, flag);
    } else if phase.Applied? || phase.DrainFailed? {
      LateOutcome(s, role, target, rev, phase, flag);
    } else {
      EarlyOutcome(s, role, target, rev, phase, flag);
    }
  }

  /** Outside a settle pass nothing is applied and nothing earned. */
  predicate NothingEarned(s: Shared, m: Move) {
    && m.s.past.lastApply == s.past.lastApply && m.s.life.applied == s.life.applied
    && (m.s.life.state == s.life.state || m.s.life.state == Unloading || m.s.life.state == Disposed)
    && (m.th.Driving? && m.th.pc.Settle? ==> m.th.pc.phase.CheckAlive?)
  }

  lemma TeardownEarns(s: Shared, role: Role, step: Step)
    ensures NothingEarned(s, TeardownStep(s, role, step)) && TeardownStep(s, role, step).s.life.input == s.life.input
  {}

  lemma ExitEarns(s: Shared, role: Role, pc: Pc)
    requires Exiting(pc)
    ensures NothingEarned(s, ExitStep(s, role, pc)) && ExitStep(s, role, pc).s.life.input == s.life.input
  {}

  lemma ReadEarns(s: Shared, role: Role, use: Use, input: nat, acc: seq<Option<Occurrence>>)
    ensures NothingEarned(s, ReadStep(s, role, use, input, acc)) && ReadStep(s, role, use, input, acc).s.life.input == s.life.input
  {}

  lemma ClaimedEarns(s: Shared, role: Role, flag: bool)
    ensures NothingEarned(s, ClaimedStep(s, role, flag))
  {}

  lemma RestEarns(s: Shared, t: Tid, role: Role, pc: Pc, flag: bool)
    requires !pc.Settle? && !pc.Teardown? && (pc.Release? ==> !pc.next.Driving?)
    ensures NothingEarned(s, DriveStep(s, t, role, pc, flag))
    ensures !pc.Claimed? ==> DriveStep(s, t, role, pc, flag).s.life.input == s.life.input
  {
    if Exiting(pc) {
      ExitEarns(s, role, pc);
    } else if pc.Read? {
      ReadEarns(s, role, pc.use, pc.input, pc.acc);
    } else if pc.Claimed? {
      ClaimedEarns(s, role, flag);
    }
    hide SettleStep;
    hide TeardownStep;
    hide ExitStep;
    hide ReadStep;
    hide ClaimedStep;
  }

  lemma DriveOutcome(s: Shared, t: Tid, role: Role, pc: Pc, flag: bool)
    requires pc.Release? ==> !pc.next.Driving?
    ensures OutcomeMoves(s, pc, flag, DriveStep(s, t, role, pc, flag))
  {
    if pc.Settle? {
      SettleOutcome(s, role, pc.t, pc.rev, pc.phase, flag);
    } else if pc.Teardown? {
      TeardownEarns(s, role, pc.step);
    } else {
      RestEarns(s, t, role, pc, flag);
    }
    hide SettleStep;
    hide TeardownStep;
    hide ReadStep;
    hide ExitStep;
    hide ClaimedStep;
  }

  /** A step that publishes nothing, applies nothing and enters no settle pass. */
  predicate Earnless(s: Shared, m: Move) {
    && m.s.life.state == s.life.state && m.s.life.applied == s.life.applied && m.s.life.alive == s.life.alive
    && m.s.past.lastApply == s.past.lastApply && m.s.past.applies == s.past.applies && m.s.life.input == s.life.input
    && (m.th.Driving? ==> !m.th.pc.Settle?)
  }

  lemma KickEarnless(s: Shared, t: Tid, th: Thread, flag: bool)
    requires InKick(th)
    ensures Earnless(s, KickStep(s, t, th, flag))
  {}

  lemma OtherEarnless(s: Shared, t: Tid, th: Thread)
    requires !th.Driving?
    ensures Earnless(s, OtherStep(s, t, th))
  {}

  lemma CancelEarnless(s: Shared, th: Thread)
    requires CanCancel(th)
    ensures Earnless(s, CancelStep(s, th))
  {}

  /** Steps of anybody but the slot owner leave all of it alone. */
  lemma OutsideEarnless(w: World, a: Action, m: Move)
    requires Enabled(w, a) && m == MoveOf(w, a) && (a.Run? ==> !w.threads[a.t].Driving?)
    ensures Earnless(w.s, m)
  {
    hide KickStep;
    hide OtherStep;
    hide CancelStep;
    if a.Cancel? {
      CancelEarnless(w.s, w.threads[a.t]);
    } else if a.Run? {
      if InKick(w.threads[a.t]) { KickEarnless(w.s, a.t, w.threads[a.t], a.flag); } else { OtherEarnless(w.s, a.t, w.threads[a.t]); }
    }
  }

  // ----- the state follows the last apply -----

  /** An apply runs against a complete target with the committed input, and shows Loading. */
  lemma ApplyingFacts(s: Shared, t: Tid, role: Role, pc: Pc)
    requires Global(s) && Local(s, t, Driving(role, pc)) && IsApplying(pc)
    ensures Target(s.life.input, pc.t.edges) == pc.t && !HasMissing(pc.t)
    ensures s.past.lastApply == Some(pc.t) && s.life.state == Loading && s.life.alive && !s.life.lease
  {}

  /** The owner's own step keeps step with the run. */
  lemma OwnOutcome(w: World, t: Tid, flag: bool, ran: Option<Ran>, m: Move)
    requires Inv(w) && t in w.threads && w.threads[t].Driving? && OutcomeOk(w, ran)
    requires m == DriveStep(w.s, t, w.threads[t].role, w.threads[t].pc, flag)
    ensures StateEarned(m.s, RanNext(w, Run(t, flag), ran))
    ensures m.th.Driving? ==> PhaseEarned(m.s, m.th.pc, RanNext(w, Run(t, flag), ran))
  {
    hide DriveStep;
    hide Global;
    var th := w.threads[t];
    assert Local(w.s, t, th);
    assert PhaseEarned(w.s, th.pc, ran);
    if IsApplying(th.pc) { ApplyingFacts(w.s, t, th.role, th.pc); }
    DriveOutcome(w.s, t, th.role, th.pc, flag);
  }

  lemma OutcomeStep(w: World, a: Action, ran: Option<Ran>)
    requires Inv(w) && Enabled(w, a) && OutcomeOk(w, ran)
    ensures OutcomeOk(Do(w, a), RanNext(w, a, ran))
  {
    hide Global;
    hide OwnerOk;
    hide DriveStep;
    var w', m := Do(w, a), MoveOf(w, a);
    if a.Run? && w.threads[a.t].Driving? {
      InvSingleDriver(w);
      OwnOutcome(w, a.t, a.flag, ran, m);
    } else {
      OutsideEarnless(w, a, m);
      forall u | u in w'.threads && w'.threads[u].Driving? ensures PhaseEarned(w'.s, w'.threads[u].pc, RanNext(w, a, ran)) {
        if u != a.t { assert PhaseEarned(w.s, w.threads[u].pc, ran); }
      }
    }
  }

  lemma {:induction false} RunOutcome(ws: seq<World>, acts: seq<Action>, i: nat)
    requires Clean(ws, acts) && Init(ws[0]) && i < |ws|
    ensures OutcomeOk(ws[i], LastRan(ws, acts, i))
  {
    hide Do;
    hide Inv;
    hide OutcomeOk;
    hide RanNext;
    if i == 0 {
      FreshOutcome(ws[0]);
    } else {
      RunOutcome(ws, acts, i - 1);
      InitInv(ws[0]);
      RunKeeps(ws, acts, i - 1);
      OutcomeStep(ws[i - 1], acts[i - 1], LastRan(ws, acts, i - 1));
    }
  }

  lemma FreshOutcome(w: World)
    requires Init(w)
    ensures OutcomeOk(w, None)
  {}

  /** A state that is settled for the live target is the one the last apply of the
      run earned for it, and the other way round. */
  lemma ShowsExactly(s: Shared, ran: Option<Ran>)
    requires Global(s) && StateEarned(s, ran) && (s.life.state == Pending || s.life.state == Active || s.life.state == Failed)
    ensures Shows(s, ran) <==> SettledForLive(s)
  {}
}
