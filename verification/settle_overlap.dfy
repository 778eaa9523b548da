/** What a stale abandon costs: a run from a fresh Fiber in which two settle
    passes are inside the apply of the delivered Fiber at the same time. */
module SettleOverlap {
  import opened Fibers
  import opened SettleProtocol
  import opened SettleInvariants
  import opened SettleTheorems
  import opened SettleCounterexamples

  /** Two threads are inside an apply of a live Fiber whose creation is over. */
  predicate OverlappingApplies(w: World) {
    && PastHandoff(w) && !w.s.life.creationPending && w.s.life.alive
    && exists t, u :: t in w.threads && u in w.threads && t != u
        && w.threads[t].Driving? && w.threads[u].Driving? && IsApplying(w.threads[t].pc) && IsApplying(w.threads[u].pc)
  }

  /** Between the initial pass's release and its test the slot found a new owner:
      the initial pass abandons that owner's slot and hands the Fiber off. */
  lemma AbandonAndHandOff(r0: Trace) returns (r: Trace)
    requires Valid(r0) && SPAWN in Now(r0).threads && Now(r0).threads[SPAWN] == TailLoad
    requires Now(r0).s.slot.inertia == ACTIVE && Now(r0).s.life.alive
    ensures Valid(r) && Now(r).threads == Now(r0).threads[SPAWN := Finished]
    ensures Now(r).s.slot == Now(r0).s.slot.(inertia := IDLE)
    ensures Now(r).s.store == Now(r0).s.store && Now(r).s.life == Now(r0).s.life.(creationPending := false)
  {
    hide Valid;
    hide SettleStep;
    hide ExitStep;
    hide TeardownStep;
    hide ReadStep;
    r := Other(r0, SPAWN);
    r := Other(r, SPAWN);
    r := Other(r, SPAWN);
    r := Drive(r, SPAWN, false);
    r := Drive(r, SPAWN, false);
    r := Other(r, SPAWN);
  }

  /** A restart arrives and wins the IDLE slot of a delivered Fiber. */
  lemma RestartClaims(r0: Trace, t: Tid) returns (r: Trace)
    requires Valid(r0) && t != SPAWN && t !in Now(r0).threads && Now(r0).s.store.lock.None?
    requires Now(r0).s.slot.inertia == IDLE && Now(r0).s.life.alive && !Now(r0).s.life.creationPending
    ensures Valid(r) && On(Now(r), t, Restarter, LoadRevision)
    ensures Now(r).threads == Now(r0).threads[t := Driving(Restarter, LoadRevision)]
    ensures Now(r).s.slot == Now(r0).s.slot.(inertia := ACTIVE)
    ensures Now(r).s.store == Now(r0).s.store && Now(r).s.life == Now(r0).s.life
  {
    hide SettleStep;
    hide ExitStep;
    hide TeardownStep;
    hide ReadStep;
    r := Extend(r0, Arrive(t, Waiting(Restarter)));
    r := Other(r, t);
    r := Drive(r, t, false);
  }

  /** The restart reads its target from one edge and records it. */
  lemma RestartReads(r0: Trace, t: Tid, o: Occurrence) returns (r: Trace)
    requires Valid(r0) && On(Now(r0), t, Restarter, LoadRevision) && Now(r0).s.store.live == [Some(o)]
    ensures Valid(r) && On(Now(r), t, Restarter, Settle(LiveTarget(Now(r).s), Now(r).s.slot.committed, CheckAlive))
    ensures Now(r).threads == Now(r0).threads[t := Now(r).threads[t]]
    ensures Now(r).s.slot == Now(r0).s.slot.(cell := Some(LiveTarget(Now(r).s)))
    ensures Now(r).s.store == Now(r0).s.store && Now(r).s.life == Now(r0).s.life
  {
    hide Valid;
    hide SettleStep;
    hide ExitStep;
    hide TeardownStep;
    var none: seq<Option<Occurrence>> := [];
    assert none + [Now(r0).s.store.live[0]] == [Some(o)];
    r := Drive(r0, t, false);
    r := Drive(r, t, false);
    r := Drive(r, t, false);
    r := Drive(r, t, false);
  }

  /** The convergence pass goes on with the target in the cell. */
  lemma ConvergerLoads(r0: Trace, t: Tid) returns (r: Trace)
    requires Valid(r0) && On(Now(r0), t, Converger, LoadRevision) && Now(r0).s.slot.cell == Some(LiveTarget(Now(r0).s))
    ensures Valid(r) && On(Now(r), t, Converger, Settle(LiveTarget(Now(r).s), Now(r).s.slot.committed, CheckAlive))
    ensures Now(r).threads == Now(r0).threads[t := Now(r).threads[t]] && Now(r).s == Now(r0).s
  {
    hide Valid;
    hide SettleStep;
    hide ExitStep;
    hide TeardownStep;
    r := Drive(r0, t, false);
    r := Drive(r, t, false);
  }

  /** Only the thread t and the published state move. */
  predicate Settling(w: World, w': World, t: Tid) {
    && w'.s.store == w.s.store && w'.s.slot == w.s.slot
    && t in w'.threads && w'.threads == w.threads[t := w'.threads[t]]
    && w'.s.life.alive == w.s.life.alive && w'.s.life.creationPending == w.s.life.creationPending
    && w'.s.life.input == w.s.life.input
  }

  /** A pass closes the old generation, or what another pass has just opened. */
  lemma ClosesOld(r0: Trace, t: Tid, role: Role, target: Target, rev: nat) returns (r: Trace)
    requires Valid(r0) && On(Now(r0), t, role, Settle(target, rev, CheckAlive)) && Now(r0).s.life.alive
    requires Now(r0).s.life.state == Pending || Now(r0).s.life.state == Loading
    ensures Valid(r) && On(Now(r), t, role, Settle(target, rev, CheckMissing)) && Settling(Now(r0), Now(r), t)
  {
    hide Valid;
    hide AfterSettle;
    hide HasMissing;
    hide ReadStep;
    hide ExitStep;
    hide TeardownStep;
    hide ClaimedStep;
    r := Drive(r0, t, false);
    r := Drive(r, t, false);
    if Now(r0).s.life.state == Loading { r := Drive(r, t, false); }
  }

  /** With nothing missing and the creation over, nothing turns the pass back. */
  lemma GoesOn(r0: Trace, t: Tid, role: Role, target: Target, rev: nat) returns (r: Trace)
    requires Valid(r0) && On(Now(r0), t, role, Settle(target, rev, CheckMissing)) && !HasMissing(target)
    requires !Now(r0).s.life.creationPending
    ensures Valid(r) && On(Now(r), t, role, Settle(target, rev, Open)) && Settling(Now(r0), Now(r), t)
  {
    hide Valid;
    hide AfterSettle;
    hide HasMissing;
    r := Drive(r0, t, false);
    r := Drive(r, t, false);
  }

  lemma OpenMove(s: Shared, t: Tid, role: Role, target: Target, rev: nat)
    ensures var m := DriveStep(s, t, role, Settle(target, rev, Open), false);
      && m.th == Driving(role, Settle(target, rev, Applying)) && m.s.slot == s.slot && m.s.store == s.store
      && m.s.life.alive == s.life.alive && m.s.life.creationPending == s.life.creationPending
      && m.s.life.input == s.life.input && m.s.life.state == Loading
  {}

  /** A new generation opens: the apply begins. */
  lemma OpensNew(r0: Trace, t: Tid, role: Role, target: Target, rev: nat) returns (r: Trace)
    requires Valid(r0) && On(Now(r0), t, role, Settle(target, rev, Open))
    ensures Valid(r) && On(Now(r), t, role, Settle(target, rev, Applying)) && Settling(Now(r0), Now(r), t)
    ensures Now(r).s.life.state == Loading
  {
    hide Valid;
    hide DriveStep;
    OpenMove(Now(r0).s, t, role, target, rev);
    r := Drive(r0, t, false);
  }

  lemma Applies(r0: Trace, t: Tid, role: Role, rev: nat, o: Occurrence) returns (r: Trace)
    requires Valid(r0) && On(Now(r0), t, role, Settle(LiveTarget(Now(r0).s), rev, CheckAlive)) && Now(r0).s.life.alive
    requires Now(r0).s.life.state == Pending || Now(r0).s.life.state == Loading
    requires !Now(r0).s.life.creationPending && Now(r0).s.store.live == [Some(o)]
    ensures Valid(r) && On(Now(r), t, role, Settle(LiveTarget(Now(r).s), rev, Applying)) && Settling(Now(r0), Now(r), t)
    ensures Now(r).s.life.state == Loading
  {
    hide Valid;
    assert !HasMissing(LiveTarget(Now(r0).s));
    r := ClosesOld(r0, t, role, LiveTarget(Now(r0).s), rev);
    r := GoesOn(r, t, role, LiveTarget(Now(r0).s), rev);
    r := OpensNew(r, t, role, LiveTarget(Now(r0).s), rev);
  }

  /** A kick's convergence pass keeps its program while the Fiber it converges is
      handed off with an IDLE slot. */
  lemma LosesItsSlot() returns (r: Trace)
    ensures Valid(r) && Now(r).threads == map[SPAWN := Finished, 1 := Driving(Converger, LoadRevision)]
    ensures Now(r).s.slot.inertia == IDLE && Now(r).s.slot.committed == 1 && Now(r).s.slot.cell == Some(LiveTarget(Now(r).s))
    ensures Now(r).s.store == Store([Some(7)], None)
    ensures Now(r).s.life.alive && Now(r).s.life.state == Pending && !Now(r).s.life.creationPending
  {
    hide Valid;
    r := InitialPass();
    r := PublishAndKick(r, 1, 7);
    r := KickFindsDrift(r, 1, 7);
    r := AbandonAndHandOff(r);
  }

  lemma BothApply() returns (r: Trace)
    ensures Valid(r) && Now(r).threads.Keys == {SPAWN, 1, 2} && Now(r).threads[SPAWN] == Finished
    ensures Now(r).s.life.alive && !Now(r).s.life.creationPending
    ensures Now(r).threads[1].Driving? && Now(r).threads[1].pc == Settle(LiveTarget(Now(r).s), 1, Applying)
    ensures Now(r).threads[2].Driving? && Now(r).threads[2].pc == Settle(LiveTarget(Now(r).s), 1, Applying)
  {
    hide Valid;
    r := LosesItsSlot();
    r := RestartClaims(r, 2);
    r := RestartReads(r, 2, 7);
    r := Applies(r, 2, Restarter, 1, 7);
    r := ConvergerLoads(r, 1);
    r := Applies(r, 1, Converger, 1, 7);
  }

  /** After a stale abandon, passes overlap on a delivered Fiber: a restart and the
      convergence pass that lost its slot both apply. */
  lemma AbandonOverlapsApplies()
    ensures exists r :: Valid(r) && OverlappingApplies(Now(r))
  {
    hide Valid;
    var r := BothApply();
    assert 1 in Now(r).threads && 2 in Now(r).threads;
    assert OverlappingApplies(Now(r));
  }
}
