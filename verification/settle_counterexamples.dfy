/** Runs from a fresh Fiber that show where the protocol falls short: a slot with
    an owner that reads IDLE, a handed-off quiescent Fiber that is Pending, and that
    ready reports Pending, although its only dependency is present, and a revision
    that nobody at work will acknowledge. */
module SettleCounterexamples {
  import opened Fibers
  import opened SettleProtocol
  import opened SettleInvariants
  import opened SettleTheorems
  import opened SettleReady

  datatype Trace = Trace(ws: seq<World>, acts: seq<Action>)

  ghost predicate Valid(r: Trace) {
    IsRun(r.ws, r.acts) && Init(r.ws[0]) && |r.ws[0].s.store.live| == 1
  }

  ghost function Now(r: Trace): World
    requires Valid(r)
  {
    r.ws[|r.ws| - 1]
  }

  lemma Extend(r: Trace, a: Action) returns (r': Trace)
    requires Valid(r) && Enabled(Now(r), a)
    ensures Valid(r') && Now(r') == Do(Now(r), a)
  {
    r' := Trace(r.ws + [Do(Now(r), a)], r.acts + [a]);
  }

  /** One step of a slot owner extends the run. */
  lemma Drive(r0: Trace, t: Tid, flag: bool) returns (r: Trace)
    requires Valid(r0) && t in Now(r0).threads && Now(r0).threads[t].Driving?
    ensures Valid(r) && Now(r) == After(Now(r0), t, DriveStep(Now(r0).s, t, Now(r0).threads[t].role, Now(r0).threads[t].pc, flag))
  {
    hide DriveStep;
    r := Extend(r0, Run(t, flag));
  }

  /** One step of a thread that owns nothing and kicks nobody extends the run. */
  lemma Other(r0: Trace, t: Tid) returns (r: Trace)
    requires Valid(r0) && t in Now(r0).threads
    requires !Now(r0).threads[t].Driving? && !Now(r0).threads[t].Writing? && !InKick(Now(r0).threads[t])
    ensures Valid(r) && Now(r) == After(Now(r0), t, OtherStep(Now(r0).s, t, Now(r0).threads[t]))
  {
    hide OtherStep;
    r := Extend(r0, Run(t, false));
  }

  /** One step of a kick inside the Runtime extends the run. */
  lemma Kick(r0: Trace, t: Tid) returns (r: Trace)
    requires Valid(r0) && t in Now(r0).threads && InKick(Now(r0).threads[t])
    ensures Valid(r) && Now(r) == After(Now(r0), t, KickStep(Now(r0).s, t, Now(r0).threads[t], true))
  {
    hide KickStep;
    r := Extend(r0, Run(t, true));
  }

  /** Where thread t is, with the store unlocked. */
  predicate On(w: World, t: Tid, role: Role, pc: Pc) {
    t in w.threads && w.threads[t] == Driving(role, pc) && w.s.store.lock.None?
  }

  /** Everything but the thread t and the record of reads is as before. */
  predicate SameBut(w: World, w': World, t: Tid) {
    && w'.s.store == w.s.store && w'.s.life == w.s.life
    && w'.s.slot.cell == w.s.slot.cell && w'.s.slot.committed == w.s.slot.committed
    && w'.s.past.skipped == w.s.past.skipped && w'.s.past.used == w.s.past.used
    && t in w'.threads && w'.threads == w.threads[t := w'.threads[t]]
  }

  lemma Begin() returns (r: Trace)
    ensures Valid(r) && |r.acts| == 0 && Now(r).s.store.live == [None] && Now(r).s.past.used == {}
  {
    var w := World(
      Shared(Slot(IDLE, 0, 0, None), Store([None], None),
             Life(0, Pending, 0, true, false, false, true, false, true, true, true),
             Past(None, None, {}, 0, 0, None, 0, false, false)),
      map[SPAWN := Waiting(Spawner)]);
    assert Visible([None]) == {};
    r := Trace([w], []);
  }

  /** A release probe on one edge, from its first store to the target it read. */
  lemma ProbeOnce(r0: Trace, t: Tid, role: Role, target: Target, rev: nat) returns (r: Trace)
    requires Valid(r0) && On(Now(r0), t, role, StoreReleasing(target, rev)) && |Now(r0).s.store.live| == 1
    ensures Valid(r) && SameBut(Now(r0), Now(r), t) && Now(r).s.slot.inertia == RELEASING
    ensures Now(r).s.slot == Now(r0).s.slot.(inertia := RELEASING)
    ensures On(Now(r), t, role, LoadObserved(target, rev, LiveTarget(Now(r0).s)))
  {
    hide Valid;
    var none: seq<Option<Occurrence>> := [];
    assert none + [Now(r0).s.store.live[0]] == Now(r0).s.store.live;
    r := Drive(r0, t, false);
    r := Drive(r, t, false);
    r := Drive(r, t, false);
  }

  /** A clean exit recheck on one edge, from its first store to the release. */
  lemma ReleaseClean(r0: Trace, t: Tid, role: Role, target: Target) returns (r: Trace)
    requires Valid(r0) && On(Now(r0), t, role, StoreReleasing(target, Now(r0).s.slot.committed))
    requires target == LiveTarget(Now(r0).s) && |target.edges| == 1
    ensures Valid(r) && SameBut(Now(r0), Now(r), t) && Now(r).s.slot.inertia == IDLE
    ensures Now(r).s.slot.settled == Now(r0).s.slot.committed
    ensures Now(r).threads[t] == if role == Spawner then TailLoad else Finished
  {
    hide Valid;
    r := ProbeOnce(r0, t, role, target, Now(r0).s.slot.committed);
    r := Drive(r, t, false);
    r := Drive(r, t, false);
    r := Drive(r, t, false);
  }

  /** The initial pass reads its target. */
  lemma Admit() returns (r: Trace)
    ensures Valid(r) && Now(r).s.store == Store([None], None)
    ensures Now(r).threads == map[SPAWN := Driving(Spawner, Settle(Target(Now(r).s.life.input, [None]), 0, CheckAlive))]
    ensures Now(r).s.slot == Slot(ACTIVE, 0, 0, None)
    ensures Now(r).s.life.alive && Now(r).s.life.creationPending && !Now(r).s.life.applied && Now(r).s.life.indexed
    ensures Now(r).s.life.state == Pending && Now(r).s.past.used == {}
  {
    hide SettleStep;
    hide ExitStep;
    hide TeardownStep;
    r := Begin();
    r := Other(r, SPAWN);
    r := Drive(r, SPAWN, false);
    r := Drive(r, SPAWN, false);
    var none: seq<Option<Occurrence>> := [];
    assert none + [Now(r).s.store.live[0]] == [None];
    r := Drive(r, SPAWN, false);
    r := Drive(r, SPAWN, false);
  }

  /** The initial pass of a Fiber whose only dependency is Missing, up to the
      test after its release. */
  lemma InitialPass() returns (r: Trace)
    ensures Valid(r) && Now(r).s.store == Store([None], None) && Now(r).threads == map[SPAWN := TailLoad]
    ensures Now(r).s.slot == Slot(IDLE, 0, 0, Some(Target(Now(r).s.life.input, [None])))
    ensures Now(r).s.life.alive && Now(r).s.life.creationPending && !Now(r).s.life.applied && Now(r).s.life.indexed
    ensures Now(r).s.life.state == Pending && Now(r).s.past.used == {}
  {
    hide Valid;
    hide ExitStep;
    hide ReadStep;
    hide TeardownStep;
    hide ClaimedStep;
    r := Admit();
    var missing := Target(Now(r).s.life.input, [None]);
    assert missing.edges[0].None? && HasMissing(missing);
    r := Drive(r, SPAWN, false);
    r := Drive(r, SPAWN, false);
    r := Drive(r, SPAWN, false);
    r := Drive(r, SPAWN, false);
    r := ReleaseClean(r, SPAWN, Spawner, missing);
  }

  /** A provider publishes occurrence o on the only edge, and its kick wins the
      idle slot. */
  lemma PublishAndKick(r0: Trace, t: Tid, o: Occurrence) returns (r: Trace)
    requires Valid(r0) && Now(r0).s.slot.inertia == IDLE && Now(r0).s.store == Store([None], None)
    requires t != SPAWN && t !in Now(r0).threads && o !in Now(r0).s.past.used
    requires Now(r0).s.life.alive && Now(r0).s.life.indexed && Now(r0).s.slot.settled == Now(r0).s.slot.committed
    ensures Valid(r) && Now(r).threads == Now(r0).threads[t := Driving(Kicker, Claimed)]
    ensures Now(r).s.store == Store([Some(o)], None) && Now(r).s.life == Now(r0).s.life
    ensures Now(r).s.slot == Now(r0).s.slot.(inertia := ACTIVE, committed := Now(r0).s.slot.committed + 1)
  {
    r := Extend(r0, Lock(t));
    r := Extend(r, Write(t, [Some(o)]));
    r := Kick(r, t);
    r := Kick(r, t);
    r := Kick(r, t);
    r := Kick(r, t);
    r := Kick(r, t);
  }

  /** Mutual exclusion fails in the creation tail: the initial pass has released
      the slot, a kick claims it, and the initial pass abandons it. */
  lemma CreationTailBreaksSingleDriver()
    ensures exists r :: Valid(r) && !SingleDriver(Now(r))
  {
    var r := InitialPass();
    r := PublishAndKick(r, 1, 7);
    r := Other(r, SPAWN);
    r := Other(r, SPAWN);
    assert Now(r).threads[1].Driving?;
  }

  /** The kick's exit recheck finds drift and hands over to a convergence pass. */
  lemma KickFindsDrift(r0: Trace, t: Tid, o: Occurrence) returns (r: Trace)
    requires Valid(r0) && On(Now(r0), t, Kicker, Claimed) && Now(r0).s.store.live == [Some(o)]
    requires Now(r0).s.slot.cell == Some(Target(Now(r0).s.life.input, [None]))
    ensures Valid(r) && On(Now(r), t, Converger, LoadRevision) && Now(r).s.store == Now(r0).s.store
    ensures Now(r).s.life == Now(r0).s.life && Now(r).s.slot.committed == Now(r0).s.slot.committed
    ensures Now(r).s.slot.inertia == ACTIVE && Now(r).s.slot.cell == Some(LiveTarget(Now(r).s))
    ensures Now(r).threads == Now(r0).threads[t := Driving(Converger, LoadRevision)]
  {
    hide Valid;
    r := Drive(r0, t, false);
    r := Drive(r, t, false);
    r := ProbeOnce(r, t, Kicker, Target(Now(r0).s.life.input, [None]), Now(r0).s.slot.committed);
    r := Drive(r, t, false);
    r := Drive(r, t, false);
    r := Drive(r, t, false);
  }

  /** In the creation window the convergence pass is turned back by the
      first-apply guard. */
  lemma GuardSkips(r0: Trace, t: Tid, o: Occurrence) returns (r: Trace)
    requires Valid(r0) && On(Now(r0), t, Converger, LoadRevision) && Now(r0).s.store.live == [Some(o)]
    requires Now(r0).s.slot.cell == Some(LiveTarget(Now(r0).s))
    requires Now(r0).s.life.alive && Now(r0).s.life.state == Pending
    requires Now(r0).s.life.creationPending && !Now(r0).s.life.applied
    ensures Valid(r) && On(Now(r), t, Converger, Read(Compare(LiveTarget(Now(r).s), Now(r).s.slot.committed), Now(r).s.life.input, []))
    ensures Now(r).s.store == Now(r0).s.store && Now(r).s.life == Now(r0).s.life && Now(r).s.slot == Now(r0).s.slot
    ensures Now(r).threads == Now(r0).threads[t := Now(r).threads[t]]
  {
    hide Valid;
    assert !HasMissing(LiveTarget(Now(r0).s));
    r := Drive(r0, t, false);
    r := Drive(r, t, false);
    r := Drive(r, t, false);
    r := Drive(r, t, false);
    r := Drive(r, t, false);
    r := Drive(r, t, false);
  }

  lemma CompareEqual(r0: Trace, t: Tid, o: Occurrence) returns (r: Trace)
    requires Valid(r0) && Now(r0).s.store.live == [Some(o)]
    requires On(Now(r0), t, Converger, Read(Compare(LiveTarget(Now(r0).s), Now(r0).s.slot.committed), Now(r0).s.life.input, []))
    ensures Valid(r) && On(Now(r), t, Converger, StoreReleasing(LiveTarget(Now(r).s), Now(r).s.slot.committed))
    ensures Now(r).s.store == Now(r0).s.store && Now(r).s.life == Now(r0).s.life && Now(r).s.slot == Now(r0).s.slot
    ensures Now(r).threads == Now(r0).threads[t := Now(r).threads[t]]
  {
    hide Valid;
    var none: seq<Option<Occurrence>> := [];
    assert none + [Now(r0).s.store.live[0]] == [Some(o)];
    r := Drive(r0, t, false);
    r := Drive(r, t, false);
  }

  /** The spawn transaction hands the Fiber off. */
  lemma HandOff(r0: Trace) returns (r: Trace)
    requires Valid(r0) && SPAWN in Now(r0).threads && Now(r0).threads[SPAWN] == TailLoad
    requires Now(r0).s.slot.inertia == IDLE && Now(r0).s.life.alive
    ensures Valid(r) && SPAWN in Now(r).threads && Now(r).threads[SPAWN] == Finished && Now(r).s.slot == Now(r0).s.slot
    ensures Now(r).s.store == Now(r0).s.store && Now(r).s.life == Now(r0).s.life.(creationPending := false)
  {
    hide Valid;
    hide SettleStep;
    hide ExitStep;
    hide TeardownStep;
    hide ReadStep;
    r := Other(r0, SPAWN);
    r := Other(r, SPAWN);
    r := Drive(r, SPAWN, false);
    r := Drive(r, SPAWN, false);
    r := Other(r, SPAWN);
  }

  /** Handed off, alive, quiescent, and Pending with nothing missing. */
  predicate LostActivation(w: World) {
    && PastHandoff(w) && Quiescent(w) && w.s.life.alive && !w.s.life.creationPending
    && w.s.life.state == Pending && !HasMissing(LiveTarget(w.s))
  }

  /** The publication is seen, compared and skipped before the handoff. */
  lemma SkippedPass() returns (r: Trace)
    ensures Valid(r) && On(Now(r), 1, Converger, StoreReleasing(LiveTarget(Now(r).s), Now(r).s.slot.committed))
    ensures Now(r).s.store.live == [Some(7)] && SPAWN in Now(r).threads && Now(r).threads[SPAWN] == TailLoad
    ensures Now(r).s.life.alive && Now(r).s.life.state == Pending
  {
    r := InitialPass();
    r := PublishAndKick(r, 1, 7);
    r := KickFindsDrift(r, 1, 7);
    r := GuardSkips(r, 1, 7);
    r := CompareEqual(r, 1, 7);
  }

  /** A whole ready round at instant i answers Pending for a complete target. */
  ghost predicate LostAnswer(ws: seq<World>, i: nat)
    requires i < |ws|
  {
    LostActivation(ws[i]) && ReadyRound(ws, i, i, i, i, i) && !SettledForLive(ws[i].s)
  }

  /** A ready round that makes its loads at any instant at which the activation is
      lost passes all its tests and answers Pending for a complete target. */
  lemma LostIsAnswered(r: Trace, i: nat)
    requires i < |r.ws| && LostActivation(r.ws[i])
    ensures LostAnswer(r.ws, i)
  {}

  /** Activation is lost in the handoff window: a publication between the initial
      pass's release and the end of the creation is acknowledged by a pass that
      may not apply, the handed-off Fiber rests Pending for a complete target, and
      ready answers Pending. */
  lemma HandoffWindowLosesActivation()
    ensures exists r, i: nat :: Valid(r) && i < |r.ws| && LostAnswer(r.ws, i)
  {
    var r := SkippedPass();
    r := ReleaseClean(r, 1, Converger, LiveTarget(Now(r).s));
    r := HandOff(r);
    var i := |r.ws| - 1;
    LostIsAnswered(r, i);
    assert Valid(r) && i < |r.ws| && LostAnswer(r.ws, i);
  }

  /** Handed off and alive with nobody at work and no kick under way, and yet a
      revision is outstanding: the only dependency is present and unseen. */
  predicate LostWakeup(w: World) {
    && PastHandoff(w) && w.s.life.alive && !w.s.life.creationPending && w.s.slot.inertia == IDLE
    && (forall t :: t in w.threads ==> w.threads[t].Finished?)
    && w.s.slot.committed != w.s.slot.settled && w.s.life.state == Pending && !HasMissing(LiveTarget(w.s))
  }

  /** The spawn transaction owns the slot for its last look before the handoff. */
  lemma HandoffClaims() returns (r: Trace)
    ensures Valid(r) && Now(r).threads == map[SPAWN := Driving(Handoff, Release(HandoffStore))]
    ensures Now(r).s.slot.inertia == ACTIVE && Now(r).s.slot.committed == 0 && Now(r).s.slot.settled == 0
    ensures Now(r).s.store == Store([None], None) && Now(r).s.past.used == {}
    ensures Now(r).s.life.alive && Now(r).s.life.indexed && Now(r).s.life.state == Pending
  {
    hide Valid;
    hide SettleStep;
    hide ExitStep;
    hide TeardownStep;
    hide ReadStep;
    r := InitialPass();
    r := Other(r, SPAWN);
    r := Other(r, SPAWN);
    r := Drive(r, SPAWN, false);
  }

  /** A provider publishes; its kick finds an owner and trusts it. */
  lemma PublishTrusts(r0: Trace, t: Tid, o: Occurrence) returns (r: Trace)
    requires Valid(r0) && Now(r0).s.slot.inertia == ACTIVE && Now(r0).s.store == Store([None], None)
    requires t != SPAWN && t !in Now(r0).threads && o !in Now(r0).s.past.used
    requires Now(r0).s.life.alive && Now(r0).s.life.indexed && Now(r0).s.slot.settled == Now(r0).s.slot.committed
    ensures Valid(r) && Now(r).threads == Now(r0).threads[t := Finished]
    ensures Now(r).s.store == Store([Some(o)], None) && Now(r).s.life == Now(r0).s.life
    ensures Now(r).s.slot == Now(r0).s.slot.(committed := Now(r0).s.slot.committed + 1)
  {
    r := Extend(r0, Lock(t));
    r := Extend(r, Write(t, [Some(o)]));
    r := Kick(r, t);
    r := Kick(r, t);
    r := Kick(r, t);
    r := Kick(r, t);
  }

  /** The holder that a kick trusts may be one that gives the slot back without a
      recheck: here the spawn transaction, which only looked whether the Fiber is
      alive. The revision stays outstanding until something else drives. */
  lemma HandoffLosesWakeup()
    ensures exists r :: Valid(r) && LostWakeup(Now(r))
  {
    hide Valid;
    hide SettleStep;
    hide ExitStep;
    hide TeardownStep;
    hide ReadStep;
    var r := HandoffClaims();
    r := PublishTrusts(r, 1, 7);
    r := Drive(r, SPAWN, false);
    r := Other(r, SPAWN);
    assert LostWakeup(Now(r));
  }
}
