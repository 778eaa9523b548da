/** Every step of the settle protocol keeps the invariant, with one exception. */
module SettleSteps {
  import opened Fibers
  import opened SettleProtocol
  import opened SettleInvariants

  /** The one step that can break the invariant: the initial pass, its slot
      already released, abandons a slot that is not IDLE and so is someone else's. */
  predicate StaleAbandon(w: World, a: Action) {
    a.Run? && a.t in w.threads && w.threads[a.t].TailStore? && w.s.slot.inertia != IDLE
  }

  // ----- what a step of another thread leaves true of the slot owner -----

  /** A step of a thread that does not own the slot. */
  ghost predicate Outside(s: Shared, s': Shared) {
    && s'.slot.settled == s.slot.settled && s'.slot.cell == s.slot.cell && s'.life.input == s.life.input && s'.life.state == s.life.state
    && s'.life.alive == s.life.alive && s'.life.applied == s.life.applied && s'.life.indexed == s.life.indexed && s'.life.lease == s.life.lease
    && s'.past.seen == s.past.seen && s'.past.lastApply == s.past.lastApply
    && s'.past.skipped == s.past.skipped && s'.past.released == s.past.released
    && s.slot.committed <= s'.slot.committed && s.past.used <= s'.past.used && |s'.store.live| == |s.store.live|
    && (s.life.complete ==> s'.life.complete)
    && (s'.store.live != s.store.live ==> s'.slot.committed == s.slot.committed)
    // an occurrence that left an edge does not come back
    && (forall i: nat, o :: Gone(s, i, o) ==> Gone(s', i, o))
    // a write happens only for a revision later than any completed one
    && (s'.store.live != s.store.live && s.life.indexed ==> s.past.written < s.slot.committed)
  }

  lemma ProbeStable(s: Shared, s': Shared, t: Target, acc: seq<Option<Occurrence>>)
    requires Outside(s, s') && ProbeOk(s, t, acc)
    ensures ProbeOk(s', t, acc)
  {
    if !Reflects(s, t) {
      var i :| StaleAt(s, t, acc, i);
      assert StaleAt(s', t, acc, i);
    }
  }

  lemma RestStable(s: Shared, s': Shared)
    requires Outside(s, s') && Global(s) && Rest(s)
    ensures Rest(s')
  {
    if s.slot.cell.Some? && s.life.alive {
      ProbeStable(s, s', s.slot.cell.value, []);
    }
  }

  lemma CoveredStable(s: Shared, s': Shared)
    requires Outside(s, s') && CellCovered(s)
    ensures CellCovered(s')
  {
    if s.life.alive { ProbeStable(s, s', s.slot.cell.value, []); }
  }

  lemma FreshStable(s: Shared, s': Shared, rev: nat, acc: seq<Option<Occurrence>>)
    requires Outside(s, s') && Global(s) && Fresh(s, rev, acc)
    ensures Fresh(s', rev, acc)
  {}

  lemma AdmitStable(s: Shared, s': Shared, role: Role, t: Target)
    requires Outside(s, s') && AdmitOk(s, role, t)
    ensures AdmitOk(s', role, t)
  {}

  predicate Probing(pc: Pc) {
    pc.StoreReleasing? || pc.LoadObserved? || pc.StoreSettled? || pc.CasIdle? || pc.ReloadRevision? || (pc.Read? && pc.use.Probe?)
  }

  lemma ProbingStable(s: Shared, s': Shared, role: Role, pc: Pc)
    requires Outside(s, s') && Global(s) && OwnerOk(s, role, pc) && Probing(pc)
    ensures OwnerOk(s', role, pc)
  {
    hide ProbeOk;
    hide CellCovered;
    hide Fresh;
    hide Global;
    CoveredStable(s, s');
    if pc.StoreSettled? || pc.CasIdle? {
      FreshStable(s, s', pc.rev, pc.t.edges);
    } else if pc.LoadObserved? {
      FreshStable(s, s', pc.rev, pc.live.edges);
      if s.life.alive { ProbeStable(s, s', pc.t, pc.live.edges); }
    } else if pc.Read? {
      FreshStable(s, s', pc.use.rev, pc.acc);
      if s.life.alive { ProbeStable(s, s', pc.use.t, pc.acc); }
    } else if s.life.alive {
      ProbeStable(s, s', pc.t, []);
    }
  }

  lemma OwnerStable(s: Shared, s': Shared, role: Role, pc: Pc)
    requires Outside(s, s') && Global(s) && OwnerOk(s, role, pc)
    ensures OwnerOk(s', role, pc)
  {
    hide ProbeOk;
    hide CellCovered;
    hide Fresh;
    hide Rest;
    hide AdmitOk;
    if Probing(pc) {
      ProbingStable(s, s', role, pc);
    } else if pc.Settle? || pc.MarkPending? {
      AdmitStable(s, s', role, pc.t);
    } else if pc.Read? && pc.use.Compare? {
      AdmitStable(s, s', role, pc.use.t);
    } else if Rest(s) {
      RestStable(s, s');
    }
  }

  // ----- what a step of thread t leaves true of every other thread -----

  /** Thread t changes ownership fields only on its own behalf. */
  predicate OwnBehalf(s: Shared, s': Shared, t: Tid) {
    && (s'.past.holder == s.past.holder || (s.past.holder.None? && s'.past.holder == Some(t)) || (s.past.holder == Some(t) && s'.past.holder.None?))
    && (s'.store.lock == s.store.lock || (s.store.lock.None? && s'.store.lock == Some(t)) || (s.store.lock == Some(t) && s'.store.lock.None?))
    && (s.store.lock.Some? && s.store.lock != Some(t) ==> s'.slot.committed == s.slot.committed && s'.past.written == s.past.written)
    && (s'.past.closer == s.past.closer || (s.past.closer.None? && s'.past.closer == Some(t)))
    && (s'.life.complete != s.life.complete ==> s'.life.complete && s.past.closer == Some(t))
    && (s'.life.resident ==> s.life.resident) && (s.past.released ==> s'.past.released)
    && s.slot.committed <= s'.slot.committed
  }

  lemma ClaimLocalStable(s: Shared, s': Shared, t: Tid, u: Tid, th: Thread)
    requires u != t && ClaimLocal(s, u, th) && OwnBehalf(s, s', t)
    requires s'.life.indexed ==> s.life.indexed
    ensures ClaimLocal(s', u, th)
  {}

  lemma TerminalLocalStable(s: Shared, s': Shared, t: Tid, u: Tid, th: Thread)
    requires u != t && TerminalLocal(s, u, th) && OwnBehalf(s, s', t)
    requires s'.life.indexed == s.life.indexed && s'.life.state == s.life.state && s'.life.alive == s.life.alive
    requires Inheriting(th) ==> s'.past.closer == s.past.closer
    ensures TerminalLocal(s', u, th)
  {}

  lemma BesideStable(s: Shared, s': Shared, t: Tid, u: Tid, th: Thread)
    requires u != t && Global(s) && Local(s, u, th) && Outside(s, s') && OwnBehalf(s, s', t)
    requires Inheriting(th) ==> s'.past.closer == s.past.closer
    ensures Local(s', u, th)
  {
    ClaimLocalStable(s, s', t, u, th);
    TerminalLocalStable(s, s', t, u, th);
    if th.Driving? { OwnerStable(s, s', th.role, th.pc); }
  }

  // ----- steps of threads that do not own the slot -----

  /** The pieces of the invariant after thread t has moved. */
  lemma Assemble(w: World, t: Tid, m: Move)
    requires Inv(w) && Global(m.s) && Local(m.s, t, m.th)
    requires forall u :: u in w.threads && u != t ==> Local(m.s, u, w.threads[u])
    requires Witnessed(After(w, t, m))
    ensures Inv(After(w, t, m))
  {}

  /** A move of a thread that does not own the slot. */
  lemma OutsideKeeps(w: World, t: Tid, m: Move)
    requires Inv(w) && Global(m.s) && Local(m.s, t, m.th)
    requires Outside(w.s, m.s) && OwnBehalf(w.s, m.s, t)
    requires t in w.threads ==> !w.threads[t].Driving?
    requires Inheriting(m.th) <==> false
    requires forall u :: u in w.threads && Inheriting(w.threads[u]) ==> m.s.past.closer == w.s.past.closer
    requires Witnessed(After(w, t, m))
    ensures Inv(After(w, t, m))
  {
    hide Outside;
    hide OwnBehalf;
    hide Global;
    hide OwnerOk;
    hide LifeLocal;
    forall u | u in w.threads && u != t
      ensures Local(m.s, u, w.threads[u])
    {
      BesideStable(w.s, m.s, t, u, w.threads[u]);
    }
    Assemble(w, t, m);
  }

  lemma SameShared(s: Shared, t: Tid)
    ensures Outside(s, s) && OwnBehalf(s, s, t)
  {}

  /** A thread with no role in ownership, the store or the terminal barrier. */
  predicate Plain(th: Thread) {
    !th.Driving? && !th.Writing? && !Closing(th) && !SpawnSide(th) && th != Returned
    && (th.Waiting? ==> th.role != Kicker && th.role != Converger)
  }

  lemma PlainLocal(s: Shared, t: Tid, th: Thread)
    requires Plain(th) && s.past.holder != Some(t) && s.store.lock != Some(t) && (InKick(th) ==> th.rev <= s.slot.committed)
    ensures Local(s, t, th)
  {}

  lemma ArriveKeeps(w: World, t: Tid, th: Thread)
    requires Inv(w) && t !in w.threads && t != SPAWN && CanArrive(w.s, th)
    ensures Inv(After(w, t, Move(w.s, th)))
  {
    hide OwnerOk;
    hide LifeLocal;
    hide TerminalLocal;
    hide Global;
    PlainLocal(w.s, t, th);
    Assemble(w, t, Move(w.s, th));
  }

  lemma LockGlobal(s: Shared, t: Tid)
    requires Global(s) && s.store.lock.None? && |s.store.live| > 0
    ensures var s' := LockStore(s, t).s; Outside(s, s') && OwnBehalf(s, s', t) && Global(s')
  {
    var s' := LockStore(s, t).s;
    assert Outside(s, s');
    if Rest(s) { RestStable(s, s'); }
  }

  lemma LockKeeps(w: World, t: Tid)
    requires Inv(w) && t !in w.threads && t != SPAWN && w.s.store.lock.None? && |w.s.store.live| > 0
    ensures Inv(After(w, t, LockStore(w.s, t)))
  {
    LockGlobal(w.s, t);
    OutsideKeeps(w, t, LockStore(w.s, t));
  }

  lemma VisibleIsUsed(edges: seq<Option<Occurrence>>, i: nat)
    requires i < |edges| && edges[i].Some?
    ensures edges[i].value in Visible(edges)
  {}

  lemma WriteGlobal(s: Shared, t: Tid, rev: nat, next: seq<Option<Occurrence>>)
    requires Global(s) && s.store.lock == Some(t) && ClaimLocal(s, t, Writing(rev)) && FreshWrite(s, next)
    ensures var s' := WriteStore(s, rev, next).s; Outside(s, s') && OwnBehalf(s, s', t) && Global(s')
  {
    var s' := WriteStore(s, rev, next).s;
    assert Outside(s, s');
    if Rest(s) { RestStable(s, s'); }
    forall i | 0 <= i < |s'.store.live| && s'.store.live[i].Some?
      ensures s'.store.live[i].value in s'.past.used
    {
      VisibleIsUsed(next, i);
    }
  }

  lemma WriteKeeps(w: World, t: Tid, next: seq<Option<Occurrence>>)
    requires Inv(w) && t in w.threads && w.threads[t].Writing? && FreshWrite(w.s, next)
    ensures Inv(After(w, t, WriteStore(w.s, w.threads[t].rev, next)))
  {
    hide Outside;
    hide OwnBehalf;
    hide Global;
    hide OwnerOk;
    hide LifeLocal;
    assert Local(w.s, t, w.threads[t]);
    WriteGlobal(w.s, t, w.threads[t].rev, next);
    var m := WriteStore(w.s, w.threads[t].rev, next);
    PlainLocal(m.s, t, m.th);
    OutsideKeeps(w, t, m);
  }

  lemma ClaimGlobal(s: Shared, t: Tid, role: Role)
    requires Global(s) && s.slot.inertia == IDLE
    ensures var s' := Claim(s, t, role).s;
      Outside(s, s') && OwnBehalf(s, s', t) && Global(s') && Rest(s') && Quiet(s') && s'.life.lease
  {
    var s' := Claim(s, t, role).s;
    assert Outside(s, s');
    RestStable(s, s');
  }

  /** Winning the slot. */
  lemma ClaimedLocal(s: Shared, t: Tid, role: Role, th: Thread)
    requires Global(s) && Local(s, t, th) && s.slot.inertia == IDLE
    requires (InKick(th) && role == Kicker) || th == Waiting(role)
    ensures Local(Claim(s, t, role).s, t, Driving(role, Claimed))
  {
    ClaimGlobal(s, t, role);
  }

  lemma ClaimKeeps(w: World, t: Tid, role: Role)
    requires Inv(w) && t in w.threads && w.s.slot.inertia == IDLE
    requires (InKick(w.threads[t]) && role == Kicker) || w.threads[t] == Waiting(role)
    ensures Inv(After(w, t, Claim(w.s, t, role)))
  {
    hide Outside;
    hide OwnBehalf;
    hide Global;
    hide OwnerOk;
    hide LifeLocal;
    hide Rest;
    hide TerminalLocal;
    var m := Claim(w.s, t, role);
    assert Local(w.s, t, w.threads[t]);
    ClaimGlobal(w.s, t, role);
    ClaimedLocal(w.s, t, role, w.threads[t]);
    OutsideKeeps(w, t, m);
  }

  /** A kick that leaves its work to the holder. */
  lemma ReclaimGlobal(s: Shared, t: Tid)
    requires Global(s) && s.slot.inertia != IDLE
    ensures var s' := s.(slot := s.slot.(inertia := ACTIVE));
      Outside(s, s') && OwnBehalf(s, s', t) && Global(s')
  {
    var s' := s.(slot := s.slot.(inertia := ACTIVE));
    assert Outside(s, s');
    if Rest(s) { RestStable(s, s'); }
  }

  /** What one step of a kick does, unless it wins the slot. */
  lemma KickMove(s: Shared, t: Tid, th: Thread, flag: bool)
    requires InKick(th) && th.rev <= s.slot.committed && !(th.KickCasIdle? && s.slot.inertia == IDLE)
    ensures var m := KickStep(s, t, th, flag);
      && Plain(m.th) && (InKick(m.th) ==> m.th.rev <= s.slot.committed)
      && (m.s == s || (s.slot.inertia != IDLE && m.s == s.(slot := s.slot.(inertia := ACTIVE))))
  {}

  lemma PlainKeeps(w: World, t: Tid, m: Move)
    requires Inv(w) && Global(m.s) && Outside(w.s, m.s) && OwnBehalf(w.s, m.s, t) && m.s.past.closer == w.s.past.closer
    requires m.s.life.complete == w.s.life.complete && m.s.life.alive == w.s.life.alive
    requires t in w.threads ==> !Closing(w.threads[t]) && !Inheriting(w.threads[t])
    requires Plain(m.th) && m.s.past.holder != Some(t) && m.s.store.lock != Some(t) && (InKick(m.th) ==> m.th.rev <= m.s.slot.committed)
    requires t in w.threads ==> !w.threads[t].Driving?
    ensures Inv(After(w, t, m))
  {
    hide Outside;
    hide Global;
    hide OwnerOk;
    PlainLocal(m.s, t, m.th);
    OutsideKeeps(w, t, m);
  }

  lemma KickKeeps(w: World, t: Tid, flag: bool)
    requires Inv(w) && t in w.threads && InKick(w.threads[t])
    ensures Inv(After(w, t, KickStep(w.s, t, w.threads[t], flag)))
  {
    var s, th := w.s, w.threads[t];
    assert Local(s, t, th);
    if th.KickCasIdle? && s.slot.inertia == IDLE {
      ClaimKeeps(w, t, Kicker);
    } else {
      KickMove(s, t, th, flag);
      SameShared(s, t);
      if s.slot.inertia != IDLE { ReclaimGlobal(s, t); }
      PlainKeeps(w, t, KickStep(s, t, th, flag));
    }
  }

  // ----- the remaining steps outside the slot -----

  lemma FieldGlobal(s: Shared, s': Shared, t: Tid)
    requires Global(s)
    requires || (s' == s.(life := s.life.(creationPending := false)) && s.past.released)
             || s' == s.(life := s.life.(resident := false))
             || (s' == s.(life := s.life.(complete := true)) && s.life.state == Disposed && !s.life.alive
                 && !s.life.indexed && !s.life.resident && s.past.closer == Some(t))
             || (s' == Close(s, t))
    ensures Outside(s, s') && OwnBehalf(s, s', t) && Global(s')
  {
    assert Outside(s, s');
    if Rest(s) { RestStable(s, s'); }
  }

  lemma StillLocal(s: Shared, t: Tid, th: Thread, next: Thread)
    requires Local(s, t, th) && !th.Driving? && !th.Writing? && !Closing(th) && !Inheriting(th)
    requires !next.Driving? && !next.Writing? && !Closing(next) && !InKick(next)
    requires next.Waiting? ==> next.role != Kicker && next.role != Converger
    requires (HandingOff(next) ==> HandingOff(th)) && (SpawnSide(next) ==> SpawnSide(th)) && (next == Returned ==> s.life.complete)
    ensures Local(s, t, next)
  {
    hide OwnerOk;
  }

  /** A thread moves on and leaves the shared state alone. */
  lemma StillKeeps(w: World, t: Tid, next: Thread)
    requires Inv(w) && t in w.threads && !w.threads[t].Driving? && !w.threads[t].Writing?
    requires !Closing(w.threads[t]) && !Inheriting(w.threads[t])
    requires !next.Driving? && !next.Writing? && !Closing(next) && !InKick(next)
    requires next.Waiting? ==> next.role != Kicker && next.role != Converger
    requires HandingOff(next) ==> HandingOff(w.threads[t])
    requires (SpawnSide(next) ==> SpawnSide(w.threads[t])) && (next == Returned ==> w.s.life.complete)
    ensures Inv(After(w, t, Move(w.s, next)))
  {
    hide Outside;
    hide OwnBehalf;
    hide Global;
    hide OwnerOk;
    hide LifeLocal;
    assert Local(w.s, t, w.threads[t]);
    SameShared(w.s, t);
    StillLocal(w.s, t, w.threads[t], next);
    OutsideKeeps(w, t, Move(w.s, next));
  }

  lemma GuardSwapLocal(s: Shared, t: Tid)
    requires Global(s) && Local(s, t, GuardSwap) && !s.life.terminal
    ensures Local(Close(s, t), t, Waiting(Guard))
  {}

  lemma GuardSwapBeside(w: World, t: Tid, s': Shared, u: Tid)
    requires Inv(w) && t in w.threads && w.threads[t].GuardSwap? && !w.s.life.terminal && s' == Close(w.s, t)
    requires u in w.threads && u != t
    ensures Local(s', u, w.threads[u])
  {
    assert Local(w.s, t, w.threads[t]) && Local(w.s, u, w.threads[u]);
    FieldGlobal(w.s, s', t);
    BesideStable(w.s, s', t, u, w.threads[u]);
  }

  lemma GuardSwapKeeps(w: World, t: Tid)
    requires Inv(w) && t in w.threads && w.threads[t].GuardSwap? && !w.s.life.terminal
    ensures Inv(After(w, t, Move(Close(w.s, t), Waiting(Guard))))
  {
    hide OwnerOk;
    hide LifeLocal;
    hide ClaimLocal;
    var s' := Close(w.s, t);
    assert Local(w.s, t, w.threads[t]);
    FieldGlobal(w.s, s', t);
    GuardSwapLocal(w.s, t);
    forall u | u in w.threads && u != t ensures Local(s', u, w.threads[u]) { GuardSwapBeside(w, t, s', u); }
    Assemble(w, t, Move(s', Waiting(Guard)));
  }

  lemma UnlinkKeeps(w: World, t: Tid)
    requires Inv(w) && t in w.threads && w.threads[t].Unlinking?
    ensures Inv(After(w, t, Move(w.s.(life := w.s.life.(resident := false)), Completing)))
  {
    hide Outside;
    hide OwnBehalf;
    hide OwnerOk;
    hide Rest;
    hide Known;
    var m := Move(w.s.(life := w.s.life.(resident := false)), Completing);
    assert Local(w.s, t, w.threads[t]);
    FieldGlobal(w.s, m.s, t);
    assert Local(m.s, t, m.th);
    OutsideKeeps(w, t, m);
  }

  lemma CompleteKeeps(w: World, t: Tid)
    requires Inv(w) && t in w.threads && w.threads[t].Completing?
    ensures Inv(After(w, t, Move(w.s.(life := w.s.life.(complete := true)), Returned)))
  {
    hide Outside;
    hide OwnBehalf;
    hide OwnerOk;
    hide Rest;
    hide Known;
    var m := Move(w.s.(life := w.s.life.(complete := true)), Returned);
    assert Local(w.s, t, w.threads[t]);
    FieldGlobal(w.s, m.s, t);
    assert Local(m.s, t, m.th);
    OutsideKeeps(w, t, m);
  }

  lemma HandoffStoreKeeps(w: World, t: Tid)
    requires Inv(w) && t in w.threads && w.threads[t].HandoffStore?
    ensures Inv(After(w, t, Move(w.s.(life := w.s.life.(creationPending := false)), Finished)))
  {
    assert Local(w.s, t, w.threads[t]);
    FieldGlobal(w.s, w.s.(life := w.s.life.(creationPending := false)), t);
    PlainKeeps(w, t, Move(w.s.(life := w.s.life.(creationPending := false)), Finished));
  }

  lemma ForceUnlinkKeeps(w: World, t: Tid)
    requires Inv(w) && t in w.threads && w.threads[t].ForceUnlink?
    ensures Inv(After(w, t, Move(w.s.(life := w.s.life.(resident := false)), Finished)))
  {
    assert Local(w.s, t, w.threads[t]);
    FieldGlobal(w.s, w.s.(life := w.s.life.(resident := false)), t);
    PlainKeeps(w, t, Move(w.s.(life := w.s.life.(resident := false)), Finished));
  }

  /** Steps of the threads that leave the shared state alone. */
  function StillNext(s: Shared, th: Thread): Thread {
    match th
    case DisposeEntry => if s.life.complete then Returned else Waiting(Disposer)
    case TailLoad => if s.slot.inertia == IDLE then Waiting(Handoff) else TailStore
    case TailStore => Waiting(Handoff)
    case GuardSwap => AwaitComplete
    case AwaitComplete => if s.life.complete then Returned else th
    case _ => th
  }

  predicate IsStill(s: Shared, th: Thread) {
    || th.DisposeEntry? || th.TailLoad? || (th.TailStore? && s.slot.inertia == IDLE) || (th.GuardSwap? && s.life.terminal)
    || th.AwaitComplete? || th.Finished? || th.Returned?
  }

  lemma StillMove(s: Shared, t: Tid, th: Thread)
    requires IsStill(s, th) && (s.life.terminal ==> s.past.closer.Some?)
    ensures OtherStep(s, t, th) == Move(s, StillNext(s, th))
  {}

  lemma StillStepKeeps(w: World, t: Tid)
    requires Inv(w) && t in w.threads && IsStill(w.s, w.threads[t])
    ensures Inv(After(w, t, Move(w.s, StillNext(w.s, w.threads[t]))))
  {
    hide OwnerOk;
    hide LifeLocal;
    hide Global;
    assert Local(w.s, t, w.threads[t]);
    StillKeeps(w, t, StillNext(w.s, w.threads[t]));
  }

  lemma WaitKeeps(w: World, t: Tid)
    requires Inv(w) && t in w.threads && w.threads[t].Waiting?
    ensures Inv(After(w, t, OtherStep(w.s, t, w.threads[t])))
  {
    if w.s.slot.inertia == IDLE {
      ClaimKeeps(w, t, w.threads[t].role);
    } else {
      assert After(w, t, Move(w.s, w.threads[t])) == w;
    }
  }

  lemma OtherKeeps(w: World, t: Tid)
    requires Inv(w) && t in w.threads && !InKick(w.threads[t]) && !w.threads[t].Driving? && !w.threads[t].Writing?
    requires !(w.threads[t].TailStore? && w.s.slot.inertia != IDLE)
    ensures Inv(After(w, t, OtherStep(w.s, t, w.threads[t])))
  {
    var th := w.threads[t];
    if IsStill(w.s, th) {
      StillStepKeeps(w, t);
      StillMove(w.s, t, th);
    } else if th.Waiting? {
      WaitKeeps(w, t);
    } else if th.HandoffStore? {
      HandoffStoreKeeps(w, t);
    } else if th.ForceUnlink? {
      ForceUnlinkKeeps(w, t);
    } else if th.GuardSwap? {
      GuardSwapKeeps(w, t);
    } else if th.Unlinking? {
      UnlinkKeeps(w, t);
    } else {
      CompleteKeeps(w, t);
    }
  }

  lemma CancelOutsideKeeps(w: World, t: Tid)
    requires Inv(w) && t in w.threads && CanCancel(w.threads[t]) && !w.threads[t].Driving?
    ensures Inv(After(w, t, CancelStep(w.s, w.threads[t])))
  {
    var th := w.threads[t];
    StillKeeps(w, t, if th.Waiting? && (th.role == Spawner || th.role == Handoff) then GuardSwap else Finished);
  }
}
