/** No wake-up is lost: whatever revision a kick leaves behind is acknowledged by
    the next release, and a slot at rest owes nothing. */
module SettleKicks {
  import opened Fibers
  import opened SettleProtocol
  import opened SettleInvariants
  import opened SettleSteps
  import opened SettleDriver
  import opened SettleTheorems
  import opened SettlePasses
  import opened SettleReady

  // ----- who answers for a revision -----

  /** The thread has committed the revision and not yet ended its kick. */
  predicate Carries(th: Thread, r: nat) {
    th == Writing(r) || (InKick(th) && th.rev == r)
  }

  predicate Carried(w: World, r: nat) {
    exists t :: t in w.threads && Carries(w.threads[t], r)
  }

  /** The exit recheck at this point will not release the slot before it has
      acknowledged r. */
  predicate WillAcknowledge(pc: Pc, r: nat) {
    !pc.CasIdle? && (pc.StoreSettled? ==> r <= pc.rev)
  }

  /** Revision r is acknowledged, or some holder of the slot still has to, or the
      slot was last given up without a recheck (`left`). */
  predicate Held(w: World, r: nat, left: bool) {
    || r <= w.s.slot.settled
    || w.s.slot.inertia == ACTIVE
    || (w.s.slot.inertia == RELEASING && forall t :: t in w.threads && w.threads[t].Driving? ==> WillAcknowledge(w.threads[t].pc, r))
    || (w.s.slot.inertia == IDLE && left)
  }

  /** What the steps below need of the threads beside the invariant. */
  predicate Noted(s: Shared, th: Thread) {
    && (th.KickSettled? ==> th.rev <= th.committed)
    && (th.Driving? && th.pc.StoreSettled? ==> s.slot.settled <= th.pc.rev)
    && (th.Driving? && s.slot.inertia == RELEASING ==> Exits(th.pc))
  }

  predicate AllNoted(w: World) {
    forall t :: t in w.threads ==> Noted(w.s, w.threads[t])
  }

  // ----- one step of the slot owner -----

  /** What the owner's step may do to the slot. */
  predicate SlotMoves(s: Shared, pc: Pc, m: Move) {
    && m.s.slot.committed == s.slot.committed
    && (m.s.slot.settled == s.slot.settled || (pc.StoreSettled? && m.s.slot.settled == pc.rev))
    && (|| m.s.slot.inertia == s.slot.inertia
        || (pc.StoreReleasing? && m.s.slot.inertia == RELEASING)
        || (pc.StoreActive? && m.s.slot.inertia == ACTIVE)
        || (pc.CasIdle? && s.slot.inertia == RELEASING && m.s.slot.inertia == IDLE)
        || (pc.Release? && m.s.slot.inertia == IDLE))
    && (m.th.Driving? && m.th.pc.StoreSettled? ==> pc.LoadObserved? && m.th.pc.rev == s.slot.committed)
    && (m.th.Driving? && m.th.pc.CasIdle? ==> pc.StoreSettled? && m.s.slot.settled == pc.rev)
    && (m.th.Driving? && (Exits(pc) || s.slot.inertia != RELEASING) && m.s.slot.inertia == RELEASING ==> Exits(m.th.pc))
    && (pc.CasIdle? && s.slot.inertia == RELEASING ==> m.s.slot.inertia == IDLE)
    && !InKick(m.th) && !m.th.Writing?
  }

  /** The owner writes nothing, what had been written when its read began is noted
      with the first edge, and so is a release by an exit recheck. */
  predicate ReadNoted(s: Shared, pc: Pc, m: Move) {
    && m.s.past.written == s.past.written
    && (m.s.past.released <==> s.past.released || (pc.CasIdle? && s.slot.inertia == RELEASING))
    && m.s.past.seen == if pc.Read? && pc.acc == [] && |s.store.live| > 0 && s.store.lock.None? then s.past.written else s.past.seen
  }

  lemma ExitSlot(s: Shared, role: Role, pc: Pc)
    requires Exiting(pc)
    ensures SlotMoves(s, pc, ExitStep(s, role, pc)) && ReadNoted(s, pc, ExitStep(s, role, pc))
  {}

  lemma ReadSlot(s: Shared, role: Role, use: Use, input: nat, acc: seq<Option<Occurrence>>)
    ensures SlotMoves(s, Read(use, input, acc), ReadStep(s, role, use, input, acc))
    ensures ReadNoted(s, Read(use, input, acc), ReadStep(s, role, use, input, acc))
  {}

  /** Away from the exit recheck the owner leaves the arbitration alone. */
  predicate SlotStays(s: Shared, m: Move) {
    && m.s.slot == s.slot.(cell := m.s.slot.cell) && m.th.Driving?
    && m.s.past.written == s.past.written && m.s.past.seen == s.past.seen && m.s.past.released == s.past.released
    && !m.th.pc.StoreSettled? && !m.th.pc.CasIdle?
  }

  lemma SettleSlot(s: Shared, role: Role, target: Target, rev: nat, phase: Phase, flag: bool)
    ensures SlotStays(s, SettleStep(s, role, target, rev, phase, flag))
  {
    hide HasMissing;
  }

  lemma TeardownSlot(s: Shared, role: Role, step: Step)
    ensures SlotStays(s, TeardownStep(s, role, step))
  {}

  lemma RestSlot(s: Shared, t: Tid, role: Role, pc: Pc, flag: bool)
    requires !Exiting(pc) && !pc.Read? && !pc.Settle? && !pc.Teardown? && !pc.Release?
    ensures SlotStays(s, DriveStep(s, t, role, pc, flag))
  {
    hide SettleStep;
    hide TeardownStep;
    hide ExitStep;
    hide ReadStep;
  }

  lemma DriveSlot(s: Shared, t: Tid, role: Role, pc: Pc, flag: bool)
    requires pc.Release? ==> !pc.next.Driving? && !InKick(pc.next) && !pc.next.Writing?
    ensures SlotMoves(s, pc, DriveStep(s, t, role, pc, flag)) && ReadNoted(s, pc, DriveStep(s, t, role, pc, flag))
  {
    if Exiting(pc) {
      ExitSlot(s, role, pc);
    } else if pc.Read? {
      ReadSlot(s, role, pc.use, pc.input, pc.acc);
    } else if pc.Settle? {
      SettleSlot(s, role, pc.t, pc.rev, pc.phase, flag);
    } else if pc.Teardown? {
      TeardownSlot(s, role, pc.step);
    } else if !pc.Release? {
      RestSlot(s, t, role, pc, flag);
    }
    hide SettleStep;
    hide TeardownStep;
    hide ExitStep;
    hide ReadStep;
    hide ClaimedStep;
  }

  lemma LeavesPlainly(s: Shared, t: Tid, th: Thread)
    requires th.Driving? && Local(s, t, th)
    ensures th.pc.Release? ==> !th.pc.next.Driving? && !InKick(th.pc.next) && !th.pc.next.Writing?
  {}

  // ----- one step of anybody else -----

  /** What a step outside the slot does to it: nothing, a new revision, a claim, or
      a kick that takes it back. */
  predicate OthersMove(s: Shared, th: Thread, m: Move) {
    && m.s.slot.settled == s.slot.settled && s.slot.committed <= m.s.slot.committed
    && (m.s.slot.inertia == s.slot.inertia || m.s.slot.inertia == ACTIVE)
    && (m.th.Driving? ==> m.th.pc.Claimed? && s.slot.inertia == IDLE && m.s.slot.inertia == ACTIVE)
    && (m.th.KickSettled? ==> m.th.rev <= m.th.committed)
  }

  lemma KickMoves(s: Shared, t: Tid, th: Thread, flag: bool)
    requires InKick(th) && th.rev <= s.slot.committed && Noted(s, th)
    ensures OthersMove(s, th, KickStep(s, t, th, flag))
  {}

  lemma OtherMoves(s: Shared, t: Tid, th: Thread)
    requires !InKick(th) && !th.Driving? && !(th.TailStore? && s.slot.inertia != IDLE)
    ensures OthersMove(s, th, OtherStep(s, t, th))
  {}

  lemma OutsideMoves(w: World, a: Action, m: Move)
    requires Inv(w) && AllNoted(w) && Enabled(w, a) && !StaleAbandon(w, a) && m == MoveOf(w, a)
    requires (a.Run? || a.Cancel?) ==> !w.threads[a.t].Driving?
    ensures OthersMove(w.s, if a.t in w.threads then w.threads[a.t] else Finished, m)
  {
    hide KickStep;
    hide OtherStep;
    hide Global;
    hide OwnerOk;
    if a.t in w.threads { assert Local(w.s, a.t, w.threads[a.t]); }
    if a.Run? {
      if InKick(w.threads[a.t]) { KickMoves(w.s, a.t, w.threads[a.t], a.flag); } else { OtherMoves(w.s, a.t, w.threads[a.t]); }
    }
  }

  // ----- giving the slot up without a recheck -----

  /** An exit recheck releases the slot. */
  predicate Releases(w: World, a: Action) {
    a.Run? && a.t in w.threads && w.threads[a.t].Driving? && w.threads[a.t].pc.CasIdle? && w.s.slot.inertia == RELEASING
  }

  /** A holder gives the slot back without a recheck, or a kick finds it IDLE
      outside the Runtime and has nobody to drive a pass. */
  predicate LeavesBehind(w: World, a: Action) {
    a.Run? && a.t in w.threads && var th := w.threads[a.t];
      (th.Driving? && th.pc.Release?) || (th.KickLoad? && w.s.slot.inertia == IDLE && !a.flag)
  }

  function LeftNext(w: World, a: Action, left: bool): bool {
    if Releases(w, a) then false else left || LeavesBehind(w, a)
  }

  /** Since the last release by an exit recheck some step left a revision behind. */
  ghost function LeftBehind(ws: seq<World>, acts: seq<Action>, i: nat): bool
    requires |ws| == |acts| + 1 && i < |ws|
  {
    i > 0 && LeftNext(ws[i - 1], acts[i - 1], LeftBehind(ws, acts, i - 1))
  }

  // ----- a revision stays held -----

  lemma OwnHeld(w: World, t: Tid, flag: bool, r: nat, left: bool, m: Move)
    requires Inv(w) && AllNoted(w) && t in w.threads && w.threads[t].Driving? && m == DriveStep(w.s, t, w.threads[t].role, w.threads[t].pc, flag)
    requires Held(w, r, left) && r <= w.s.slot.committed
    ensures Held(After(w, t, m), r, LeftNext(w, Run(t, flag), left))
  {
    hide Global;
    hide OwnerOk;
    hide DriveStep;
    var th := w.threads[t];
    assert Local(w.s, t, th) && Noted(w.s, th);
    LeavesPlainly(w.s, t, th);
    DriveSlot(w.s, t, th.role, th.pc, flag);
    InvSingleDriver(w);
  }

  lemma OthersHeld(w: World, a: Action, r: nat, left: bool, m: Move)
    requires Held(w, r, left)
    requires OthersMove(w.s, if a.t in w.threads then w.threads[a.t] else Finished, m)
    requires a.t in w.threads ==> !w.threads[a.t].Driving?
    ensures Held(After(w, a.t, m), r, LeftNext(w, a, left))
  {}

  /** Dropping the spawn future leaves the slot with the creation guard. */
  lemma InheritsSlot(w: World, t: Tid)
    requires Inv(w) && t in w.threads && w.threads[t].Driving? && CanCancel(w.threads[t])
    ensures var m := CancelStep(w.s, w.threads[t]); m.s.slot == w.s.slot && m.th == Driving(Guard, MarkTerminal) && !Exits(w.threads[t].pc)
  {}

  lemma HeldStep(w: World, a: Action, r: nat, left: bool)
    requires Inv(w) && AllNoted(w) && Enabled(w, a) && !StaleAbandon(w, a)
    requires Held(w, r, left) && r <= w.s.slot.committed
    ensures Held(Do(w, a), r, LeftNext(w, a, left))
  {
    hide Inv;
    hide Held;
    hide LeftNext;
    hide DriveStep;
    if a.Run? && w.threads[a.t].Driving? {
      OwnHeld(w, a.t, a.flag, r, left, MoveOf(w, a));
    } else if a.Cancel? && w.threads[a.t].Driving? {
      InheritHeld(w, a.t, r, left);
    } else {
      OutsideMoves(w, a, MoveOf(w, a));
      if a.t in w.threads && w.threads[a.t].Driving? { assert false; }
      OthersHeld(w, a, r, left, MoveOf(w, a));
    }
  }

  lemma InheritHeld(w: World, t: Tid, r: nat, left: bool)
    requires Inv(w) && AllNoted(w) && t in w.threads && w.threads[t].Driving? && CanCancel(w.threads[t]) && Held(w, r, left)
    ensures Held(After(w, t, CancelStep(w.s, w.threads[t])), r, LeftNext(w, Cancel(t), left))
  {
    InheritsSlot(w, t);
    hide CancelStep;
    assert Noted(w.s, w.threads[t]) && Local(w.s, t, w.threads[t]);
    hide Inv;
    hide Local;
  }

  // ----- the notes are kept -----

  lemma OwnNoted(w: World, t: Tid, flag: bool, m: Move)
    requires Inv(w) && AllNoted(w) && t in w.threads && w.threads[t].Driving? && m == DriveStep(w.s, t, w.threads[t].role, w.threads[t].pc, flag)
    ensures AllNoted(After(w, t, m))
  {
    hide DriveStep;
    hide OwnerOk;
    var th := w.threads[t];
    assert Local(w.s, t, th) && Noted(w.s, th);
    LeavesPlainly(w.s, t, th);
    DriveSlot(w.s, t, th.role, th.pc, flag);
    InvSingleDriver(w);
    forall u | u in w.threads && u != t ensures Noted(m.s, w.threads[u]) { assert Noted(w.s, w.threads[u]); }
  }

  lemma OthersNoted(w: World, t: Tid, m: Move)
    requires AllNoted(w) && SingleDriver(w) && (t in w.threads ==> !w.threads[t].Driving?)
    requires OthersMove(w.s, if t in w.threads then w.threads[t] else Finished, m)
    ensures AllNoted(After(w, t, m))
  {
    forall u | u in w.threads && u != t ensures Noted(m.s, w.threads[u]) { assert Noted(w.s, w.threads[u]); }
  }

  lemma InheritNoted(w: World, t: Tid)
    requires Inv(w) && AllNoted(w) && t in w.threads && w.threads[t].Driving? && CanCancel(w.threads[t])
    ensures AllNoted(After(w, t, CancelStep(w.s, w.threads[t])))
  {
    InheritsSlot(w, t);
    hide CancelStep;
    hide Inv;
    forall u | u in w.threads && u != t ensures Noted(w.s, w.threads[u]) {}
    assert Noted(w.s, w.threads[t]);
  }

  lemma NotedStep(w: World, a: Action)
    requires Inv(w) && AllNoted(w) && Enabled(w, a) && !StaleAbandon(w, a)
    ensures AllNoted(Do(w, a))
  {
    hide AllNoted;
    hide DriveStep;
    InvSingleDriver(w);
    hide Inv;
    if a.Run? && w.threads[a.t].Driving? {
      OwnNoted(w, a.t, a.flag, MoveOf(w, a));
    } else if a.Cancel? && w.threads[a.t].Driving? {
      InheritNoted(w, a.t);
    } else {
      OutsideMoves(w, a, MoveOf(w, a));
      OthersNoted(w, a.t, MoveOf(w, a));
    }
  }

  lemma {:induction false} RunNoted(ws: seq<World>, acts: seq<Action>, i: nat)
    requires Clean(ws, acts) && Init(ws[0]) && i < |ws|
    ensures Inv(ws[i]) && AllNoted(ws[i])
  {
    hide Do;
    hide Inv;
    InitInv(ws[0]);
    RunKeeps(ws, acts, i);
    if i > 0 {
      RunNoted(ws, acts, i - 1);
      NotedStep(ws[i - 1], acts[i - 1]);
    }
  }

  // ----- how a kick ends -----

  /** The step ends a kick of a live Fiber. */
  predicate EndsKick(w: World, a: Action)
    requires Enabled(w, a)
  {
    a.Run? && a.t in w.threads && InKick(w.threads[a.t]) && w.s.life.alive && Do(w, a).threads[a.t] == Finished
  }

  /** The revision whose kick the thread runs, 0 for none. */
  function KickOf(w: World, t: Tid): nat {
    if t in w.threads && InKick(w.threads[t]) then w.threads[t].rev else 0
  }

  /** A kick that ends leaves its revision in good hands, or behind. */
  lemma EndHolds(w: World, a: Action, left: bool)
    requires AllNoted(w) && Enabled(w, a) && EndsKick(w, a)
    ensures Held(Do(w, a), KickOf(w, a.t), LeftNext(w, a, left))
  {
    assert Noted(w.s, w.threads[a.t]);
  }

  /** A revision that is held stays so. */
  lemma {:induction false} HeldOn(ws: seq<World>, acts: seq<Action>, i: nat, k: nat, r: nat)
    requires Clean(ws, acts) && Init(ws[0]) && i <= k < |ws| && r <= ws[i].s.slot.committed && Held(ws[i], r, LeftBehind(ws, acts, i))
    ensures r <= ws[k].s.slot.committed && Held(ws[k], r, LeftBehind(ws, acts, k))
    decreases k
  {
    hide Held;
    hide LeftNext;
    hide Do;
    hide Inv;
    hide AllNoted;
    if k > i {
      HeldOn(ws, acts, i, k - 1, r);
      RunNoted(ws, acts, k - 1);
      HeldStep(ws[k - 1], acts[k - 1], r, LeftBehind(ws, acts, k - 1));
      CommittedGrows(ws[k - 1], acts[k - 1]);
    }
  }

  /** Whatever a kick found, its revision is held from its end on. */
  lemma StaysHeld(ws: seq<World>, acts: seq<Action>, i: nat, k: nat)
    requires Clean(ws, acts) && Init(ws[0]) && i < k < |ws| && EndsKick(ws[i], acts[i])
    ensures KickOf(ws[i], acts[i].t) <= ws[k].s.slot.committed
    ensures Held(ws[k], KickOf(ws[i], acts[i].t), LeftBehind(ws, acts, k))
  {
    hide Held;
    hide LeftNext;
    hide EndsKick;
    hide Do;
    hide Inv;
    hide AllNoted;
    hide KickOf;
    RunNoted(ws, acts, i);
    EndHolds(ws[i], acts[i], LeftBehind(ws, acts, i));
    EndCommitted(ws[i], acts[i]);
    HeldOn(ws, acts, i + 1, k, KickOf(ws[i], acts[i].t));
  }

  lemma EndCommitted(w: World, a: Action)
    requires Inv(w) && AllNoted(w) && Enabled(w, a) && !StaleAbandon(w, a) && EndsKick(w, a)
    ensures KickOf(w, a.t) <= Do(w, a).s.slot.committed
  {
    assert Local(w.s, a.t, w.threads[a.t]);
    CommittedGrows(w, a);
  }

  lemma CommittedGrows(w: World, a: Action)
    requires Inv(w) && AllNoted(w) && Enabled(w, a) && !StaleAbandon(w, a)
    ensures w.s.slot.committed <= Do(w, a).s.slot.committed
  {
    hide DriveStep;
    hide OwnerOk;
    if a.Run? && w.threads[a.t].Driving? {
      var th := w.threads[a.t];
      assert Local(w.s, a.t, th);
      LeavesPlainly(w.s, a.t, th);
      DriveSlot(w.s, a.t, th.role, th.pc, a.flag);
    } else if a.Cancel? && w.threads[a.t].Driving? {
      InheritsSlot(w, a.t);
    } else {
      OutsideMoves(w, a, MoveOf(w, a));
      hide MoveOf;
    }
  }

  /** No lost wake-up, kick by kick: whenever an exit recheck releases the slot, it
      has acknowledged the revision of every kick of the live Fiber that ended
      before, whatever that kick found. */
  lemma ReleaseAcknowledges(ws: seq<World>, acts: seq<Action>, i: nat, k: nat)
    requires Clean(ws, acts) && Init(ws[0]) && i < k < |acts| && EndsKick(ws[i], acts[i]) && Releases(ws[k], acts[k])
    ensures KickOf(ws[i], acts[i].t) <= ws[k].s.slot.settled
  {
    StaysHeld(ws, acts, i, k);
  }

  // ----- a slot at rest -----

  /** Every committed revision is still carried by its kick, or held. */
  ghost predicate Accounted(w: World, left: bool) {
    w.s.life.alive ==> forall r: nat :: 1 <= r <= w.s.slot.committed ==> Carried(w, r) || Held(w, r, left)
  }

  /** Only a store section commits a revision, and it carries it. */
  lemma CommitsCarried(w: World, a: Action)
    requires Inv(w) && AllNoted(w) && Enabled(w, a) && !StaleAbandon(w, a) && Do(w, a).s.slot.committed != w.s.slot.committed
    ensures Do(w, a).s.slot.committed == w.s.slot.committed + 1 && Carried(Do(w, a), w.s.slot.committed + 1)
  {
    hide DriveStep;
    hide OwnerOk;
    if a.Lock? {
      assert a.t in Do(w, a).threads;
    } else if a.Run? && w.threads[a.t].Driving? {
      var th := w.threads[a.t];
      assert Local(w.s, a.t, th);
      LeavesPlainly(w.s, a.t, th);
      DriveSlot(w.s, a.t, th.role, th.pc, a.flag);
      assert false;
    } else if a.Cancel? && w.threads[a.t].Driving? {
      InheritsSlot(w, a.t);
      assert false;
    } else {
      OutsideCommitted(w, a, MoveOf(w, a));
      assert false;
    }
  }

  lemma OutsideCommitted(w: World, a: Action, m: Move)
    requires Enabled(w, a) && !a.Lock? && m == MoveOf(w, a) && ((a.Run? || a.Cancel?) ==> !w.threads[a.t].Driving?)
    ensures m.s.slot.committed == w.s.slot.committed
  {}

  /** The carrier's own step: it carries on, or its kick has ended and the revision is held. */
  lemma CarrierStep(w: World, a: Action, r: nat, left: bool)
    requires AllNoted(w) && Enabled(w, a) && a.t in w.threads && Carries(w.threads[a.t], r) && r > 0 && w.s.life.alive
    ensures Carries(Do(w, a).threads[a.t], r) || Held(Do(w, a), r, LeftNext(w, a, left))
  {
    assert Noted(w.s, w.threads[a.t]);
  }

  lemma AliveBefore(w: World, a: Action)
    requires Inv(w) && Enabled(w, a) && Do(w, a).s.life.alive
    ensures w.s.life.alive
  {
    hide DriveStep;
    StepForward(w, a);
  }

  lemma AccountedStep(w: World, a: Action, left: bool)
    requires Inv(w) && AllNoted(w) && Enabled(w, a) && !StaleAbandon(w, a) && Accounted(w, left)
    ensures Accounted(Do(w, a), LeftNext(w, a, left))
  {
    hide Held;
    hide LeftNext;
    hide Inv;
    hide AllNoted;
    var w' := Do(w, a);
    if w'.s.life.alive {
      AliveBefore(w, a);
      if w'.s.slot.committed != w.s.slot.committed { CommitsCarried(w, a); }
      forall r: nat | 1 <= r <= w.s.slot.committed ensures Carried(w', r) || Held(w', r, LeftNext(w, a, left)) {
        RevisionStep(w, a, r, left);
      }
    }
  }

  lemma RevisionStep(w: World, a: Action, r: nat, left: bool)
    requires Inv(w) && AllNoted(w) && Enabled(w, a) && !StaleAbandon(w, a) && w.s.life.alive && 1 <= r <= w.s.slot.committed
    requires Carried(w, r) || Held(w, r, left)
    ensures Carried(Do(w, a), r) || Held(Do(w, a), r, LeftNext(w, a, left))
  {
    hide Held;
    hide LeftNext;
    hide Inv;
    hide AllNoted;
    hide MoveOf;
    if Held(w, r, left) {
      HeldStep(w, a, r, left);
    } else {
      var u :| u in w.threads && Carries(w.threads[u], r);
      if u == a.t {
        CarrierStep(w, a, r, left);
        assert a.t in Do(w, a).threads;
      } else {
        assert u in Do(w, a).threads && Carries(Do(w, a).threads[u], r);
      }
    }
  }

  lemma {:induction false} RunAccounted(ws: seq<World>, acts: seq<Action>, i: nat)
    requires Clean(ws, acts) && Init(ws[0]) && i < |ws|
    ensures Accounted(ws[i], LeftBehind(ws, acts, i))
  {
    hide Held;
    hide LeftNext;
    hide Do;
    hide Inv;
    hide AllNoted;
    if i > 0 {
      hide Accounted;
      RunAccounted(ws, acts, i - 1);
      RunNoted(ws, acts, i - 1);
      AccountedStep(ws[i - 1], acts[i - 1], LeftBehind(ws, acts, i - 1));
    }
  }

  /** No lost wake-up, at rest: when nobody owns the slot, no store section and no
      kick is under way, and since the last release no holder gave the slot up
      without a recheck and no kick was left without an executor, then every
      committed revision of a live Fiber is acknowledged. */
  lemma RestOwesNothing(ws: seq<World>, acts: seq<Action>, i: nat)
    requires Clean(ws, acts) && Init(ws[0]) && i < |ws| && ws[i].s.life.alive && ws[i].s.slot.inertia == IDLE
    requires forall t :: t in ws[i].threads ==> !InKick(ws[i].threads[t]) && !ws[i].threads[t].Writing?
    requires !LeftBehind(ws, acts, i)
    ensures Quiescent(ws[i])
  {
    RunAccounted(ws, acts, i);
    RunNoted(ws, acts, i);
    hide LeftBehind;
    var r := ws[i].s.slot.committed;
    if r > 0 { assert !Carried(ws[i], r) && Held(ws[i], r, false); }
  }

  // ----- what has been read -----

  /** The newest revision whose mutation has been written before instant i. */
  ghost function WrittenBy(ws: seq<World>, acts: seq<Action>, i: nat): nat
    requires |ws| == |acts| + 1 && i < |ws|
  {
    if i == 0 then 0
    else
      var w, a := ws[i - 1], acts[i - 1];
      if a.Write? && a.t in w.threads && w.threads[a.t].Writing? && w.threads[a.t].rev > 0 then w.threads[a.t].rev else WrittenBy(ws, acts, i - 1)
  }

  /** A target read takes its first edge. */
  predicate BeginsRead(w: World, a: Action) {
    a.Run? && a.t in w.threads && w.threads[a.t].Driving? && w.threads[a.t].pc.Read? && w.threads[a.t].pc.acc == []
    && |w.s.store.live| > 0 && w.s.store.lock.None?
  }

  /** What had been written when the last target read before instant i began. */
  ghost function ReadBy(ws: seq<World>, acts: seq<Action>, i: nat): nat
    requires |ws| == |acts| + 1 && i < |ws|
  {
    if i == 0 then 0 else if BeginsRead(ws[i - 1], acts[i - 1]) then WrittenBy(ws, acts, i - 1) else ReadBy(ws, acts, i - 1)
  }

  lemma OutsideReads(w: World, a: Action, m: Move)
    requires Enabled(w, a) && m == MoveOf(w, a) && (a.Run? ==> !w.threads[a.t].Driving?)
    ensures m.s.past.written == if a.Write? && w.threads[a.t].rev > 0 then w.s.past.written + 1 else w.s.past.written
    ensures m.s.past.seen == w.s.past.seen && m.s.past.released == w.s.past.released
  {}

  lemma HistoryStep(w: World, a: Action)
    requires Inv(w) && Enabled(w, a)
    ensures Do(w, a).s.past.written == if a.Write? && w.threads[a.t].rev > 0 then w.threads[a.t].rev else w.s.past.written
    ensures Do(w, a).s.past.seen == if BeginsRead(w, a) then w.s.past.written else w.s.past.seen
    ensures Do(w, a).s.past.released <==> w.s.past.released || Releases(w, a)
  {
    hide OwnerOk;
    hide DriveStep;
    hide SlotMoves;
    if a.t in w.threads { assert Local(w.s, a.t, w.threads[a.t]); }
    if a.Run? && w.threads[a.t].Driving? {
      var th := w.threads[a.t];
      LeavesPlainly(w.s, a.t, th);
      DriveSlot(w.s, a.t, th.role, th.pc, a.flag);
    } else {
      OutsideReads(w, a, MoveOf(w, a));
      hide MoveOf;
    }
  }

  /** What the history says of writes, reads and releases is what the run did. */
  lemma {:induction false} HistoryIsRun(ws: seq<World>, acts: seq<Action>, i: nat)
    requires Clean(ws, acts) && Init(ws[0]) && i < |ws|
    ensures ws[i].s.past.written == WrittenBy(ws, acts, i) && ws[i].s.past.seen == ReadBy(ws, acts, i)
    ensures ws[i].s.past.released <==> exists j: nat :: j < i && Releases(ws[j], acts[j])
  {
    hide Do;
    hide Inv;
    hide BeginsRead;
    hide Releases;
    if i > 0 {
      HistoryIsRun(ws, acts, i - 1);
      RunNoted(ws, acts, i - 1);
      HistoryStep(ws[i - 1], acts[i - 1]);
    }
  }
}
