/** When a registration succeeds: exactly what refuses one, and what one leaves
    behind that nobody interferes with; and the lifecycle around it. */
module GenerationRegistering {
  import opened Fibers
  import opened Services
  import opened Journals
  import opened GenerationProtocol
  import opened GenerationInvariants
  import opened GenerationTheorems

  /** The four loads of a gate together admit exactly what the store admits. */
  lemma GateAdmits(p: Provider)
    ensures Admits(p) <==> forall load: nat :: load < 4 ==> Passes(p, load)
  {
    assert Passes(p, 0) && Passes(p, 1) && Passes(p, 2) && Passes(p, 3) ==> Admits(p);
  }

  /** What refuses a registration at its current step. */
  predicate Refuses(w: World, th: Thread)
    requires th.Registering? && th.f in w.fibers
  {
    match th.stage
    case Gate(load) => !Passes(w.fibers[th.f].gate, load)
    case Recheck(load) => !Passes(w.fibers[th.f].gate, load)
    case Publish => th.offer.Publication? && Installed(View(w), w.store, th.offer.key, th.offer.slot).Refused?
    case _ => false
  }

  /** A step ends a registration exactly when the gate it loads is closed or the
      store refuses the publication. It then leaves store and journal as they were,
      and the lock if it held it; any other step goes on. */
  lemma RefusedExactly(w: World, t: Tid, flag: bool)
    requires Enabled(w, Run(t, flag)) && w.threads[t].Registering?
    ensures var w', th := Do(w, Run(t, flag)), w.threads[t];
      && (w'.threads[t] == Finished <==> Refuses(w, th))
      && (Refuses(w, th) ==> w'.store == w.store && w'.fibers[th.f] == w.fibers[th.f].(lock := if th.stage.Gate? then w.fibers[th.f].lock else None))
      && (!Refuses(w, th) ==> (w'.threads[t].Registering? && w'.threads[t].f == th.f && w'.threads[t].offer == th.offer) || th.stage.Push?)
  {}

  // ----- undisturbed -----

  /** Thread t registers alone: it takes every step of this stretch. */
  ghost predicate Undisturbed(ws: seq<World>, acts: seq<Action>, t: Tid, f: Fid, offer: Offer) {
    && IsRun(ws, acts) && (forall i :: 0 <= i < |acts| ==> acts[i] == Run(t, false))
    && t in ws[0].threads && ws[0].threads[t] == Registering(f, offer, Gate(0)) && f in ws[0].fibers
    && ws[0].fibers[f].lock.None? && Admits(ws[0].fibers[f].gate)
  }

  function StageAfter(i: nat): Stage {
    if i < 4 then Gate(i) else if i == 4 then TakeLock else if i < 9 then Recheck(i - 5) else Publish
  }

  lemma {:induction false} ReachesPublish(ws: seq<World>, acts: seq<Action>, t: Tid, f: Fid, offer: Offer, i: nat)
    requires Undisturbed(ws, acts, t, f, offer) && i <= 9 && i < |ws|
    ensures ws[i] == Update(ws[0], f, ws[0].fibers[f].(lock := if i > 4 then Some(t) else None), t, Registering(f, offer, StageAfter(i)))
  {
    if i == 0 {
      assert ws[0].fibers[f := ws[0].fibers[f]] == ws[0].fibers && ws[0].threads[t := ws[0].threads[t]] == ws[0].threads;
    } else {
      ReachesPublish(ws, acts, t, f, offer, i - 1);
      var w := ws[i - 1];
      assert ws[i] == Do(w, Run(t, false)) && w.fibers[f].gate == ws[0].fibers[f].gate;
      assert ws[i] == Update(w, f, ws[i].fibers[f], t, ws[i].threads[t]);
    }
  }

  /** The world with the obligation as the newest of Fiber f, its token in the
      hands of thread t, and this store. */
  function Registered(w: World, t: Tid, f: Fid, offer: Offer, ob: Obligation, store: Store): World
    requires f in w.fibers
  {
    var token := w.fibers[f].journal.sn + 1;
    World(w.fibers[f := w.fibers[f].(journal := Journal(token, w.fibers[f].journal.entries[token := ob]))], store,
          w.threads[t := Holding(f, offer, token)], w.used)
  }

  /** An effect admitted by its gate is registered: its own cleanup is the newest
      obligation of its Fiber, and the caller holds exactly that token. */
  lemma EffectRegisters(ws: seq<World>, acts: seq<Action>, t: Tid, f: Fid, id: nat)
    requires Undisturbed(ws, acts, t, f, Effect(id)) && |acts| == 11
    ensures ws[11] == Registered(ws[0], t, f, Effect(id), Plain(id), ws[0].store)
  {
    ReachesPublish(ws, acts, t, f, Effect(id), 9);
    assert ws[10] == Do(ws[9], Run(t, false)) && ws[11] == Do(ws[10], Run(t, false));
    assert ws[10].threads[t] == Registering(f, Effect(id), Push);
  }

  lemma PublishSection(w: World, t: Tid, f: Fid, key: Key, slot: Slot)
    requires Enabled(w, Run(t, false)) && w.threads[t] == Registering(f, Publication(key, slot), Publish)
    ensures var w' := Do(w, Run(t, false));
      if Installed(View(w), w.store, key, slot).Refused?
      then w' == Update(w, f, w.fibers[f].(lock := None), t, Finished)
      else w' == Update(w, f, w.fibers[f], t, Registering(f, Publication(key, slot), Push)).(
                   store := Store(w.store.contracts[key.name := slot.contract], w.store.slots[key := slot]))
  {}

  lemma PushSection(w: World, t: Tid, f: Fid, offer: Offer)
    requires Enabled(w, Run(t, false)) && w.threads[t] == Registering(f, offer, Push)
    ensures var token := w.fibers[f].journal.sn + 1;
      var ob := match offer case Effect(id) => Plain(id) case Publication(key, slot) => Withdraw(key, slot.occurrence);
      Do(w, Run(t, false)) == Update(w, f,
        w.fibers[f].(lock := None, journal := Journal(token, w.fibers[f].journal.entries[token := ob])), t, Holding(f, offer, token))
  {}

  /** A publication admitted by its gate is refused exactly when the store refuses
      it, and otherwise its slot is installed, its exact withdrawal is the newest
      obligation of its Fiber, and the caller holds that token. */
  lemma PublicationRegisters(ws: seq<World>, acts: seq<Action>, t: Tid, f: Fid, key: Key, slot: Slot)
    requires Undisturbed(ws, acts, t, f, Publication(key, slot))
    requires |acts| == if Installed(View(ws[0]), ws[0].store, key, slot).Refused? then 10 else 11
    ensures var store := Store(ws[0].store.contracts[key.name := slot.contract], ws[0].store.slots[key := slot]);
      if Installed(View(ws[0]), ws[0].store, key, slot).Refused? then ws[10] == ws[0].(threads := ws[0].threads[t := Finished])
      else ws[11] == Registered(ws[0], t, f, Publication(key, slot), Withdraw(key, slot.occurrence), store)
  {
    ReachesPublish(ws, acts, t, f, Publication(key, slot), 9);
    assert View(ws[9]) == View(ws[0]);
    hide Do;
    hide Installed;
    assert ws[10] == Do(ws[9], Run(t, false));
    PublishSection(ws[9], t, f, key, slot);
    if Installed(View(ws[0]), ws[0].store, key, slot).Refused? {
      assert ws[0].fibers[f := ws[0].fibers[f]] == ws[0].fibers;
    } else {
      assert ws[11] == Do(ws[10], Run(t, false));
      PushSection(ws[10], t, f, Publication(key, slot));
    }
  }

  /** Setting a value through the exact capability of an admitted owner reaches
      the slot: readers of the key get it, under the same occurrence. */
  lemma SetReaches(w: World, t: Tid, value: Payload)
    requires Enabled(w, Set(t, value)) && w.threads[t].f in w.fibers && Admits(w.fibers[w.threads[t].f].gate)
    requires var offer := w.threads[t].offer; Holds(w.store, offer.key, offer.slot.occurrence)
    ensures var key, w' := w.threads[t].offer.key, Do(w, Set(t, value));
      w' == w.(store := w.store.(slots := w.store.slots[key := w.store.slots[key].(value := value)]))
  {}

  // ----- the gate between generations -----

  /** Unloading, death, a terminal claim and a committed replacement each close the gate. */
  lemma TurnsCloseGate(fb: Fiber, turn: Turn)
    requires CanTurn(fb, turn) && (turn.Seal? || turn.Kill? || turn.Terminate? || turn.Replace?)
    ensures !Admits(TurnStep(fb, turn).gate)
  {}

  /** And nothing but the opening of the next generation opens it again. */
  lemma ClosedUntilOpened(w: World, a: Action, f: Fid)
    requires Enabled(w, a) && f in w.fibers && !Admits(w.fibers[f].gate) && a != Take(f, Open)
    ensures f in Do(w, a).fibers && !Admits(Do(w, a).fibers[f].gate)
  {}

  /** What the drain has left to do, counted in its own steps. */
  function DrainLeft(fb: Fiber): nat {
    (if fb.drive.Claiming? then 1 + 2 * |fb.drive.todo| else 0) + (if fb.running.Some? then 1 else 0)
  }

  /** Every step of the drain brings it nearer to its end. */
  lemma DrainAdvances(fb: Fiber, turn: Turn)
    requires CanTurn(fb, turn) && fb.drive.Claiming? && (turn.ClaimNext? || turn.RunCleanup? || turn.Exhaust?)
    ensures DrainLeft(TurnStep(fb, turn)) < DrainLeft(fb)
  {}

  /** Dropping a drain half-way loses nothing: it starts over with everything that
      is still owned. */
  lemma DrainResumes(fb: Fiber)
    requires CanTurn(fb, Resume) && fb.running.None? && fb.lock.None?
    ensures var sealed := TurnStep(fb, Resume);
      CanTurn(sealed, Snapshot) && TurnStep(sealed, Snapshot) == fb.(drive := Claiming(Tokens(fb.journal)))
  {}

  // ----- the lifecycle -----

  /** The state a turn of the slot owner publishes. */
  function Publishes(turn: Turn): Option<FiberState> {
    match turn
    case Seal => Some(Unloading)
    case Open => Some(Loading)
    case Activate => Some(Active)
    case Park(s) => Some(s)
    case Bury => Some(Disposed)
    case _ => None
  }

  /** Nothing but its owner's turns moves a Fiber's state, each to what it publishes. */
  lemma StateFollowsTurns(w: World, a: Action, f: Fid)
    requires Enabled(w, a) && f in w.fibers
    ensures f in Do(w, a).fibers
    ensures Do(w, a).fibers[f].gate.state ==
      if a.Take? && a.f == f && Publishes(a.turn).Some? then Publishes(a.turn).value else w.fibers[f].gate.state
  {}

  predicate MayFollow(s: FiberState, next: FiberState) {
    match s
    case Pending => next == Loading || next == Unloading
    case Loading => next == Active || next == Unloading
    case Active => next == Unloading
    case Failed => next == Unloading
    case Unloading => next == Loading || next == Pending || next == Failed || next == Disposed
    case Disposed => false
  }

  /** The lifecycle, over every run: a Fiber becomes Active only from Loading, comes
      to rest or opens anew only out of Unloading or a Pending rest, and Disposed is
      the end. */
  lemma Lifecycle(ws: seq<World>, acts: seq<Action>, i: nat, f: Fid)
    requires Reaches(ws, acts, i) && i < |acts| && f in ws[i].fibers
    ensures f in ws[i + 1].fibers
    ensures var s, next := ws[i].fibers[f].gate.state, ws[i + 1].fibers[f].gate.state; next == s || MayFollow(s, next)
  {
    RunInv(ws, acts, i);
    assert FiberOk(ws[i].fibers[f]);
    hide Inv;
    StateFollowsTurns(ws[i], acts[i], f);
    hide Do;
  }

  /** A freshly attached Fiber is ready for its first generation. */
  lemma FreshOpens(w: World, f: Fid)
    requires Enabled(w, Attach(f))
    ensures var w' := Do(w, Attach(f));
      && w' == w.(fibers := w.fibers[f := w'.fibers[f]]) && w'.fibers[f].journal == EMPTY && w'.fibers[f].gate.state == Pending
      && Enabled(w', Take(f, Open)) && Admits(Do(w', Take(f, Open)).fibers[f].gate)
  {}
}
