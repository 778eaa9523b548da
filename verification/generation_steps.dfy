/** Every step of the generation protocol keeps its invariant. */
module GenerationSteps {
  import opened Fibers
  import opened Services
  import opened Journals
  import opened GenerationProtocol
  import opened GenerationInvariants

  // ----- steps of one thread on one Fiber -----

  /** The journal lock stays, or thread t takes it or gives it back. */
  predicate LockMoves(fb: Fiber, fb': Fiber, t: Tid, f: Fid, th': Thread) {
    && (fb'.lock == fb.lock || (fb.lock == Some(t) && fb'.lock == None) || (fb.lock == None && fb'.lock == Some(t)))
    && (fb'.lock == Some(t) ==> InSection(th') && th'.f == f)
    && (fb.lock.Some? && fb.lock != Some(t) ==> fb' == fb)
  }

  /** What thread t becomes: it stays with its Fiber and offers nothing new. */
  predicate ThreadMoves(w: World, t: Tid, f: Fid, th': Thread) {
    && t in w.threads && !w.threads[t].Finished? && w.threads[t].f == f
    && (th'.Finished? || th'.f == f)
    && (Unpublished(th') ==> Unpublished(w.threads[t]) && OfferOf(th') == OfferOf(w.threads[t]))
  }

  /** Obligations leave the journal or are appended to it. */
  predicate JournalMoves(j: Journal, j': Journal) {
    j.sn <= j'.sn && forall k :: k in j'.entries && k <= j.sn ==> k in j.entries && j'.entries[k] == j.entries[k]
  }

  lemma OtherThreadOk(w: World, f: Fid, fb': Fiber, t: Tid, th': Thread, u: Tid)
    requires Inv(w) && f in w.fibers && u in w.threads && u != t
    requires ThreadMoves(w, t, f, th') && JournalMoves(w.fibers[f].journal, fb'.journal)
    requires LockMoves(w.fibers[f], fb', t, f, th') && (fb'.past.captured == w.fibers[f].past.captured || w.fibers[f].lock == Some(t))
    ensures ThreadOk(Update(w, f, fb', t, th'), u, w.threads[u])
  {
    assert ThreadOk(w, u, w.threads[u]);
  }

  lemma OtherSlotOwed(w: World, f: Fid, fb': Fiber, t: Tid, th': Thread, g: Fid, ob: Obligation)
    requires Inv(w) && f in w.fibers && ThreadMoves(w, t, f, th')
    requires g in w.fibers && g != f && Owed(w, g, ob)
    ensures Owed(Update(w, f, fb', t, th'), g, ob)
  {
    assert LockOk(w, g);
  }

  /** Nothing new is offered and no slot appears. */
  ghost predicate Quieter(w: World, w': World) {
    && w.used <= w'.used
    && (forall u :: u in w'.threads && Unpublished(w'.threads[u]) ==>
          (u in w.threads && Unpublished(w.threads[u]) && OfferOf(w'.threads[u]) == OfferOf(w.threads[u])) || OfferOf(w'.threads[u]) !in w.used)
    && (forall key :: key in w'.store.slots ==>
          key in w.store.slots && w'.store.slots[key].occurrence == w.store.slots[key].occurrence
          && w'.store.slots[key].owner == w.store.slots[key].owner)
  }

  lemma KnownSame(w: World, w': World, f: Fid, o: Occurrence)
    requires Quieter(w, w') && Known(w, f, o)
    ensures Known(w', f, o)
  {}

  lemma DutiesSame(w: World, w': World, f: Fid)
    requires f in w.fibers && f in w'.fibers && DutiesOk(w, f) && Quieter(w, w')
    requires var was, now := w.fibers[f].journal.entries, w'.fibers[f].journal.entries;
      forall k :: k in now ==> k in was && now[k] == was[k]
    requires w'.fibers[f].running.Some? ==> w'.fibers[f].running == w.fibers[f].running
    ensures DutiesOk(w', f)
  {
    forall o | Known(w, f, o) ensures Known(w', f, o) { KnownSame(w, w', f, o); }
  }

  lemma UpdateKeeps(w: World, f: Fid, fb': Fiber, t: Tid, th': Thread)
    requires Inv(w) && f in w.fibers && ThreadMoves(w, t, f, th') && LockMoves(w.fibers[f], fb', t, f, th')
    requires fb'.past.captured == w.fibers[f].past.captured || w.fibers[f].lock == Some(t)
    requires JournalMoves(w.fibers[f].journal, fb'.journal)
    requires FiberOk(fb') && ThreadOk(Update(w, f, fb', t, th'), t, th') && DutiesOk(Update(w, f, fb', t, th'), f)
    requires forall key :: key in w.store.slots && w.store.slots[key].owner == f ==> SlotOk(Update(w, f, fb', t, th'), key)
    ensures Inv(Update(w, f, fb', t, th'))
  {
    hide FiberOk;
    hide ThreadOk;
    hide Owed;
    hide Known;
    var w' := Update(w, f, fb', t, th');
    forall u | u in w'.threads ensures ThreadOk(w', u, w'.threads[u]) {
      if u != t { OtherThreadOk(w, f, fb', t, th', u); }
    }
    forall g | g in w'.fibers ensures LockOk(w', g) && DutiesOk(w', g) {
      assert LockOk(w, g) && DutiesOk(w, g);
      if g != f { DutiesSame(w, w', g); }
    }
    forall key | key in w.store.slots ensures SlotOk(w', key) {
      assert SlotOk(w, key);
      var slot := w.store.slots[key];
      if slot.owner != f { OtherSlotOwed(w, f, fb', t, th', slot.owner, Withdraw(key, slot.occurrence)); }
    }
  }

  lemma LockedFiberOk(fb: Fiber, lock: Option<Tid>)
    requires FiberOk(fb)
    ensures FiberOk(fb.(lock := lock))
  {}

  /** Steps that leave the Fiber's journal and history alone. */
  lemma PassKeeps(w: World, f: Fid, fb': Fiber, t: Tid, th': Thread)
    requires Inv(w) && f in w.fibers && ThreadMoves(w, t, f, th') && LockMoves(w.fibers[f], fb', t, f, th')
    requires fb' == w.fibers[f].(lock := fb'.lock)
    requires ThreadOk(Update(w, f, fb', t, th'), t, th')
    requires w.threads[t].Registering? && w.threads[t].stage.Push? ==> th' == w.threads[t]
    ensures Inv(Update(w, f, fb', t, th'))
  {
    hide FiberOk;
    hide Known;
    var w' := Update(w, f, fb', t, th');
    assert FiberOk(w.fibers[f]) && LockOk(w, f);
    LockedFiberOk(w.fibers[f], fb'.lock);
    DutiesSame(w, w', f);
    forall key | key in w.store.slots && w.store.slots[key].owner == f ensures SlotOk(w', key) {
      assert SlotOk(w, key);
    }
    UpdateKeeps(w, f, fb', t, th');
  }

  lemma GateKeeps(w: World, t: Tid, flag: bool)
    requires Inv(w) && Enabled(w, Run(t, flag)) && w.threads[t].Registering?
    requires var stage := w.threads[t].stage; stage.Gate? || stage.TakeLock? || stage.Recheck?
    ensures Inv(Do(w, Run(t, flag)))
  {
    hide JournalOk;
    hide DriveOk;
    hide OrderOk;
    hide SlotOk;
    hide DutiesOk;
    var w' := Do(w, Run(t, flag));
    var f := w.threads[t].f;
    assert ThreadOk(w, t, w.threads[t]) && FiberOk(w.fibers[f]);
    PassKeeps(w, f, w'.fibers[f], t, w'.threads[t]);
  }

  lemma EffectPublishKeeps(w: World, t: Tid, flag: bool)
    requires Inv(w) && Enabled(w, Run(t, flag)) && w.threads[t].Registering? && w.threads[t].stage.Publish?
    requires w.threads[t].offer.Effect? || Installed(View(w), w.store, w.threads[t].offer.key, w.threads[t].offer.slot).Refused?
    ensures Inv(Do(w, Run(t, flag)))
  {
    hide FiberOk;
    hide SlotOk;
    hide DutiesOk;
    var w' := Do(w, Run(t, flag));
    var f := w.threads[t].f;
    assert ThreadOk(w, t, w.threads[t]) && FiberOk(w.fibers[f]);
    PassKeeps(w, f, w'.fibers[f], t, w'.threads[t]);
  }

  // ----- steps on the store -----

  /** Slots leave or change their payload. */
  predicate Shrinks(store: Store, store': Store) {
    && store'.contracts == store.contracts
    && forall key :: key in store'.slots ==> key in store.slots && store'.slots[key] == store.slots[key].(value := store'.slots[key].value)
  }

  lemma ShrinkThread(w: World, w': World, t: Tid)
    requires Inv(w) && w' == w.(store := w'.store) && Shrinks(w.store, w'.store) && t in w.threads
    ensures ThreadOk(w', t, w.threads[t])
  {
    assert ThreadOk(w, t, w.threads[t]);
  }

  lemma ShrinkSlot(w: World, w': World, key: Key)
    requires Inv(w) && w' == w.(store := w'.store) && Shrinks(w.store, w'.store) && key in w'.store.slots
    ensures SlotOk(w', key)
  {
    assert SlotOk(w, key);
  }

  lemma ShrinkFiber(w: World, w': World, f: Fid)
    requires Inv(w) && w' == w.(store := w'.store) && Shrinks(w.store, w'.store) && f in w.fibers
    ensures LockOk(w', f) && DutiesOk(w', f)
  {
    assert LockOk(w, f);
    DutiesSame(w, w', f);
  }

  lemma ShrinkRest(w: World, w': World)
    requires Inv(w) && w' == w.(store := w'.store) && Shrinks(w.store, w'.store)
    ensures Offers(w') && Unrepeated(w'.store) && Bound(w'.store)
  {}

  lemma ShrinkKeeps(w: World, store': Store)
    requires Inv(w) && Shrinks(w.store, store')
    ensures Inv(w.(store := store'))
  {
    var w' := w.(store := store');
    forall t | t in w.threads ensures ThreadOk(w', t, w'.threads[t]) { ShrinkThread(w, w', t); }
    forall f | f in w.fibers ensures LockOk(w', f) && DutiesOk(w', f) { ShrinkFiber(w, w', f); }
    forall key | key in store'.slots ensures SlotOk(w', key) { ShrinkSlot(w, w', key); }
    ShrinkRest(w, w');
  }

  /** A thread that holds no journal lock takes up another occupation outside it. */
  lemma OutsideKeeps(w: World, t: Tid, th': Thread)
    requires Inv(w) && !InSection(th') && !Unpublished(th') && (!th'.Finished? ==> th'.f in w.fibers)
    requires !th'.Registering? && !th'.EraClosing?
    requires t in w.threads ==> !InSection(w.threads[t])
    requires ThreadOk(w.(threads := w.threads[t := th']), t, th')
    ensures Inv(w.(threads := w.threads[t := th']))
  {
    var w' := w.(threads := w.threads[t := th']);
    forall f | f in w.fibers ensures LockOk(w', f) && DutiesOk(w', f) { assert LockOk(w, f); DutiesSame(w, w', f); }
    forall u | u in w'.threads ensures ThreadOk(w', u, w'.threads[u]) {
      if u != t { assert ThreadOk(w, u, w.threads[u]); }
    }
    forall key | key in w.store.slots ensures SlotOk(w', key) {
      assert SlotOk(w, key);
      OwedOutside(w, t, th', w.store.slots[key].owner, Withdraw(key, w.store.slots[key].occurrence));
    }
  }

  lemma OwedOutside(w: World, t: Tid, th': Thread, f: Fid, ob: Obligation)
    requires f in w.fibers && LockOk(w, f) && (t in w.threads ==> !InSection(w.threads[t])) && Owed(w, f, ob)
    ensures Owed(w.(threads := w.threads[t := th']), f, ob)
  {}

  /** The slot a removal took out does not come back. */
  lemma RemovedOk(w: World, t: Tid, store': Store)
    requires Inv(w) && t in w.threads && w.threads[t].Holding? && w.threads[t].offer.Publication?
    requires forall key :: key in store'.slots ==> store'.slots[key].occurrence != w.threads[t].offer.slot.occurrence
    requires Shrinks(w.store, store')
    ensures var th := w.threads[t];
      var next := Disarming(th.f, th.offer, th.token);
      ThreadOk(w.(store := store', threads := w.threads[t := next]), t, next)
  {
    assert ThreadOk(w, t, w.threads[t]);
  }

  lemma RemoveKeeps(w: World, t: Tid)
    requires Inv(w) && Enabled(w, Remove(t))
    ensures Inv(Do(w, Remove(t)))
  {
    hide FiberOk;
    hide LockOk;
    hide DutiesOk;
    hide SlotOk;
    var th := w.threads[t];
    var r := Removed(View(w), w.store, th.offer.key, th.offer.slot.occurrence, th.f);
    if r.Done? {
      RemovedOk(w, t, r.store);
      ShrinkKeeps(w, r.store);
      OutsideKeeps(w.(store := r.store), t, Disarming(th.f, th.offer, th.token));
    } else {
      OutsideKeeps(w, t, Finished);
    }
  }

  lemma SetKeeps(w: World, t: Tid, value: Payload)
    requires Inv(w) && Enabled(w, Set(t, value))
    ensures Inv(Do(w, Set(t, value)))
  {
    hide Inv;
    ShrinkKeeps(w, Do(w, Set(t, value)).store);
  }

  lemma RegisterThread(w: World, t: Tid, f: Fid, offer: Offer, u: Tid)
    requires Inv(w) && Enabled(w, Register(t, f, offer)) && u in Do(w, Register(t, f, offer)).threads
    ensures ThreadOk(Do(w, Register(t, f, offer)), u, Do(w, Register(t, f, offer)).threads[u])
  {
    hide FiberOk;
    hide LockOk;
    hide DutiesOk;
    hide Owed;
    if u != t { assert ThreadOk(w, u, w.threads[u]); }
    else { assert forall key :: key in w.store.slots ==> SlotOk(w, key); }
  }

  lemma RegisterSlot(w: World, t: Tid, f: Fid, offer: Offer, key: Key)
    requires Inv(w) && Enabled(w, Register(t, f, offer)) && key in w.store.slots
    ensures SlotOk(Do(w, Register(t, f, offer)), key)
  {
    assert SlotOk(w, key);
    var w', ob := Do(w, Register(t, f, offer)), Withdraw(key, w.store.slots[key].occurrence);
    OwedOutside(w, t, w'.threads[t], w.store.slots[key].owner, ob);
    assert Owed(w.(threads := w'.threads), w.store.slots[key].owner, ob);
  }

  lemma RegisterOffers(w: World, t: Tid, f: Fid, offer: Offer)
    requires Inv(w) && Enabled(w, Register(t, f, offer))
    ensures Offers(Do(w, Register(t, f, offer)))
  {
    hide FiberOk;
    hide SlotOk;
    hide DutiesOk;
    hide LockOk;
    assert forall u :: u in w.threads && Unpublished(w.threads[u]) ==> ThreadOk(w, u, w.threads[u]);
  }

  lemma RegisterFiber(w: World, t: Tid, f: Fid, offer: Offer, g: Fid)
    requires Inv(w) && Enabled(w, Register(t, f, offer)) && g in w.fibers
    ensures LockOk(Do(w, Register(t, f, offer)), g) && DutiesOk(Do(w, Register(t, f, offer)), g)
  {
    hide FiberOk;
    hide SlotOk;
    hide ThreadOk;
    assert LockOk(w, g);
    DutiesSame(w, Do(w, Register(t, f, offer)), g);
  }

  lemma RegisterKeeps(w: World, t: Tid, f: Fid, offer: Offer)
    requires Inv(w) && Enabled(w, Register(t, f, offer))
    ensures Inv(Do(w, Register(t, f, offer)))
  {
    hide FiberOk;
    hide SlotOk;
    hide ThreadOk;
    hide DutiesOk;
    hide LockOk;
    hide Offers;
    var w' := Do(w, Register(t, f, offer));
    forall g | g in w.fibers ensures LockOk(w', g) && DutiesOk(w', g) { RegisterFiber(w, t, f, offer, g); }
    forall u | u in w'.threads ensures ThreadOk(w', u, w'.threads[u]) { RegisterThread(w, t, f, offer, u); }
    forall key | key in w.store.slots ensures SlotOk(w', key) { RegisterSlot(w, t, f, offer, key); }
    RegisterOffers(w, t, f, offer);
  }

  lemma AttachThread(w: World, f: Fid, u: Tid)
    requires Inv(w) && Enabled(w, Attach(f)) && u in w.threads
    ensures ThreadOk(Do(w, Attach(f)), u, w.threads[u])
  {
    hide FiberOk;
    hide SlotOk;
    hide DutiesOk;
    hide LockOk;
    assert ThreadOk(w, u, w.threads[u]);
  }

  lemma AttachSlot(w: World, f: Fid, key: Key)
    requires Inv(w) && Enabled(w, Attach(f)) && key in w.store.slots
    ensures SlotOk(Do(w, Attach(f)), key)
  {
    hide FiberOk;
    hide ThreadOk;
    hide DutiesOk;
    assert SlotOk(w, key);
  }

  lemma AttachKeeps(w: World, f: Fid)
    requires Inv(w) && Enabled(w, Attach(f))
    ensures Inv(Do(w, Attach(f)))
  {
    hide SlotOk;
    hide ThreadOk;
    var w' := Do(w, Attach(f));
    forall u | u in w.threads ensures ThreadOk(w', u, w.threads[u]) { AttachThread(w, f, u); }
    forall g | g in w'.fibers ensures LockOk(w', g) && DutiesOk(w', g) {
      assert LockOk(w, g);
      if g != f { DutiesSame(w, w', g); }
    }
    forall key | key in w.store.slots ensures SlotOk(w', key) { AttachSlot(w, f, key); }
  }

  /** Two threads are never inside the journal section of one Fiber. */
  lemma SectionsExclude(w: World, t: Tid, u: Tid)
    requires Inv(w) && t in w.threads && u in w.threads && u != t && InSection(w.threads[t]) && InSection(w.threads[u])
    ensures w.threads[u].f != w.threads[t].f
  {
    assert ThreadOk(w, t, w.threads[t]) && ThreadOk(w, u, w.threads[u]);
  }

  /** The publish section that installs a slot. */
  ghost predicate Installs(w: World, t: Tid, th: Thread, w': World) {
    && Inv(w) && t in w.threads && w.threads[t] == th && th.Registering? && th.stage.Publish? && th.offer.Publication?
    && w' == w.(threads := w.threads[t := Registering(th.f, th.offer, Push)], store := w'.store)
    && w'.store.slots == w.store.slots[th.offer.key := th.offer.slot] && Bound(w'.store)
  }

  lemma InstallSpares(w: World, t: Tid, th: Thread, w': World, u: Tid)
    requires Installs(w, t, th, w') && u in w.threads && u != t
    ensures ThreadOk(w', u, w.threads[u])
  {
    assert ThreadOk(w, u, w.threads[u]) && ThreadOk(w, t, th);
    if InSection(w.threads[u]) { SectionsExclude(w, t, u); }
  }

  lemma InstallOwn(w: World, t: Tid, th: Thread, w': World)
    requires Installs(w, t, th, w')
    ensures ThreadOk(w', t, w'.threads[t]) && Unrepeated(w'.store) && SlotOk(w', th.offer.key)
  {
    assert ThreadOk(w, t, th);
  }

  lemma InstallSlots(w: World, t: Tid, th: Thread, w': World, k: Key)
    requires Installs(w, t, th, w') && k in w.store.slots && k != th.offer.key
    ensures SlotOk(w', k)
  {
    assert SlotOk(w, k) && ThreadOk(w, t, th);
    var g := w.store.slots[k].owner;
    assert LockOk(w, g);
    assert w'.fibers == w.fibers;
    assert w.fibers[g].lock == Some(t) ==> !w.threads[t].stage.Push?;
  }

  lemma InstallDuties(w: World, t: Tid, th: Thread, w': World, g: Fid)
    requires Installs(w, t, th, w') && g in w.fibers
    ensures DutiesOk(w', g)
  {
    assert DutiesOk(w, g) && ThreadOk(w, t, th);
    forall o | Known(w, g, o) ensures Known(w', g, o) {}
  }

  lemma InstallRest(w: World, t: Tid, th: Thread, w': World)
    requires Installs(w, t, th, w')
    ensures Offers(w') && forall f :: f in w'.fibers ==> FiberOk(w'.fibers[f])
  {}

  lemma InstallInv(w: World, t: Tid, th: Thread, w': World)
    requires Installs(w, t, th, w')
    ensures Inv(w')
  {
    forall u | u in w'.threads ensures ThreadOk(w', u, w'.threads[u]) {
      if u != t { InstallSpares(w, t, th, w', u); } else { InstallOwn(w, t, th, w'); }
    }
    InstallOwn(w, t, th, w');
    InstallRest(w, t, th, w');
    forall g | g in w'.fibers ensures LockOk(w', g) && DutiesOk(w', g) {
      assert LockOk(w, g);
      InstallDuties(w, t, th, w', g);
    }
    forall k | k in w'.store.slots ensures SlotOk(w', k) {
      if k != th.offer.key { InstallSlots(w, t, th, w', k); }
    }
  }

  lemma InstallKeeps(w: World, t: Tid, flag: bool)
    requires Inv(w) && Enabled(w, Run(t, flag)) && w.threads[t].Registering? && w.threads[t].stage.Publish?
    requires w.threads[t].offer.Publication? && Installed(View(w), w.store, w.threads[t].offer.key, w.threads[t].offer.slot).Done?
    ensures Inv(Do(w, Run(t, flag)))
  {
    hide FiberOk;
    hide SlotOk;
    hide DutiesOk;
    hide LockOk;
    hide ThreadOk;
    var w', th := Do(w, Run(t, flag)), w.threads[t];
    assert w.fibers[th.f := w.fibers[th.f]] == w.fibers;
    assert Bound(w'.store);
    InstallInv(w, t, th, w');
  }

  lemma PushedFiberOk(fb: Fiber, ob: Obligation)
    requires FiberOk(fb) && Admitted(fb)
    ensures FiberOk(Unlocked(fb).(journal := Pushed(fb.journal, ob)))
  {}

  lemma PushKeeps(w: World, t: Tid, flag: bool)
    requires Inv(w) && Enabled(w, Run(t, flag)) && PushStage(w.threads[t])
    ensures Inv(Do(w, Run(t, flag)))
  {
    hide DriveOk;
    hide OrderOk;
    hide Owed;
    var w', th := Do(w, Run(t, flag)), w.threads[t];
    var f, fb' := th.f, w'.fibers[th.f];
    assert ThreadOk(w, t, th) && FiberOk(w.fibers[f]);
    forall key | key in w.store.slots && w.store.slots[key].owner == f ensures SlotOk(w', key) {
      assert SlotOk(w, key);
      PushOwes(w, t, th, w', Withdraw(key, w.store.slots[key].occurrence));
    }
    PushDuties(w, t, th, w');
    PushedFiberOk(w.fibers[f], Duty(th.offer));
    UpdateKeeps(w, f, fb', t, w'.threads[t]);
  }

  lemma PushDuties(w: World, t: Tid, th: Thread, w': World)
    requires Inv(w) && t in w.threads && w.threads[t] == th && PushStage(th) && th.f in w.fibers
    requires w' == RegisterStep(w, t, th.f, th.offer, Push)
    ensures DutiesOk(w', th.f)
  {
    assert DutiesOk(w, th.f) && ThreadOk(w, t, th);
    forall o | Known(w, th.f, o) ensures Known(w', th.f, o) { KnownSame(w, w', th.f, o); }
  }

  lemma PushOwes(w: World, t: Tid, th: Thread, w': World, ob: Obligation)
    requires t in w.threads && w.threads[t] == th && PushStage(th) && th.f in w.fibers && w.fibers[th.f].lock == Some(t)
    requires w' == RegisterStep(w, t, th.f, th.offer, Push)
    requires JournalOk(w.fibers[th.f]) && Owed(w, th.f, ob)
    ensures Owed(w', th.f, ob)
  {
    var j, j' := w.fibers[th.f].journal, w'.fibers[th.f].journal;
    if Duty(th.offer) == ob {
      assert j'.entries[j.sn + 1] == ob;
    } else if k :| k in j.entries && j.entries[k] == ob {
      assert j'.entries[k] == ob;
    }
  }

  /** An exact claim by hand: of a user cleanup, or of a withdrawal whose slot is gone. */
  lemma ManualKeeps(w: World, t: Tid, f: Fid, token: nat)
    requires Inv(w) && t in w.threads && !w.threads[t].Finished? && w.threads[t].f == f && f in w.fibers && w.fibers[f].lock.None?
    requires (w.threads[t].Holding? && w.threads[t].offer.Effect?) || w.threads[t].Disarming?
    requires token == w.threads[t].token
    ensures Inv(Update(w, f, Claimed(w.fibers[f], token), t, Finished))
  {
    var th, fb := w.threads[t], w.fibers[f];
    var w' := Update(w, f, Claimed(fb, token), t, Finished);
    assert ThreadOk(w, t, th) && FiberOk(fb);
    forall key | key in w.store.slots && w.store.slots[key].owner == f ensures SlotOk(w', key) {
      assert SlotOk(w, key);
      ClaimOwes(w, t, th, w', Withdraw(key, w.store.slots[key].occurrence));
    }
    DutiesSame(w, w', f);
    UpdateKeeps(w, f, Claimed(fb, token), t, Finished);
  }

  lemma ClaimOwes(w: World, t: Tid, th: Thread, w': World, ob: Obligation)
    requires (th.Holding? || th.Disarming?) && th.f in w.fibers && w.fibers[th.f].lock.None? && Owed(w, th.f, ob)
    requires TokenOk(w.fibers[th.f].journal, th.offer, th.token) && Duty(th.offer) != ob
    requires w' == Update(w, th.f, Claimed(w.fibers[th.f], th.token), t, Finished)
    ensures Owed(w', th.f, ob)
  {
    var j := w.fibers[th.f].journal;
    if k :| k in j.entries && j.entries[k] == ob {
      assert w'.fibers[th.f].journal.entries[k] == ob;
    }
  }

  lemma EraKeeps(w: World, t: Tid, flag: bool)
    requires Inv(w) && Enabled(w, Run(t, flag)) && (w.threads[t].EraWaiting? || w.threads[t].EraReading?)
    ensures Inv(Do(w, Run(t, flag)))
  {
    var w', f := Do(w, Run(t, flag)), w.threads[t].f;
    assert ThreadOk(w, t, w.threads[t]) && FiberOk(w.fibers[f]);
    PassKeeps(w, f, w'.fibers[f], t, w'.threads[t]);
  }

  lemma EraClosedOk(fb: Fiber, edges: set<Key>)
    requires FiberOk(fb)
    ensures FiberOk(EraClose(fb, edges)) && FiberOk(Unlocked(fb))
  {}

  lemma EraCloseKeeps(w: World, t: Tid, flag: bool)
    requires Inv(w) && Enabled(w, Run(t, flag)) && w.threads[t].EraClosing?
    ensures Inv(Do(w, Run(t, flag)))
  {
    hide FiberOk;
    hide Known;
    var w', f := Do(w, Run(t, flag)), w.threads[t].f;
    assert ThreadOk(w, t, w.threads[t]) && FiberOk(w.fibers[f]) && LockOk(w, f);
    forall key | key in w.store.slots && w.store.slots[key].owner == f ensures SlotOk(w', key) {
      assert SlotOk(w, key);
      assert key in OwnedBy(w.store, f);
    }
    EraClosedOk(w.fibers[f], w.threads[t].edges);
    DutiesSame(w, w', f);
    UpdateKeeps(w, f, w'.fibers[f], t, w'.threads[t]);
  }

  // ----- steps of the slot owner -----

  lemma TurnFiberOk(fb: Fiber, turn: Turn)
    requires FiberOk(fb) && CanTurn(fb, turn) && !turn.ClaimNext?
    ensures FiberOk(TurnStep(fb, turn))
  {
    if turn.Snapshot? { TokensExact(fb.journal); }
  }

  lemma ClaimLastOk(fb: Fiber)
    requires FiberOk(fb) && CanTurn(fb, ClaimNext)
    ensures FiberOk(ClaimLast(fb))
  {
    var todo := fb.drive.todo;
    var init, last := todo[..|todo| - 1], todo[|todo| - 1];
    assert todo == init + [last];
    SplitLast(todo, init, last);
    ClaimLastOrder(fb);
    var fb' := ClaimLast(fb);
    assert JournalOk(fb');
    assert DriveOk(fb');
  }

  lemma ClaimLastOrder(fb: Fiber)
    requires FiberOk(fb) && CanTurn(fb, ClaimNext)
    ensures OrderOk(ClaimLast(fb))
  {
    var todo := fb.drive.todo;
    var last := todo[|todo| - 1];
    forall k | k in fb.journal.entries ensures k <= last {
      var i: nat :| i < |todo| && todo[i] == k;
    }
  }

  lemma TurnAdmitted(fb: Fiber, turn: Turn)
    requires FiberOk(fb) && CanTurn(fb, turn) && fb.lock.Some? && Admitted(fb)
    ensures Admitted(TurnStep(fb, turn))
  {}

  lemma TurnTrace(fb: Fiber, turn: Turn)
    requires CanTurn(fb, turn)
    ensures var fb' := TurnStep(fb, turn);
      fb'.lock == fb.lock && fb'.past.captured == fb.past.captured && JournalMoves(fb.journal, fb'.journal)
  {}

  /** A turn leaves every withdrawal owed except the one it has carried out. */
  lemma TurnOwes(w: World, f: Fid, turn: Turn, ob: Obligation)
    requires f in w.fibers && CanTurn(w.fibers[f], turn) && Owed(w, f, ob)
    requires turn.RunCleanup? ==> w.fibers[f].running != Some(ob)
    ensures Owed(w.(fibers := w.fibers[f := TurnStep(w.fibers[f], turn)]), f, ob)
  {
    var fb, fb' := w.fibers[f], TurnStep(w.fibers[f], turn);
    if k :| k in fb.journal.entries && fb.journal.entries[k] == ob {
      assert k in fb'.journal.entries ==> fb'.journal.entries[k] == ob;
    }
  }

  lemma TurnThreadOk(w: World, f: Fid, turn: Turn, u: Tid)
    requires Inv(w) && f in w.fibers && CanTurn(w.fibers[f], turn) && u in w.threads
    ensures ThreadOk(w.(fibers := w.fibers[f := TurnStep(w.fibers[f], turn)]), u, w.threads[u])
  {
    assert ThreadOk(w, u, w.threads[u]) && FiberOk(w.fibers[f]);
    TurnTrace(w.fibers[f], turn);
    if PastRecheck(w.threads[u]) && w.threads[u].f == f { TurnAdmitted(w.fibers[f], turn); }
  }

  lemma TurnDuties(w: World, f: Fid, turn: Turn)
    requires f in w.fibers && CanTurn(w.fibers[f], turn) && DutiesOk(w, f)
    ensures DutiesOk(w.(fibers := w.fibers[f := TurnStep(w.fibers[f], turn)]), f)
  {
    var w' := w.(fibers := w.fibers[f := TurnStep(w.fibers[f], turn)]);
    forall o | Known(w, f, o) ensures Known(w', f, o) { KnownSame(w, w', f, o); }
  }

  lemma FiberTurnKeeps(w: World, f: Fid, turn: Turn)
    requires Inv(w) && f in w.fibers && CanTurn(w.fibers[f], turn)
    requires turn.RunCleanup? && w.fibers[f].running.value.Withdraw? ==>
      !Holds(w.store, w.fibers[f].running.value.key, w.fibers[f].running.value.occurrence)
    ensures Inv(w.(fibers := w.fibers[f := TurnStep(w.fibers[f], turn)]))
  {
    hide JournalOk;
    hide DriveOk;
    hide OrderOk;
    hide ThreadOk;
    hide DutiesOk;
    var w' := w.(fibers := w.fibers[f := TurnStep(w.fibers[f], turn)]);
    TurnTrace(w.fibers[f], turn);
    assert FiberOk(w.fibers[f]);
    if turn.ClaimNext? { ClaimLastOk(w.fibers[f]); } else { TurnFiberOk(w.fibers[f], turn); }
    forall u | u in w'.threads ensures ThreadOk(w', u, w'.threads[u]) { TurnThreadOk(w, f, turn, u); }
    forall g | g in w'.fibers ensures LockOk(w', g) && DutiesOk(w', g) {
      assert LockOk(w, g) && DutiesOk(w, g);
      if g != f { DutiesSame(w, w', g); } else { TurnDuties(w, f, turn); }
    }
    forall key | key in w.store.slots ensures SlotOk(w', key) {
      assert SlotOk(w, key);
      var slot := w.store.slots[key];
      if slot.owner == f { TurnOwes(w, f, turn, Withdraw(key, slot.occurrence)); }
    }
  }

  lemma TakeKeeps(w: World, f: Fid, turn: Turn)
    requires Inv(w) && Enabled(w, Take(f, turn))
    ensures Inv(Do(w, Take(f, turn)))
  {
    var store' := TurnStore(w, w.fibers[f], turn);
    ShrinkKeeps(w, store');
    FiberTurnKeeps(w.(store := store'), f, turn);
  }

  lemma RunKeeps(w: World, t: Tid, flag: bool)
    requires Inv(w) && Enabled(w, Run(t, flag))
    ensures Inv(Do(w, Run(t, flag)))
  {
    match w.threads[t] {
      case Registering(f, offer, stage) =>
        if stage.Push? { PushKeeps(w, t, flag); }
        else if !stage.Publish? { GateKeeps(w, t, flag); }
        else if offer.Publication? && Installed(View(w), w.store, offer.key, offer.slot).Done? { InstallKeeps(w, t, flag); }
        else { EffectPublishKeeps(w, t, flag); }
      case Disarming(f, _, token) => ManualKeeps(w, t, f, token);
      case EraClosing(_, _) => EraCloseKeeps(w, t, flag);
      case _ => EraKeeps(w, t, flag);
    }
  }

  lemma StepKeeps(w: World, a: Action)
    requires Inv(w) && Enabled(w, a)
    ensures Inv(Do(w, a))
  {
    match a {
      case Attach(f) => AttachKeeps(w, f);
      case Register(t, f, offer) => RegisterKeeps(w, t, f, offer);
      case EraSwap(t, f) => OutsideKeeps(w, t, EraWaiting(f));
      case Run(t, flag) => RunKeeps(w, t, flag);
      case Remove(t) => RemoveKeeps(w, t);
      case Set(t, value) => SetKeeps(w, t, value);
      case Claim(t) => ManualKeeps(w, t, w.threads[t].f, w.threads[t].token);
      case Take(f, turn) => TakeKeeps(w, f, turn);
    }
  }
}
