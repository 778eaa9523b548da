/** What every step of registration, claiming, draining and era capture keeps. */
module GenerationInvariants {
  import opened Fibers
  import opened Sequences
  import opened Services
  import opened Journals
  import opened GenerationProtocol

  // ----- one Fiber -----

  /** Every token ever issued is either still owned by the generation or was
      claimed, never both. */
  ghost predicate JournalOk(fb: Fiber) {
    && (forall k :: k in fb.journal.entries ==> k !in fb.past.claimed)
    && (forall k :: k in fb.journal.entries || k in fb.past.claimed <==> 1 <= k <= fb.journal.sn)
  }

  predicate Emptied(fb: Fiber) {
    fb.journal.entries == map[] && fb.running.None?
  }

  ghost predicate DriveOk(fb: Fiber) {
    && (fb.gate.state == Unloading <==> !fb.drive.Rest?)
    && (fb.drive.Rest? ==> fb.running.None?)
    && (fb.drive.Drained? ==> Emptied(fb))
    && (fb.gate.state == Pending || fb.gate.state == Failed || fb.gate.state == Disposed ==> Emptied(fb))
    && (fb.drive.Claiming? ==> Ascending(fb.drive.todo) && forall k :: k in fb.journal.entries ==> k in fb.drive.todo)
    && (if fb.gate.alive then fb.gate.state != Disposed else fb.gate.state == Unloading || fb.gate.state == Disposed)
  }

  /** The drain claims in strictly decreasing commit order. */
  ghost predicate OrderOk(fb: Fiber) {
    && Descending(fb.past.order)
    && (fb.gate.state == Unloading ==> forall k, i :: k in fb.journal.entries && 0 <= i < |fb.past.order| ==> k < fb.past.order[i])
  }

  ghost predicate FiberOk(fb: Fiber) {
    JournalOk(fb) && DriveOk(fb) && OrderOk(fb) && (fb.past.captured.Some? ==> fb.gate.closing)
  }

  /** A registration that passed its recheck: no snapshot can be taken before it pushes. */
  predicate Admitted(fb: Fiber) {
    && (fb.gate.state == Loading || fb.gate.state == Active || (fb.drive.Sealed? && fb.past.order == []))
    && fb.past.captured.None?
  }

  // ----- threads -----

  predicate InSection(th: Thread) {
    (th.Registering? && (th.stage.Recheck? || th.stage.Publish? || th.stage.Push?)) || th.EraReading? || th.EraClosing?
  }

  predicate PastRecheck(th: Thread) {
    th.Registering? && (th.stage.Publish? || th.stage.Push?)
  }

  /** The thread offers a publication it has not made yet. */
  predicate Unpublished(th: Thread) {
    th.Registering? && th.offer.Publication? && !th.stage.Push?
  }

  function OfferOf(th: Thread): Occurrence
    requires Unpublished(th)
  {
    th.offer.slot.occurrence
  }

  /** The occurrence was handed out and no registration will publish it any more. */
  ghost predicate NotOffered(w: World, o: Occurrence) {
    o in w.used && forall u :: u in w.threads && Unpublished(w.threads[u]) ==> OfferOf(w.threads[u]) != o
  }

  /** Nobody but Fiber f has, or will have, a slot with this occurrence. */
  ghost predicate Known(w: World, f: Fid, o: Occurrence) {
    NotOffered(w, o) && forall key :: key in w.store.slots && w.store.slots[key].occurrence == o ==> w.store.slots[key].owner == f
  }

  /** A Fiber's obligations withdraw its own publications. */
  ghost predicate DutiesOk(w: World, f: Fid)
    requires f in w.fibers
  {
    var fb := w.fibers[f];
    && (forall k :: k in fb.journal.entries && fb.journal.entries[k].Withdraw? ==> Known(w, f, fb.journal.entries[k].occurrence))
    && (fb.running.Some? && fb.running.value.Withdraw? ==> Known(w, f, fb.running.value.occurrence))
  }

  predicate Offered(th: Thread) {
    (PushStage(th) || th.Holding? || th.Disarming?) && th.offer.Publication?
  }

  predicate PushStage(th: Thread) {
    th.Registering? && th.stage.Push?
  }

  /** The capability's token stands for the obligation it was issued for. */
  predicate TokenOk(j: Journal, offer: Offer, token: nat) {
    1 <= token <= j.sn && (token in j.entries ==> j.entries[token] == Duty(offer))
  }

  ghost predicate ThreadOk(w: World, t: Tid, th: Thread) {
    && (!th.Finished? ==> th.f in w.fibers)
    && (th.Registering? && th.offer.Publication? ==> th.offer.slot.owner == th.f && th.offer.slot.occurrence in w.used)
    && (InSection(th) ==> w.fibers[th.f].lock == Some(t))
    && (PastRecheck(th) ==> Admitted(w.fibers[th.f]))
    && (th.Registering? && th.stage.Recheck? && th.stage.load >= 2 ==> w.fibers[th.f].past.captured.None?)
    && (Unpublished(th) ==> forall key :: key in w.store.slots ==> w.store.slots[key].occurrence != OfferOf(th))
    && (Offered(th) ==> Known(w, th.f, th.offer.slot.occurrence))
    && (th.Holding? || th.Disarming? ==> TokenOk(w.fibers[th.f].journal, th.offer, th.token))
    && (th.Disarming? ==> th.offer.Publication? && forall key :: key in w.store.slots ==> w.store.slots[key].occurrence != th.offer.slot.occurrence)
    && (th.EraClosing? ==> OwnedBy(w.store, th.f) <= th.edges)
  }

  ghost predicate Offers(w: World) {
    forall t, u :: t in w.threads && u in w.threads && t != u && Unpublished(w.threads[t]) && Unpublished(w.threads[u]) ==>
      OfferOf(w.threads[t]) != OfferOf(w.threads[u])
  }

  /** The lock holder exists and is inside its section. */
  ghost predicate LockOk(w: World, f: Fid) {
    f in w.fibers && w.fibers[f].lock.Some? ==>
      && w.fibers[f].lock.value in w.threads
      && var th := w.threads[w.fibers[f].lock.value];
      InSection(th) && th.f == f
  }

  // ----- slots -----

  /** The publication's withdrawal is owed by the journal, being run by the
      drain, or about to be pushed. */
  ghost predicate Owed(w: World, f: Fid, ob: Obligation)
    requires f in w.fibers
  {
    var fb := w.fibers[f];
    || (exists k :: k in fb.journal.entries && fb.journal.entries[k] == ob)
    || fb.running == Some(ob)
    || (fb.lock.Some? && fb.lock.value in w.threads
        && w.threads[fb.lock.value].Registering? && w.threads[fb.lock.value].stage.Push? && Duty(w.threads[fb.lock.value].offer) == ob)
  }

  ghost predicate SlotOk(w: World, key: Key)
    requires key in w.store.slots
  {
    var slot := w.store.slots[key];
    && slot.owner in w.fibers && slot.occurrence in w.used
    && Owed(w, slot.owner, Withdraw(key, slot.occurrence))
    && (w.fibers[slot.owner].past.captured.Some? ==> key in w.fibers[slot.owner].past.captured.value)
  }

  ghost predicate Unrepeated(store: Store) {
    forall a, b :: a in store.slots && b in store.slots && store.slots[a].occurrence == store.slots[b].occurrence ==> a == b
  }

  ghost predicate Inv(w: World) {
    && (forall f :: f in w.fibers ==> FiberOk(w.fibers[f]))
    && (forall f :: f in w.fibers ==> LockOk(w, f) && DutiesOk(w, f))
    && (forall t :: t in w.threads ==> ThreadOk(w, t, w.threads[t]))
    && (forall key :: key in w.store.slots ==> SlotOk(w, key))
    && Offers(w) && Unrepeated(w.store) && Bound(w.store)
  }
}
