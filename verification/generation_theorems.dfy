/** What registration, claiming, draining and era capture guarantee over every run. */
module GenerationTheorems {
  import opened Fibers
  import opened Services
  import opened Journals
  import opened GenerationProtocol
  import opened GenerationInvariants
  import opened GenerationSteps

  lemma {:induction false} RunInv(ws: seq<World>, acts: seq<Action>, i: nat)
    requires IsRun(ws, acts) && Init(ws[0]) && i < |ws|
    ensures Inv(ws[i])
  {
    hide Do;
    if i > 0 {
      RunInv(ws, acts, i - 1);
      StepKeeps(ws[i - 1], acts[i - 1]);
    }
  }

  // ----- no stranded cleanup -----

  /** A Fiber parked in Pending or Failed, disposed, or done draining owes no
      cleanup and owns no Service slot. */
  lemma NothingStranded(w: World, f: Fid)
    requires Inv(w) && f in w.fibers
    requires var fb := w.fibers[f];
      fb.gate.state == Pending || fb.gate.state == Failed || fb.gate.state == Disposed || fb.drive.Drained?
    ensures w.fibers[f].journal.entries == map[] && OwnedBy(w.store, f) == {}
    ensures forall k :: k in w.fibers[f].past.claimed <==> 1 <= k <= w.fibers[f].journal.sn
  {
    assert FiberOk(w.fibers[f]) && LockOk(w, f);
    forall key | key in w.store.slots ensures w.store.slots[key].owner != f {
      assert SlotOk(w, key);
      if w.fibers[f].lock.Some? { assert ThreadOk(w, w.fibers[f].lock.value, w.threads[w.fibers[f].lock.value]); }
    }
  }

  /** A new generation opens on an empty journal: nothing crosses from the old one. */
  lemma OpensEmpty(w: World, f: Fid)
    requires Inv(w) && Enabled(w, Take(f, Open))
    ensures Do(w, Take(f, Open)).fibers[f].journal.entries == map[] && OwnedBy(Do(w, Take(f, Open)).store, f) == {}
  {
    NothingStranded(w, f);
  }

  /** Every occupied slot has its withdrawal owed by its owner. */
  lemma SlotsAreOwed(w: World, key: Key)
    requires Inv(w) && key in w.store.slots
    ensures w.store.slots[key].owner in w.fibers
    ensures Owed(w, w.store.slots[key].owner, Withdraw(key, w.store.slots[key].occurrence))
  {
    assert SlotOk(w, key);
  }

  // ----- exactly one claim -----

  function ClaimsOf(w: World, f: Fid): set<nat> {
    if f in w.fibers then w.fibers[f].past.claimed else {}
  }

  predicate Owns(w: World, f: Fid, token: nat) {
    f in w.fibers && token in w.fibers[f].journal.entries
  }

  /** What a step does to one Fiber's journal: nothing, one commit, or one claim. */
  ghost predicate JournalStep(fb: Fiber, fb': Fiber) {
    || (fb'.journal == fb.journal && fb'.past.claimed == fb.past.claimed)
    || (exists ob :: fb'.journal == Pushed(fb.journal, ob) && fb'.past.claimed == fb.past.claimed)
    || (exists token :: token in fb.journal.entries && fb'.journal == Taken(fb.journal, token) && fb'.past.claimed == fb.past.claimed + {token})
  }

  lemma TurnJournal(fb: Fiber, turn: Turn)
    requires CanTurn(fb, turn)
    ensures JournalStep(fb, TurnStep(fb, turn))
  {
    if turn.ClaimNext? { ClaimJournal(fb, fb.drive.todo[|fb.drive.todo| - 1]); }
  }

  lemma ClaimJournal(fb: Fiber, token: nat)
    ensures JournalStep(fb, Claimed(fb, token))
  {}

  lemma StepJournal(w: World, a: Action, f: Fid)
    requires Enabled(w, a) && f in w.fibers
    ensures f in Do(w, a).fibers && JournalStep(w.fibers[f], Do(w, a).fibers[f])
  {
    match a {
      case Take(g, turn) => if g == f { TurnJournal(w.fibers[f], turn); }
      case Claim(t) => ClaimJournal(w.fibers[f], w.threads[t].token);
      case Run(t, _) =>
        var th := w.threads[t];
        if th.Disarming? { ClaimJournal(w.fibers[f], th.token); }
        if th.Registering? && th.stage.Push? && th.f == f { assert Do(w, a).fibers[f].journal == Pushed(w.fibers[f].journal, Duty(th.offer)); }
      case _ =>
    }
  }

  /** A token that leaves the journal was claimed by this very step, and no step
      claims a token the generation does not own. */
  lemma ClaimIsExact(w: World, a: Action, f: Fid, token: nat)
    requires Inv(w) && Enabled(w, a)
    ensures token in ClaimsOf(Do(w, a), f) && token !in ClaimsOf(w, f) <==> Owns(w, f, token) && !Owns(Do(w, a), f, token)
    ensures token in ClaimsOf(w, f) ==> token in ClaimsOf(Do(w, a), f)
  {
    if f in w.fibers {
      assert FiberOk(w.fibers[f]);
      StepJournal(w, a, f);
    }
  }

  /** Once claimed, claimed for the rest of the run. */
  lemma {:induction false} ClaimedForever(ws: seq<World>, acts: seq<Action>, f: Fid, token: nat, i: nat, k: nat)
    requires IsRun(ws, acts) && Init(ws[0]) && i <= k < |ws| && token in ClaimsOf(ws[i], f)
    ensures token in ClaimsOf(ws[k], f) && !Owns(ws[k], f, token)
  {
    hide Do;
    hide Init;
    hide JournalStep;
    hide Emptied;
    if k > i {
      ClaimedForever(ws, acts, f, token, i, k - 1);
      RunInv(ws, acts, k - 1);
      ClaimIsExact(ws[k - 1], acts[k - 1], f, token);
    }
    RunInv(ws, acts, k);
    assert FiberOk(ws[k].fibers[f]);
  }

  /** The drain takes the youngest obligation the generation still owns, and
      everything it took before was younger. */
  lemma DrainIsLifo(w: World, f: Fid)
    requires Inv(w) && Enabled(w, Take(f, ClaimNext))
    ensures var fb, fb' := w.fibers[f], Do(w, Take(f, ClaimNext)).fibers[f];
      fb' == fb.(drive := fb'.drive) ||
      exists token :: token in fb.journal.entries && fb'.running == Some(fb.journal.entries[token])
        && fb'.journal == Taken(fb.journal, token)
        && (forall k :: k in fb.journal.entries ==> k <= token)
        && (forall i :: 0 <= i < |fb.past.order| ==> token < fb.past.order[i])
  {
    assert FiberOk(w.fibers[f]);
    hide Inv;
    hide FiberOk;
    ClaimsYoungest(w.fibers[f]);
    hide ClaimLast;
  }

  lemma ClaimsYoungest(fb: Fiber)
    requires FiberOk(fb) && CanTurn(fb, ClaimNext)
    ensures var fb' := ClaimLast(fb);
      fb' == fb.(drive := fb'.drive) ||
      exists token :: token in fb.journal.entries && fb'.running == Some(fb.journal.entries[token])
        && fb'.journal == Taken(fb.journal, token)
        && (forall k :: k in fb.journal.entries ==> k <= token)
        && (forall i :: 0 <= i < |fb.past.order| ==> token < fb.past.order[i])
  {
    var n := |fb.drive.todo| - 1;
    var token := fb.drive.todo[n];
    if token in fb.journal.entries {
      forall k | k in fb.journal.entries ensures k <= token {
        var i: nat :| i < |fb.drive.todo| && fb.drive.todo[i] == k;
      }
      assert ClaimLast(fb).running == Some(fb.journal.entries[token]);
    }
  }

  // ----- visibility and drift -----

  lemma ViewLives(w: World)
    requires Inv(w)
    ensures ActiveLives(View(w))
  {
    forall f | f in View(w) && View(w)[f].state == Active ensures View(w)[f].alive { assert FiberOk(w.fibers[f]); }
  }

  function SeenAt(w: World, key: Key): Option<Occurrence> {
    VisibleAt(View(w), w.store, key)
  }

  lemma SeenSame(w: World, w': World, key: Key)
    requires w'.store.slots == w.store.slots
    requires key in w.store.slots ==>
      var f := w.store.slots[key].owner;
      f in w.fibers && f in w'.fibers && (w.fibers[f].gate.alive && w.fibers[f].gate.state == Active <==> w'.fibers[f].gate.alive && w'.fibers[f].gate.state == Active)
    ensures SeenAt(w', key) == SeenAt(w, key)
  {}

  /** A store section owes the dependents of a key a revision exactly when what
      they can see changes. */
  lemma InstallDrift(w: World, t: Tid, flag: bool, key: Key)
    requires Inv(w) && Enabled(w, Run(t, flag)) && w.threads[t].Registering? && w.threads[t].stage.Publish? && w.threads[t].offer.Publication?
    ensures key in Drift(w, Run(t, flag)) <==> SeenAt(Do(w, Run(t, flag)), key) != SeenAt(w, key)
  {
    hide FiberOk;
    hide SlotOk;
    hide DutiesOk;
    hide LockOk;
    var th := w.threads[t];
    assert ThreadOk(w, t, th);
    ViewLives(w);
    InstallMeaning(View(w), w.store, th.offer.key, th.offer.slot, key);
    var w' := Do(w, Run(t, flag));
    assert View(w') == View(w);
  }

  lemma RemoveDrift(w: World, t: Tid, key: Key)
    requires Inv(w) && Enabled(w, Remove(t))
    ensures key in Drift(w, Remove(t)) <==> SeenAt(Do(w, Remove(t)), key) != SeenAt(w, key)
  {
    var th := w.threads[t];
    assert View(Do(w, Remove(t))) == View(w);
    assert ThreadOk(w, t, th);
    if Holds(w.store, th.offer.key, th.offer.slot.occurrence) {
      ExactMeaning(View(w), w.store, th.offer.key, th.offer.slot.occurrence, 0, key);
    }
  }

  lemma BoundaryDrift(w: World, w': World, f: Fid, key: Key)
    requires w'.store == w.store && f in w.fibers && f in w'.fibers && w'.fibers == w.fibers[f := w'.fibers[f]]
    requires w.fibers[f].gate.alive && w'.fibers[f].gate.alive
    requires (w.fibers[f].gate.state == Active) != (w'.fibers[f].gate.state == Active)
    ensures key in OwnedBy(w.store, f) <==> SeenAt(w', key) != SeenAt(w, key)
  {}

  lemma TurnLives(fb: Fiber, turn: Turn)
    requires FiberOk(fb) && CanTurn(fb, turn)
    ensures var fb' := TurnStep(fb, turn);
      if (fb.gate.state == Active) != (fb'.gate.state == Active) then fb.gate.alive && fb'.gate.alive
      else fb.gate.alive && fb.gate.state == Active <==> fb'.gate.alive && fb'.gate.state == Active
  {}

  lemma WithdrawnUnseen(view: map<Fid, Provider>, store: Store, at: Key, o: Occurrence, key: Key)
    requires Holds(store, at, o) ==> !VisibleSlot(view, store.slots[at])
    ensures VisibleAt(view, Withdrawn(store, at, o), key) == VisibleAt(view, store, key)
  {
    hide JournalOk;
    hide OrderOk;
    hide ThreadOk;
    hide SlotOk;
  }

  /** A withdrawal runs while its Fiber is Unloading: nobody sees the slot go. */
  lemma WithdrawUnseen(w: World, f: Fid, key: Key)
    requires Inv(w) && Enabled(w, Take(f, RunCleanup))
    ensures SeenAt(Do(w, Take(f, RunCleanup)), key) == SeenAt(w, key)
    ensures TurnStep(w.fibers[f], RunCleanup).gate == w.fibers[f].gate
  {
    var fb, w' := w.fibers[f], Do(w, Take(f, RunCleanup));
    assert FiberOk(fb);
    assert fb.gate.state == Unloading;
    if fb.running.value.Withdraw? {
      var at, o := fb.running.value.key, fb.running.value.occurrence;
      if Holds(w.store, at, o) { RunningIsOwn(w, f, at); }
      WithdrawnUnseen(View(w), w.store, at, o, key);
    }
    assert View(w') == View(w);
  }

  /** A Fiber only ever withdraws its own publications. */
  lemma RunningIsOwn(w: World, f: Fid, key: Key)
    requires Inv(w) && f in w.fibers && key in w.store.slots && w.fibers[f].running == Some(Withdraw(key, w.store.slots[key].occurrence))
    ensures w.store.slots[key].owner == f
  {
    assert DutiesOk(w, f);
  }

  lemma GateDrift(w: World, w': World, f: Fid, turn: Turn, key: Key)
    requires Inv(w) && f in w.fibers && CanTurn(w.fibers[f], turn) && w' == w.(fibers := w.fibers[f := TurnStep(w.fibers[f], turn)])
    ensures SeenAt(w', key) != SeenAt(w, key) <==>
      key in if (w.fibers[f].gate.state == Active) != (w'.fibers[f].gate.state == Active) then OwnedBy(w.store, f) else {}
  {
    assert FiberOk(w.fibers[f]);
    TurnLives(w.fibers[f], turn);
    if key in w.store.slots { assert SlotOk(w, key); }
    hide Inv;
    hide FiberOk;
    hide TurnStep;
    if (w.fibers[f].gate.state == Active) != (w'.fibers[f].gate.state == Active) {
      BoundaryDrift(w, w', f, key);
    } else {
      SeenSame(w, w', key);
    }
  }

  /** A lifecycle step changes what dependents see only at an Active boundary,
      and then at exactly the keys its Fiber owns. */
  lemma TurnDrift(w: World, f: Fid, turn: Turn, key: Key)
    requires Inv(w) && Enabled(w, Take(f, turn))
    ensures key in Drift(w, Take(f, turn)) <==> SeenAt(Do(w, Take(f, turn)), key) != SeenAt(w, key)
  {
    hide Inv;
    hide TurnStep;
    hide SeenAt;
    if turn.RunCleanup? {
      WithdrawUnseen(w, f, key);
    } else {
      GateDrift(w, Do(w, Take(f, turn)), f, turn, key);
    }
  }

  /** Threads do not change what the store can see of a Fiber. */
  lemma StepGate(w: World, a: Action, f: Fid)
    requires Enabled(w, a) && !a.Take? && f in w.fibers
    ensures f in Do(w, a).fibers && var p, p' := w.fibers[f].gate, Do(w, a).fibers[f].gate; p' == p.(closing := p'.closing)
  {}

  lemma OtherStore(w: World, a: Action)
    requires Enabled(w, a) && !a.Take? && !a.Remove? && !a.Set?
    requires a.Run? && w.threads[a.t].Registering? ==> !w.threads[a.t].stage.Publish? || !w.threads[a.t].offer.Publication?
    ensures Do(w, a).store == w.store && Drift(w, a) == {}
  {}

  lemma OtherDrift(w: World, a: Action, key: Key)
    requires Inv(w) && Enabled(w, a) && !a.Take? && !a.Remove?
    requires a.Run? && w.threads[a.t].Registering? ==> !w.threads[a.t].stage.Publish? || !w.threads[a.t].offer.Publication?
    ensures key !in Drift(w, a) && SeenAt(Do(w, a), key) == SeenAt(w, key)
  {
    if a.Set? {
      SetUnseen(w, a.t, a.value, key);
    } else {
      var w' := Do(w, a);
      OtherStore(w, a);
      if key in w.store.slots {
        assert SlotOk(w, key);
        StepGate(w, a, w.store.slots[key].owner);
      }
      SeenSame(w, w', key);
    }
  }

  lemma SetUnseen(w: World, t: Tid, value: Payload, key: Key)
    requires Enabled(w, Set(t, value))
    ensures SeenAt(Do(w, Set(t, value)), key) == SeenAt(w, key)
  {
    assert View(Do(w, Set(t, value))) == View(w);
  }

  /** Every step owes the dependents of a key a revision exactly when it changes
      what they can see there. */
  lemma DriftExactly(w: World, a: Action, key: Key)
    requires Inv(w) && Enabled(w, a)
    ensures key in Drift(w, a) <==> SeenAt(Do(w, a), key) != SeenAt(w, key)
  {
    match a {
      case Take(f, turn) => TurnDrift(w, f, turn, key);
      case Remove(t) => RemoveDrift(w, t, key);
      case Run(t, flag) =>
        if w.threads[t].Registering? && w.threads[t].stage.Publish? && w.threads[t].offer.Publication? { InstallDrift(w, t, flag, key); }
        else { OtherDrift(w, a, key); }
      case _ => OtherDrift(w, a, key);
    }
  }

  // ----- one interval of visibility -----

  ghost predicate Seen(w: World, o: Occurrence) {
    exists key :: SeenAt(w, key) == Some(o)
  }

  /** An occurrence that is past its only interval. */
  ghost predicate Faded(w: World, o: Occurrence) {
    && NotOffered(w, o)
    && forall key :: key in w.store.slots && w.store.slots[key].occurrence == o ==>
         w.store.slots[key].owner in w.fibers && w.fibers[w.store.slots[key].owner].gate.state == Unloading
  }

  lemma SlotNotOffered(w: World, key: Key)
    requires Inv(w) && key in w.store.slots
    ensures NotOffered(w, w.store.slots[key].occurrence)
  {
    assert SlotOk(w, key);
    forall u | u in w.threads && Unpublished(w.threads[u]) ensures OfferOf(w.threads[u]) != w.store.slots[key].occurrence {
      assert ThreadOk(w, u, w.threads[u]);
    }
  }

  lemma UnloadingTurn(fb: Fiber, turn: Turn)
    requires FiberOk(fb) && CanTurn(fb, turn) && fb.gate.state == Unloading && !fb.drive.Drained?
    ensures TurnStep(fb, turn).gate.state == Unloading
  {}

  lemma OwnerNotDrained(w: World, key: Key)
    requires Inv(w) && key in w.store.slots && w.store.slots[key].owner in w.fibers
    ensures !w.fibers[w.store.slots[key].owner].drive.Drained?
  {
    var f := w.store.slots[key].owner;
    assert SlotOk(w, key) && FiberOk(w.fibers[f]) && LockOk(w, f);
    if w.fibers[f].lock.Some? { assert ThreadOk(w, w.fibers[f].lock.value, w.threads[w.fibers[f].lock.value]); }
  }

  predicate OwnerUnloading(w: World, f: Fid) {
    f in w.fibers && w.fibers[f].gate.state == Unloading
  }

  /** While a Fiber owns a slot it leaves Unloading in no step. */
  lemma UnloadingStays(w: World, a: Action, key: Key)
    requires Inv(w) && Enabled(w, a) && key in w.store.slots && OwnerUnloading(w, w.store.slots[key].owner)
    ensures OwnerUnloading(Do(w, a), w.store.slots[key].owner)
  {
    var f := w.store.slots[key].owner;
    if a.Take? {
      if a.f == f {
        OwnerNotDrained(w, key);
        assert FiberOk(w.fibers[f]);
        UnloadingTurn(w.fibers[f], a.turn);
      }
    } else {
      StepGate(w, a, f);
    }
  }

  /** A slot in the store after a step was there before, with the same owner, or
      a registration has just published it. */
  lemma SlotOrigin(w: World, a: Action, key: Key)
    requires Enabled(w, a) && key in Do(w, a).store.slots
    ensures var slot := Do(w, a).store.slots[key];
      || (key in w.store.slots && w.store.slots[key].occurrence == slot.occurrence && w.store.slots[key].owner == slot.owner)
      || (a.Run? && Unpublished(w.threads[a.t]) && OfferOf(w.threads[a.t]) == slot.occurrence)
  {}

  lemma OfferOrigin(w: World, a: Action, u: Tid)
    requires Enabled(w, a) && u in Do(w, a).threads && Unpublished(Do(w, a).threads[u])
    ensures var th := Do(w, a).threads[u];
      || (u in w.threads && Unpublished(w.threads[u]) && OfferOf(w.threads[u]) == OfferOf(th))
      || OfferOf(th) !in w.used
  {}

  lemma UsedGrows(w: World, a: Action)
    requires Enabled(w, a)
    ensures w.used <= Do(w, a).used
  {}

  lemma FadedStays(w: World, a: Action, o: Occurrence)
    requires Inv(w) && Enabled(w, a) && Faded(w, o)
    ensures Faded(Do(w, a), o)
  {
    var w' := Do(w, a);
    UsedGrows(w, a);
    forall u | u in w'.threads && Unpublished(w'.threads[u]) ensures OfferOf(w'.threads[u]) != o { OfferOrigin(w, a, u); }
    forall key | key in w'.store.slots && w'.store.slots[key].occurrence == o
      ensures OwnerUnloading(w', w'.store.slots[key].owner)
    {
      SlotOrigin(w, a, key);
      UnloadingStays(w, a, key);
    }
  }

  lemma ActiveLeaves(fb: Fiber, turn: Turn)
    requires CanTurn(fb, turn) && FiberOk(fb) && fb.gate.state == Active
    ensures var p := TurnStep(fb, turn).gate; p.state == Unloading || (p.state == Active && p.alive)
  {}

  /** A provider that stops being visible while its slot stays is Unloading. */
  lemma OwnerLeaves(w: World, a: Action, f: Fid)
    requires Inv(w) && Enabled(w, a) && f in w.fibers && w.fibers[f].gate.state == Active && w.fibers[f].gate.alive
    ensures OwnerUnloading(Do(w, a), f) || (f in Do(w, a).fibers && Do(w, a).fibers[f].gate.alive && Do(w, a).fibers[f].gate.state == Active)
  {
    if a.Take? {
      if a.f == f { assert FiberOk(w.fibers[f]); ActiveLeaves(w.fibers[f], a.turn); }
    } else {
      StepGate(w, a, f);
    }
  }

  lemma SeenSlot(w: World, w': World, key: Key, o: Occurrence)
    requires SeenAt(w, key) == Some(o) && !Seen(w', o)
    ensures Holds(w.store, key, o) && w.store.slots[key].owner in w.fibers
    ensures var p := w.fibers[w.store.slots[key].owner].gate; p.alive && p.state == Active
    ensures Holds(w'.store, key, o) && w'.store.slots[key].owner in w'.fibers ==>
      var p := w'.fibers[w'.store.slots[key].owner].gate; !p.alive || p.state != Active
  {
    assert SeenAt(w', key) != Some(o);
  }

  lemma SeenFades(w: World, a: Action, o: Occurrence)
    requires Inv(w) && Enabled(w, a) && Seen(w, o) && !Seen(Do(w, a), o)
    ensures Faded(Do(w, a), o)
  {
    hide FiberOk;
    hide SlotOk;
    hide ThreadOk;
    hide DutiesOk;
    var w' := Do(w, a);
    var key: Key :| SeenAt(w, key) == Some(o);
    SeenSlot(w, w', key, o);
    SlotNotOffered(w, key);
    UsedGrows(w, a);
    forall u | u in w'.threads && Unpublished(w'.threads[u]) ensures OfferOf(w'.threads[u]) != o { OfferOrigin(w, a, u); }
    forall k | k in w'.store.slots && w'.store.slots[k].occurrence == o
      ensures OwnerUnloading(w', w'.store.slots[k].owner)
    {
      SlotOrigin(w, a, k);
      OwnerLeaves(w, a, w.store.slots[key].owner);
    }
  }

  lemma FadedUnseen(w: World, o: Occurrence)
    requires Faded(w, o)
    ensures !Seen(w, o)
  {}

  lemma {:induction false} FadedForever(ws: seq<World>, acts: seq<Action>, o: Occurrence, i: nat, k: nat)
    requires IsRun(ws, acts) && Init(ws[0]) && i <= k < |ws| && Faded(ws[i], o)
    ensures Faded(ws[k], o)
  {
    hide Do;
    hide Inv;
    hide Init;
    hide Faded;
    if k > i {
      FadedForever(ws, acts, o, i, k - 1);
      RunInv(ws, acts, k - 1);
      FadedStays(ws[k - 1], acts[k - 1], o);
    }
  }

  /** The last instant before j at which the occurrence was seen. */
  lemma {:induction false} LastSeen(ws: seq<World>, o: Occurrence, i: nat, j: nat) returns (m: nat)
    requires i < j < |ws| && Seen(ws[i], o) && !Seen(ws[j], o)
    ensures i <= m < j && Seen(ws[m], o) && !Seen(ws[m + 1], o)
    decreases j - i
  {
    if Seen(ws[i + 1], o) { m := LastSeen(ws, o, i + 1, j); } else { m := i; }
  }

  /** Each occurrence is visible over one interval: once seen and gone, it never
      becomes visible again. */
  lemma OneInterval(ws: seq<World>, acts: seq<Action>, o: Occurrence, i: nat, j: nat, k: nat)
    requires IsRun(ws, acts) && Init(ws[0]) && i < j <= k < |ws|
    requires Seen(ws[i], o) && !Seen(ws[j], o)
    ensures !Seen(ws[k], o)
  {
    var m := LastSeen(ws, o, i, j);
    RunInv(ws, acts, m);
    SeenFades(ws[m], acts[m], o);
    FadedForever(ws, acts, o, m + 1, k);
    FadedUnseen(ws[k], o);
  }

  // ----- era swap -----

  function Captured(w: World, f: Fid): Option<set<Key>> {
    if f in w.fibers then w.fibers[f].past.captured else None
  }

  lemma ClosedCapture(w: World, t: Tid, flag: bool, f: Fid)
    requires Enabled(w, Run(t, flag)) && Captured(w, f).Some? && w.fibers[f].gate.closing
    ensures Captured(Do(w, Run(t, flag)), f) == Captured(w, f)
  {}

  lemma OtherCapture(w: World, a: Action, f: Fid)
    requires Enabled(w, a) && !a.Run? && Captured(w, f).Some?
    ensures Captured(Do(w, a), f) == Captured(w, f)
  {
    if a.Take? { TurnTrace(w.fibers[a.f], a.turn); }
  }

  lemma CapturedStays(w: World, a: Action, f: Fid)
    requires Inv(w) && Enabled(w, a) && Captured(w, f).Some?
    ensures Captured(Do(w, a), f) == Captured(w, f)
  {
    hide Do;
    assert FiberOk(w.fibers[f]);
    if a.Run? { ClosedCapture(w, a.t, a.flag, f); } else { OtherCapture(w, a, f); }
  }

  lemma {:induction false} CapturedForever(ws: seq<World>, acts: seq<Action>, f: Fid, i: nat, k: nat)
    requires IsRun(ws, acts) && Init(ws[0]) && i <= k < |ws| && Captured(ws[i], f).Some?
    ensures Captured(ws[k], f) == Captured(ws[i], f)
  {
    hide Do;
    hide Inv;
    hide Init;
    hide Captured;
    if k > i {
      CapturedForever(ws, acts, f, i, k - 1);
      RunInv(ws, acts, k - 1);
      CapturedStays(ws[k - 1], acts[k - 1], f);
    }
  }

  /** Era swap: every slot the source owns at its terminal claim, or at any
      later instant, lies in the edge set the swap read. */
  lemma EraSnapshotComplete(ws: seq<World>, acts: seq<Action>, i: nat, k: nat)
    requires IsRun(ws, acts) && Init(ws[0]) && i < |acts| && i <= k < |ws|
    requires acts[i].Run? && !acts[i].flag && acts[i].t in ws[i].threads && ws[i].threads[acts[i].t].EraClosing?
    requires !ws[i].fibers[ws[i].threads[acts[i].t].f].gate.closing
    ensures OwnedBy(ws[k].store, ws[i].threads[acts[i].t].f) <= ws[i].threads[acts[i].t].edges
  {
    var t, th := acts[i].t, ws[i].threads[acts[i].t];
    RunInv(ws, acts, i);
    assert ThreadOk(ws[i], t, th);
    if k > i {
      assert Captured(ws[i + 1], th.f) == Some(th.edges);
      CapturedForever(ws, acts, th.f, i + 1, k);
      RunInv(ws, acts, k);
      forall key | key in OwnedBy(ws[k].store, th.f) ensures key in th.edges { assert SlotOk(ws[k], key); }
    }
  }

  // ----- at every instant of every run -----

  /** Instant i of a run from an empty Runtime. */
  ghost predicate Reaches(ws: seq<World>, acts: seq<Action>, i: nat) {
    IsRun(ws, acts) && Init(ws[0]) && i < |ws|
  }

  /** A parked, failed, disposed or drained Fiber owes nothing, owns nothing, and
      everything it ever committed was claimed. */
  lemma CleanAtRest(ws: seq<World>, acts: seq<Action>, i: nat, f: Fid)
    requires Reaches(ws, acts, i) && f in ws[i].fibers
    requires var fb := ws[i].fibers[f];
      fb.gate.state == Pending || fb.gate.state == Failed || fb.gate.state == Disposed || fb.drive.Drained?
    ensures ws[i].fibers[f].journal.entries == map[] && OwnedBy(ws[i].store, f) == {}
    ensures forall k :: k in ws[i].fibers[f].past.claimed <==> 1 <= k <= ws[i].fibers[f].journal.sn
  {
    RunInv(ws, acts, i);
    NothingStranded(ws[i], f);
  }

  /** A generation opens Loading on an empty journal and without slots, and its
      gate admits registrations unless a terminal claim has been made. */
  lemma NothingCrosses(ws: seq<World>, acts: seq<Action>, i: nat, f: Fid)
    requires Reaches(ws, acts, i) && i < |acts| && acts[i] == Take(f, Open)
    ensures ws[i + 1].fibers[f].gate.state == Loading
    ensures Admits(ws[i + 1].fibers[f].gate) <==> !ws[i].fibers[f].gate.closing
    ensures ws[i + 1].fibers[f].journal.entries == map[] && OwnedBy(ws[i + 1].store, f) == {}
  {
    RunInv(ws, acts, i);
    OpensEmpty(ws[i], f);
  }

  /** Every occupied slot has its withdrawal owed by its owner. */
  lemma SlotsOwed(ws: seq<World>, acts: seq<Action>, i: nat, key: Key)
    requires Reaches(ws, acts, i) && key in ws[i].store.slots
    ensures ws[i].store.slots[key].owner in ws[i].fibers
    ensures Owed(ws[i], ws[i].store.slots[key].owner, Withdraw(key, ws[i].store.slots[key].occurrence))
  {
    RunInv(ws, acts, i);
    SlotsAreOwed(ws[i], key);
  }

  /** A revision goes out for a key exactly when what is visible there changes. */
  lemma DriftFollowsVisibility(ws: seq<World>, acts: seq<Action>, i: nat, key: Key)
    requires Reaches(ws, acts, i) && i < |acts|
    ensures key in Drift(ws[i], acts[i]) <==> SeenAt(ws[i + 1], key) != SeenAt(ws[i], key)
  {
    RunInv(ws, acts, i);
    DriftExactly(ws[i], acts[i], key);
  }

  /** The drain takes the youngest obligation left, older than all it took before. */
  lemma DrainsBackwards(ws: seq<World>, acts: seq<Action>, i: nat, f: Fid)
    requires Reaches(ws, acts, i) && i < |acts| && acts[i] == Take(f, ClaimNext)
    ensures var fb, fb' := ws[i].fibers[f], ws[i + 1].fibers[f];
      fb' == fb.(drive := fb'.drive) ||
      exists token :: token in fb.journal.entries && fb'.running == Some(fb.journal.entries[token])
        && fb'.journal == Taken(fb.journal, token)
        && (forall k :: k in fb.journal.entries ==> k <= token)
        && (forall n :: 0 <= n < |fb.past.order| ==> token < fb.past.order[n])
  {
    RunInv(ws, acts, i);
    DrainIsLifo(ws[i], f);
  }

  /** What a capability stands for: unless it was claimed, an effect's own cleanup,
      or the exact withdrawal of a publication, is in its Fiber's journal under
      the token it holds. */
  lemma HoldersAreOwned(ws: seq<World>, acts: seq<Action>, i: nat, t: Tid)
    requires Reaches(ws, acts, i) && t in ws[i].threads && ws[i].threads[t].Holding?
    requires ws[i].threads[t].token !in ClaimsOf(ws[i], ws[i].threads[t].f)
    ensures var th := ws[i].threads[t];
      && th.f in ws[i].fibers && th.token in ws[i].fibers[th.f].journal.entries
      && ws[i].fibers[th.f].journal.entries[th.token] ==
           match th.offer case Effect(id) => Plain(id) case Publication(key, slot) => Withdraw(key, slot.occurrence)
  {
    RunInv(ws, acts, i);
    var th := ws[i].threads[t];
    assert ThreadOk(ws[i], t, th) && FiberOk(ws[i].fibers[th.f]);
  }
}
