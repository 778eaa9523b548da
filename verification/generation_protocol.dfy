/** Registration, manual claims, drains and era snapshots of any number of
    Fibers over one Service store, as a transition system. One step is one
    atomic load of a gate, one acquisition of the cleanup-journal lock, one
    Service-store section, or one publication of a lifecycle state. */
module GenerationProtocol {
  import opened Fibers
  import opened Services
  import opened Journals

  /** Where the one slot owner of a Fiber stands with the generation's cleanup. */
  datatype Drive =
    | Rest                         // no cleanup in progress
    | Sealed                       // Unloading is published, the journal not yet read
    | Claiming(todo: seq<nat>)     // the snapshot, still to be claimed from its end
    | Drained

  /** History: read by no step. */
  datatype Trace = Trace(
    claimed: set<nat>,             // tokens that left the journal
    order: seq<nat>,               // what the drain claimed since Unloading was published
    captured: Option<set<Key>>)    // the edges of the era swap that closed the Fiber

  datatype Fiber = Fiber(
    gate: Provider,
    journal: Journal,
    lock: Option<Tid>,             // holder of the journal lock
    drive: Drive,
    running: Option<Obligation>,   // claimed by the drain, not finished
    past: Trace)

  datatype Offer = Effect(id: nat) | Publication(key: Key, slot: Slot)

  function Duty(offer: Offer): Obligation {
    match offer
    case Effect(id) => Plain(id)
    case Publication(key, slot) => Withdraw(key, slot.occurrence)
  }

  /** Program points of push_gated. The two gates load four facts each. */
  datatype Stage = Gate(load: nat) | TakeLock | Recheck(load: nat) | Publish | Push

  datatype Thread =
    | Finished
    | Registering(f: Fid, offer: Offer, stage: Stage)
    | Holding(f: Fid, offer: Offer, token: nat)      // the capability for one occurrence
    | Disarming(f: Fid, offer: Offer, token: nat)    // remove(): the slot is gone, its claim is next
    | EraWaiting(f: Fid)
    | EraReading(f: Fid)                             // era swap: holds the journal lock
    | EraClosing(f: Fid, edges: set<Key>)            // ... and has read the source's slots

  datatype World = World(fibers: map<Fid, Fiber>, store: Store, threads: map<Tid, Thread>, used: set<Occurrence>)

  function View(w: World): map<Fid, Provider> {
    map f | f in w.fibers :: w.fibers[f].gate
  }

  const FRESH := Fiber(Provider(true, false, false, Pending), EMPTY, None, Rest, None, Trace({}, [], None))

  // ----- threads -----

  /** One load of assert_can_register. */
  predicate Passes(p: Provider, load: nat) {
    match load
    case 0 => p.alive
    case 1 => !p.closing
    case 2 => !p.replacing
    case _ => p.state == Loading || p.state == Active
  }

  function Unlocked(fb: Fiber): Fiber {
    fb.(lock := None)
  }

  /** The exact claim of one token, by hand or by the drain. */
  function Claimed(fb: Fiber, token: nat): Fiber {
    if token in fb.journal.entries
    then fb.(journal := Taken(fb.journal, token), past := fb.past.(claimed := fb.past.claimed + {token}))
    else fb
  }

  function Update(w: World, f: Fid, fb: Fiber, t: Tid, th: Thread): World {
    w.(fibers := w.fibers[f := fb], threads := w.threads[t := th])
  }

  /** The publish section: the store is locked beneath the journal lock. */
  function PublishStep(w: World, t: Tid, f: Fid, offer: Offer): World
    requires f in w.fibers
  {
    match offer
    case Effect(_) => Update(w, f, w.fibers[f], t, Registering(f, offer, Push))
    case Publication(key, slot) =>
      (match Installed(View(w), w.store, key, slot)
       case Refused(_) => Update(w, f, Unlocked(w.fibers[f]), t, Finished)
       case Done(store, _, _) => Update(w, f, w.fibers[f], t, Registering(f, offer, Push)).(store := store))
  }

  function RegisterStep(w: World, t: Tid, f: Fid, offer: Offer, stage: Stage): World
    requires f in w.fibers
  {
    var fb := w.fibers[f];
    match stage
    case Gate(i) =>
      Update(w, f, fb, t, if !Passes(fb.gate, i) then Finished else Registering(f, offer, if i < 3 then Gate(i + 1) else TakeLock))
    case TakeLock => Update(w, f, fb.(lock := Some(t)), t, Registering(f, offer, Recheck(0)))
    case Recheck(i) =>
      if !Passes(fb.gate, i) then Update(w, f, Unlocked(fb), t, Finished)
      else Update(w, f, fb, t, Registering(f, offer, if i < 3 then Recheck(i + 1) else Publish))
    case Publish => PublishStep(w, t, f, offer)
    case Push =>
      Update(w, f, Unlocked(fb).(journal := Pushed(fb.journal, Duty(offer))), t, Holding(f, offer, fb.journal.sn + 1))
  }

  /** The terminal claim of an era swap, under the journal lock it read its edges with. */
  function EraClose(fb: Fiber, edges: set<Key>): Fiber {
    Unlocked(fb).(gate := fb.gate.(closing := true), past := fb.past.(captured := if fb.gate.closing then fb.past.captured else Some(edges)))
  }

  /** One step of a thread. `flag` is the recursion refusal of an era swap. */
  function ThreadStep(w: World, t: Tid, th: Thread, flag: bool): World
    requires th.Finished? || th.f in w.fibers
  {
    match th
    case Registering(f, offer, stage) => RegisterStep(w, t, f, offer, stage)
    case Disarming(f, _, token) => Update(w, f, Claimed(w.fibers[f], token), t, Finished)
    case EraWaiting(f) => Update(w, f, w.fibers[f].(lock := Some(t)), t, EraReading(f))
    case EraReading(f) => Update(w, f, w.fibers[f], t, EraClosing(f, OwnedBy(w.store, f)))
    case EraClosing(f, edges) =>
      Update(w, f, if flag then Unlocked(w.fibers[f]) else EraClose(w.fibers[f], edges), t, Finished)
    case _ => w
  }

  /** ServicePublication::remove up to its store section. */
  function RemoveStep(w: World, t: Tid, f: Fid, offer: Offer, token: nat): World
    requires offer.Publication?
  {
    match Removed(View(w), w.store, offer.key, offer.slot.occurrence, f)
    case Refused(_) => w.(threads := w.threads[t := Finished])
    case Done(store, _, _) => w.(store := store, threads := w.threads[t := Disarming(f, offer, token)])
  }

  function SetStep(w: World, f: Fid, key: Key, o: Occurrence, value: Payload): World {
    w.(store := StoreAfter(w.store, Swapped(View(w), w.store, key, o, f, value)))
  }

  // ----- the slot owner -----

  datatype Turn =
    | Seal | Kill | Snapshot | ClaimNext | RunCleanup | Exhaust | Resume
    | Open | Activate | Park(state: FiberState) | Bury | Terminate | Replace

  predicate CanTurn(fb: Fiber, turn: Turn) {
    match turn
    case Seal => fb.drive.Rest? && fb.gate.state != Disposed
    case Kill => fb.drive.Sealed?
    case Snapshot => fb.drive.Sealed? && fb.running.None? && fb.lock.None?
    case ClaimNext => fb.drive.Claiming? && fb.drive.todo != [] && fb.running.None? && fb.lock.None?
    case RunCleanup => fb.running.Some?
    case Exhaust => fb.drive.Claiming? && fb.drive.todo == [] && fb.running.None?
    case Resume => !fb.drive.Rest?
    case Open => fb.gate.alive && (fb.drive.Drained? || (fb.drive.Rest? && fb.gate.state == Pending))
    case Activate => fb.gate.alive && fb.drive.Rest? && fb.gate.state == Loading
    case Park(s) => fb.gate.alive && fb.drive.Drained? && (s == Pending || s == Failed)
    case Bury => !fb.gate.alive && fb.drive.Drained?
    case Terminate => true
    case Replace => true
  }

  function Publishing(fb: Fiber, s: FiberState, drive: Drive): Fiber {
    fb.(gate := fb.gate.(state := s), drive := drive)
  }

  function ClaimLast(fb: Fiber): Fiber
    requires fb.drive.Claiming? && fb.drive.todo != []
  {
    var n := |fb.drive.todo| - 1;
    var token := fb.drive.todo[n];
    var next := Claimed(fb, token).(drive := Claiming(fb.drive.todo[..n]));
    if token in fb.journal.entries
    then next.(running := Some(fb.journal.entries[token]), past := next.past.(order := fb.past.order + [token]))
    else next
  }

  function TurnStep(fb: Fiber, turn: Turn): Fiber
    requires CanTurn(fb, turn)
  {
    match turn
    case Seal => Publishing(fb, Unloading, Sealed).(past := fb.past.(order := []))
    case Kill => fb.(gate := fb.gate.(alive := false))
    case Snapshot => fb.(drive := Claiming(Tokens(fb.journal)))
    case ClaimNext => ClaimLast(fb)
    case RunCleanup => fb.(running := None)
    case Exhaust => fb.(drive := Drained)
    case Resume => fb.(drive := Sealed)
    case Open => Publishing(fb, Loading, Rest).(gate := fb.gate.(state := Loading, replacing := false))
    case Activate => Publishing(fb, Active, Rest)
    case Park(s) => Publishing(fb, s, Rest)
    case Bury => Publishing(fb, Disposed, Rest)
    case Terminate => fb.(gate := fb.gate.(closing := true))
    case Replace => fb.(gate := fb.gate.(replacing := true))
  }

  /** What a turn does to the store: only a withdrawal touches it. */
  function TurnStore(w: World, fb: Fiber, turn: Turn): Store {
    if turn.RunCleanup? && fb.running.Some? && fb.running.value.Withdraw?
    then Withdrawn(w.store, fb.running.value.key, fb.running.value.occurrence) else w.store
  }

  // ----- runs -----

  datatype Action =
    | Attach(f: Fid)
    | Register(t: Tid, f: Fid, offer: Offer)
    | EraSwap(t: Tid, f: Fid)
    | Run(t: Tid, flag: bool)
    | Remove(t: Tid)
    | Set(t: Tid, value: Payload)
    | Claim(t: Tid)                // EffectRegistration: disarm, or dispose up to its claim
    | Take(f: Fid, turn: Turn)     // the slot owner's next step

  predicate NeedsLock(th: Thread) {
    (th.Registering? && th.stage.TakeLock?) || th.EraWaiting? || th.Disarming?
  }

  /** A new publication carries an occurrence nobody has carried before. */
  predicate FreshOffer(w: World, f: Fid, offer: Offer) {
    offer.Publication? ==> offer.slot.owner == f && offer.slot.occurrence !in w.used
  }

  predicate Enabled(w: World, a: Action) {
    match a
    case Attach(f) => f !in w.fibers
    case Register(t, f, offer) => t !in w.threads && f in w.fibers && FreshOffer(w, f, offer)
    case EraSwap(t, f) => t !in w.threads && f in w.fibers
    case Run(t, _) =>
      && t in w.threads && var th := w.threads[t];
      !th.Finished? && !th.Holding? && th.f in w.fibers && (NeedsLock(th) ==> w.fibers[th.f].lock.None?)
    case Remove(t) => t in w.threads && w.threads[t].Holding? && w.threads[t].offer.Publication?
    case Set(t, _) => t in w.threads && w.threads[t].Holding? && w.threads[t].offer.Publication?
    case Claim(t) => t in w.threads && w.threads[t].Holding? && w.threads[t].offer.Effect?
      && w.threads[t].f in w.fibers && w.fibers[w.threads[t].f].lock.None?
    case Take(f, turn) => f in w.fibers && CanTurn(w.fibers[f], turn)
  }

  function Do(w: World, a: Action): World
    requires Enabled(w, a)
  {
    match a
    case Attach(f) => w.(fibers := w.fibers[f := FRESH])
    case Register(t, f, offer) =>
      w.(threads := w.threads[t := Registering(f, offer, Gate(0))], used := if offer.Publication? then w.used + {offer.slot.occurrence} else w.used)
    case EraSwap(t, f) => w.(threads := w.threads[t := EraWaiting(f)])
    case Run(t, flag) => ThreadStep(w, t, w.threads[t], flag)
    case Remove(t) => var th := w.threads[t]; RemoveStep(w, t, th.f, th.offer, th.token)
    case Set(t, value) => var th := w.threads[t]; SetStep(w, th.f, th.offer.key, th.offer.slot.occurrence, value)
    case Claim(t) => var th := w.threads[t]; Update(w, th.f, Claimed(w.fibers[th.f], th.token), t, Finished)
    case Take(f, turn) => w.(fibers := w.fibers[f := TurnStep(w.fibers[f], turn)], store := TurnStore(w, w.fibers[f], turn))
  }

  /** The keys whose dependents a step commits a revision for. */
  function Drift(w: World, a: Action): set<Key>
    requires Enabled(w, a)
  {
    match a
    case Run(t, _) =>
      var th := w.threads[t];
      if th.Registering? && th.stage.Publish? && th.offer.Publication? then
        var r := Installed(View(w), w.store, th.offer.key, th.offer.slot);
        if r.Done? && r.drift then {th.offer.key} else {}
      else {}
    case Remove(t) =>
      var th := w.threads[t];
      var r := Removed(View(w), w.store, th.offer.key, th.offer.slot.occurrence, th.f);
      if r.Done? && r.drift then {th.offer.key} else {}
    case Take(f, turn) =>
      if (w.fibers[f].gate.state == Active) != (TurnStep(w.fibers[f], turn).gate.state == Active) then OwnedBy(w.store, f) else {}
    case _ => {}
  }

  predicate Init(w: World) {
    w == World(map[], Store(map[], map[]), map[], {})
  }

  ghost predicate IsRun(ws: seq<World>, acts: seq<Action>) {
    && |ws| == |acts| + 1
    && forall i :: 0 <= i < |acts| ==> Enabled(ws[i], acts[i]) && ws[i + 1] == Do(ws[i], acts[i])
  }
}
