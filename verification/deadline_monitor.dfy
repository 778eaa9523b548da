/** The deadline scheduler as a monitor: any number of callers arm and cancel
    deadlines while one worker thread, which the operating system may refuse or
    lose, fires them. One step is one lock section, one notification, one send,
    or the passing of time. */
module DeadlineMonitor {
  import opened Fibers
  import opened Deadlines

  datatype Worker =
    | Gone
    | Starting                          // about to take the lock
    | Delivering(due: seq<DeadlineKey>) // the lock is released, these senders are its own
    | Parked(wake: Option<Time>)

  datatype Waiter =
    | Inserting(at: Time)
    | Notifying(key: DeadlineKey)       // inserted the earliest entry, owes the worker a notification
    | Armed(key: DeadlineKey)
    | Never                             // beyond the representable clock
    | FiredAtOnce                       // due when armed
    | Unavailable                       // the worker was refused
    | Dropped

  datatype Monitor = Monitor(armed: seq<DeadlineKey>, nextId: nat, worker: Worker, now: Time, limit: Time)

  /** History: read by no step. */
  datatype Ledger = Ledger(issued: set<DeadlineKey>, sent: map<DeadlineKey, Time>, cancelled: set<DeadlineKey>, refused: bool)

  datatype World = World(m: Monitor, threads: map<Tid, Waiter>, past: Ledger)

  datatype Action =
    | Arm(t: Tid, timeout: Time)
    | Insert(t: Tid, spawns: bool)      // spawns answers the thread spawn, if one is needed
    | Notify(t: Tid)
    | Drop(t: Tid)
    | Scan                              // the worker's section
    | Send
    | Wake                              // timeout or spurious wake-up
    | Lose(spawns: bool)                // the worker exits; its retirement may start a replacement
    | Tick(passed: Time)

  predicate Enabled(w: World, a: Action) {
    match a
    case Arm(t, _) => t !in w.threads
    case Insert(t, _) => t in w.threads && w.threads[t].Inserting?
    case Notify(t) => t in w.threads && w.threads[t].Notifying?
    case Drop(t) => t in w.threads && (w.threads[t].Armed? || w.threads[t].Never? || w.threads[t].FiredAtOnce?)
    case Scan => w.m.worker.Starting?
    case Send => w.m.worker.Delivering?
    case Wake => w.m.worker.Parked?
    case Lose(_) => w.m.worker.Starting?
    case Tick(_) => true
  }

  function ArmStep(m: Monitor, timeout: Time): Waiter {
    if m.now + timeout > m.limit then Never else if timeout == 0 then FiredAtOnce else Inserting(m.now + timeout)
  }

  function InsertStep(w: World, t: Tid, at: Time, spawns: bool): World {
    if w.m.worker.Gone? && !spawns
    then w.(threads := w.threads[t := Unavailable], past := w.past.(refused := true))
    else
      var key := DeadlineKey(at, w.m.nextId);
      var earliest := w.m.armed == [] || Less(key, w.m.armed[0]);
      World(w.m.(armed := Inserted(w.m.armed, key), nextId := w.m.nextId + 1, worker := if w.m.worker.Gone? then Starting else w.m.worker),
            w.threads[t := if earliest then Notifying(key) else Armed(key)],
            w.past.(issued := w.past.issued + {key}, refused := if w.m.worker.Gone? then false else w.past.refused))
  }

  function DropStep(w: World, t: Tid): World {
    if t in w.threads && w.threads[t].Armed? then
      var key := w.threads[t].key;
      World(w.m.(armed := Erased(w.m.armed, key)), w.threads[t := Dropped],
            if key in w.m.armed then w.past.(cancelled := w.past.cancelled + {key}) else w.past)
    else w.(threads := w.threads[t := Dropped])
  }

  function ScanStep(m: Monitor): Monitor {
    var n := Due(m.armed, m.now);
    if n > 0 then m.(armed := m.armed[n..], worker := Delivering(m.armed[..n]))
    else m.(worker := Parked(if m.armed == [] then None else Some(m.armed[0].at)))
  }

  function SendStep(w: World): World
    requires w.m.worker.Delivering?
  {
    var due := w.m.worker.due;
    if due == [] then w.(m := w.m.(worker := Starting))
    else w.(m := w.m.(worker := Delivering(due[1..])), past := w.past.(sent := w.past.sent[due[0] := w.m.now]))
  }

  /** The retirement section: hand still-armed entries to a replacement. */
  function LoseStep(w: World, spawns: bool): World {
    if w.m.armed != [] && spawns then w.(m := w.m.(worker := Starting), past := w.past.(refused := false))
    else w.(m := w.m.(worker := Gone), past := w.past.(refused := if w.m.armed != [] then true else w.past.refused))
  }

  function Do(w: World, a: Action): World
    requires Enabled(w, a)
  {
    match a
    case Arm(t, timeout) => w.(threads := w.threads[t := ArmStep(w.m, timeout)])
    case Insert(t, spawns) => InsertStep(w, t, w.threads[t].at, spawns)
    case Notify(t) =>
      w.(m := w.m.(worker := if w.m.worker.Parked? then Starting else w.m.worker), threads := w.threads[t := Armed(w.threads[t].key)])
    case Drop(t) => DropStep(w, t)
    case Scan => w.(m := ScanStep(w.m))
    case Send => SendStep(w)
    case Wake => w.(m := w.m.(worker := Starting))
    case Lose(spawns) => LoseStep(w, spawns)
    case Tick(passed) => w.(m := w.m.(now := w.m.now + passed))
  }

  predicate Init(w: World) {
    && w.m.armed == [] && w.m.nextId == 0 && w.m.worker == Gone && w.threads == map[]
    && w.past == Ledger({}, map[], {}, false)
  }

  // ----- the invariant -----

  function InFlight(m: Monitor): seq<DeadlineKey> {
    if m.worker.Delivering? then m.worker.due else []
  }

  /** Every armed entry is in exactly one place: the table, the worker's hands,
      fired, or disarmed. */
  ghost predicate Accounted(w: World) {
    && w.past.issued == Keys(w.m.armed) + Keys(InFlight(w.m)) + w.past.sent.Keys + w.past.cancelled
    && Keys(w.m.armed) !! Keys(InFlight(w.m)) !! w.past.sent.Keys !! w.past.cancelled
    && Sorted(w.m.armed) && Sorted(InFlight(w.m))
    && (forall k :: k in w.past.issued ==> k.id < w.m.nextId)
  }

  predicate Punctual(w: World) {
    && (forall i :: 0 <= i < |InFlight(w.m)| ==> InFlight(w.m)[i].at <= w.m.now)
    && (forall k :: k in w.past.sent ==> k.at <= w.past.sent[k] <= w.m.now)
  }

  predicate Owing(w: World) {
    exists t :: t in w.threads && w.threads[t].Notifying?
  }

  /** A parked worker wakes no later than the earliest deadline, unless an
      inserter still owes it a notification. */
  predicate WakesInTime(w: World) {
    w.m.worker.Parked? && w.m.armed != [] && !Owing(w) ==> w.m.worker.wake.Some? && w.m.worker.wake.value <= w.m.armed[0].at
  }

  ghost predicate Inv(w: World) {
    && Accounted(w) && Punctual(w) && WakesInTime(w)
    && (w.m.worker.Gone? && w.m.armed != [] ==> w.past.refused)
  }

  /** Only the inserter itself pays what it owes. */
  lemma OwingStays(w: World, w': World, t: Tid)
    requires w'.threads.Keys == w.threads.Keys + {t} && forall u :: u in w.threads && u != t ==> w'.threads[u] == w.threads[u]
    requires t in w.threads && w.threads[t].Notifying? ==> w'.threads[t].Notifying?
    ensures Owing(w) ==> Owing(w')
  {
    if Owing(w) {
      var u :| u in w.threads && w.threads[u].Notifying?;
      assert u in w'.threads && w'.threads[u].Notifying?;
    }
  }

  lemma InsertKeeps(w: World, t: Tid, spawns: bool)
    requires Inv(w) && Enabled(w, Insert(t, spawns))
    ensures Inv(Do(w, Insert(t, spawns)))
  {
    var w' := Do(w, Insert(t, spawns));
    OwingStays(w, w', t);
    if !w'.threads[t].Unavailable? {
      var key := DeadlineKey(w.threads[t].at, w.m.nextId);
      assert key !in w.past.issued;
      InsertedSorted(w.m.armed, key);
      assert w'.m.armed != [];
      if w'.threads[t].Notifying? { assert t in w'.threads; }
    }
  }

  lemma DropKeeps(w: World, t: Tid)
    requires Inv(w) && Enabled(w, Drop(t))
    ensures Inv(Do(w, Drop(t)))
  {
    var w' := Do(w, Drop(t));
    OwingStays(w, w', t);
    if w.threads[t].Armed? {
      var key := w.threads[t].key;
      ErasedSorted(w.m.armed, key);
      assert key in Keys(w.m.armed) <==> key in w.m.armed;
      if w'.m.armed != [] { FirstAfterErase(w.m.armed, key); }
    }
  }

  lemma FirstAfterErase(s: seq<DeadlineKey>, key: DeadlineKey)
    requires Sorted(s) && Erased(s, key) != []
    ensures s != [] && s[0].at <= Erased(s, key)[0].at
  {
    ErasedSorted(s, key);
    assert Erased(s, key)[0] in Keys(Erased(s, key));
  }

  lemma KeysSplit(s: seq<DeadlineKey>, n: nat)
    requires Sorted(s) && n <= |s|
    ensures Keys(s) == Keys(s[..n]) + Keys(s[n..]) && Keys(s[..n]) !! Keys(s[n..])
    ensures Sorted(s[..n]) && Sorted(s[n..])
  {
    assert s == s[..n] + s[n..];
    forall a, b | a in Keys(s[..n]) && b in Keys(s[n..]) ensures a != b {
      var i :| 0 <= i < n && s[..n][i] == a;
      var k :| 0 <= k < |s[n..]| && s[n..][k] == b;
      assert Less(s[i], s[n + k]);
    }
  }

  lemma ScanKeeps(w: World)
    requires Inv(w) && Enabled(w, Scan)
    ensures Inv(Do(w, Scan))
  {
    DueExactly(w.m.armed, w.m.now);
    KeysSplit(w.m.armed, Due(w.m.armed, w.m.now));
  }

  lemma SendKeeps(w: World)
    requires Inv(w) && Enabled(w, Send)
    ensures Inv(Do(w, Send))
  {
    var due := w.m.worker.due;
    if due != [] {
      KeysSplit(due, 1);
      assert Keys(due[..1]) == {due[0]} by { assert due[..1] == [due[0]]; }
      assert Do(w, Send).past.sent.Keys == w.past.sent.Keys + {due[0]};
    }
  }

  lemma StepKeeps(w: World, a: Action)
    requires Inv(w) && Enabled(w, a)
    ensures Inv(Do(w, a))
  {
    match a {
      case Insert(t, spawns) => InsertKeeps(w, t, spawns);
      case Drop(t) => DropKeeps(w, t);
      case Scan => ScanKeeps(w);
      case Send => SendKeeps(w);
      case Arm(t, _) => OwingStays(w, Do(w, a), t);
      case _ =>
    }
  }

  ghost predicate IsRun(ws: seq<World>, acts: seq<Action>) {
    && |ws| == |acts| + 1
    && forall i :: 0 <= i < |acts| ==> Enabled(ws[i], acts[i]) && ws[i + 1] == Do(ws[i], acts[i])
  }

  lemma {:induction false} RunInv(ws: seq<World>, acts: seq<Action>, i: nat)
    requires IsRun(ws, acts) && Init(ws[0]) && i < |ws|
    ensures Inv(ws[i])
  {
    if i > 0 {
      RunInv(ws, acts, i - 1);
      StepKeeps(ws[i - 1], acts[i - 1]);
    }
  }

  // ----- what it guarantees -----

  /** No lost wake-up: a parked worker that nobody owes a notification wakes by
      its own timer no later than the earliest deadline. */
  lemma NoLateWake(ws: seq<World>, acts: seq<Action>, i: nat)
    requires IsRun(ws, acts) && Init(ws[0]) && i < |ws|
    requires ws[i].m.worker.Parked? && ws[i].m.armed != [] && !Owing(ws[i])
    ensures ws[i].m.worker.wake.Some?
    ensures forall key :: key in ws[i].m.armed ==> ws[i].m.worker.wake.value <= key.at
  {
    RunInv(ws, acts, i);
  }

  /** The due prefix holds exactly the due entries, and the rest none of them. */
  lemma DueSplits(s: seq<DeadlineKey>, now: Time, key: DeadlineKey)
    requires Sorted(s) && key in s
    ensures var n := Due(s, now); (key in s[..n] <==> key.at <= now) && (key in s[n..] <==> key.at > now)
  {
    DueExactly(s, now);
    hide Sorted;
    hide Due;
    var n := Due(s, now);
    var i: nat :| i < |s| && s[i] == key;
    if i < n { assert s[..n][i] == key; } else { assert s[n..][i - n] == key; }
    forall k: nat | k < n ensures s[..n][k].at <= now { assert s[..n][k] == s[k]; }
    forall k: nat | k < |s| - n ensures s[n..][k].at > now { assert s[n..][k] == s[n + k]; }
  }

  /** The worker's section leaves nothing due in the table and takes nothing else. */
  lemma ScanTakesDue(w: World, key: DeadlineKey)
    requires Inv(w) && Enabled(w, Scan) && key in w.m.armed
    ensures var m := Do(w, Scan).m;
      if key.at <= w.m.now then key !in m.armed && m.worker.Delivering? && key in m.worker.due
      else key in m.armed && key !in InFlight(m)
  {
    DueSplits(w.m.armed, w.m.now, key);
  }

  /** An entry left the scheduler. */
  predicate Left(w: World, key: DeadlineKey) {
    key in w.past.sent || key in w.past.cancelled
  }

  lemma LeftStays(w: World, a: Action, key: DeadlineKey)
    requires Inv(w) && Enabled(w, a) && key in w.past.issued && Left(w, key)
    ensures key in Do(w, a).past.issued && (key in w.past.sent <==> key in Do(w, a).past.sent)
    ensures key in w.past.cancelled <==> key in Do(w, a).past.cancelled
    ensures key in w.past.sent ==> Do(w, a).past.sent[key] == w.past.sent[key]
  {
    if a.Send? && w.m.worker.due != [] { assert w.m.worker.due[0] in Keys(InFlight(w.m)); }
    if a.Drop? && w.threads[a.t].Armed? { assert w.threads[a.t].key in w.m.armed ==> w.threads[a.t].key in Keys(w.m.armed); }
  }

  lemma {:induction false} LeftForever(ws: seq<World>, acts: seq<Action>, key: DeadlineKey, i: nat, k: nat)
    requires IsRun(ws, acts) && Init(ws[0]) && i <= k < |ws| && key in ws[i].past.issued && Left(ws[i], key)
    ensures key in ws[k].past.issued && (key in ws[i].past.sent <==> key in ws[k].past.sent)
    ensures key in ws[i].past.cancelled <==> key in ws[k].past.cancelled
    ensures key in ws[i].past.sent ==> ws[k].past.sent[key] == ws[i].past.sent[key]
  {
    if k > i {
      LeftForever(ws, acts, key, i, k - 1);
      RunInv(ws, acts, k - 1);
      LeftStays(ws[k - 1], acts[k - 1], key);
    }
  }

  /** Every armed entry leaves at most once, fired no earlier than its deadline
      or disarmed, and stays out of the table for good. */
  lemma LeavesOnce(ws: seq<World>, acts: seq<Action>, key: DeadlineKey, i: nat, k: nat)
    requires IsRun(ws, acts) && Init(ws[0]) && i <= k < |ws| && key in ws[i].past.issued && Left(ws[i], key)
    ensures key !in ws[k].m.armed && key !in InFlight(ws[k].m)
    ensures key in ws[k].past.sent <==> key !in ws[k].past.cancelled
    ensures key in ws[k].past.sent ==> key in ws[i].past.sent && ws[k].past.sent[key] == ws[i].past.sent[key] >= key.at
  {
    LeftForever(ws, acts, key, i, k);
    RunInv(ws, acts, k);
    assert key !in Keys(ws[k].m.armed) && key !in Keys(InFlight(ws[k].m));
  }

  /** Arming never drops a sender: a refusal inserts nothing, an acceptance is
      accounted for until it fires or is disarmed. */
  lemma ArmedOrRefused(w: World, t: Tid, spawns: bool)
    requires Inv(w) && Enabled(w, Insert(t, spawns))
    ensures var w' := Do(w, Insert(t, spawns));
      if w.m.worker.Gone? && !spawns then w'.m == w.m && w'.threads[t].Unavailable?
      else w'.m.worker != Gone && exists key: DeadlineKey ::
        key.at == w.threads[t].at && key !in w.past.issued && Keys(w'.m.armed) == Keys(w.m.armed) + {key}
  {
    var key := DeadlineKey(w.threads[t].at, w.m.nextId);
    assert key !in w.past.issued;
    InsertedSorted(w.m.armed, key);
  }

  // ----- when an entry is due -----

  /** Arming at an instant: a deadline beyond the clock never elapses, one that is
      due at once has fired, and any other is the instant plus the timeout. */
  lemma ArmAnswers(w: World, t: Tid, timeout: Time)
    requires Enabled(w, Arm(t, timeout))
    ensures var w' := Do(w, Arm(t, timeout));
      && w'.m == w.m && w'.past == w.past && w'.threads == w.threads[t := w'.threads[t]]
      && (w'.threads[t].Never? <==> w.m.now + timeout > w.m.limit)
      && (w'.threads[t].FiredAtOnce? <==> timeout == 0 && w.m.now <= w.m.limit)
      && (!w'.threads[t].Never? && !w'.threads[t].FiredAtOnce? ==> w'.threads[t] == Inserting(w.m.now + timeout))
  {}

  /** The deadline a waiter holds, or is about to. */
  function DeadlineOf(th: Waiter): Option<Time> {
    match th
    case Inserting(at) => Some(at)
    case Notifying(key) => Some(key.at)
    case Armed(key) => Some(key.at)
    case _ => None
  }

  /** Operation j armed thread t, and its deadline was that instant plus its timeout. */
  ghost predicate ArmedAt(ws: seq<World>, acts: seq<Action>, j: nat, t: Tid, at: Time)
    requires j < |acts| && j < |ws|
  {
    acts[j].Arm? && acts[j].t == t && acts[j].timeout > 0 && at == ws[j].m.now + acts[j].timeout
  }

  /** At every instant of every run a waiter's deadline is the instant at which it
      armed plus its timeout. */
  lemma {:induction false} DeadlineIsTimeout(ws: seq<World>, acts: seq<Action>, t: Tid, i: nat)
    requires IsRun(ws, acts) && Init(ws[0]) && i < |ws| && t in ws[i].threads && DeadlineOf(ws[i].threads[t]).Some?
    ensures exists j: nat :: j < i && ArmedAt(ws, acts, j, t, DeadlineOf(ws[i].threads[t]).value)
  {
    if i > 0 {
      var w, a := ws[i - 1], acts[i - 1];
      if a.Arm? && a.t == t {
        assert ArmedAt(ws, acts, i - 1, t, DeadlineOf(ws[i].threads[t]).value);
      } else {
        DeadlineStays(w, a, t);
        DeadlineIsTimeout(ws, acts, t, i - 1);
      }
    }
  }

  lemma DeadlineStays(w: World, a: Action, t: Tid)
    requires Enabled(w, a) && !(a.Arm? && a.t == t) && t in Do(w, a).threads && DeadlineOf(Do(w, a).threads[t]).Some?
    ensures t in w.threads && DeadlineOf(w.threads[t]) == DeadlineOf(Do(w, a).threads[t])
  {}

  /** The watchdog promise: what an armed waiter waits for fires no earlier than
      its whole timeout after it armed. */
  lemma FiresAfterTimeout(ws: seq<World>, acts: seq<Action>, t: Tid, i: nat, k: nat)
    requires IsRun(ws, acts) && Init(ws[0]) && i <= k < |ws|
    requires t in ws[i].threads && ws[i].threads[t].Armed? && ws[i].threads[t].key in ws[k].past.sent
    ensures exists j: nat :: j < i && ArmedAt(ws, acts, j, t, ws[i].threads[t].key.at)
    ensures ws[k].past.sent[ws[i].threads[t].key] >= ws[i].threads[t].key.at
  {
    DeadlineIsTimeout(ws, acts, t, i);
    RunInv(ws, acts, k);
  }

  // ----- the other sections -----

  /** Dropping an armed waiter takes its entry, and no other, out of the table. */
  lemma DropDisarms(w: World, t: Tid)
    requires Inv(w) && Enabled(w, Drop(t))
    ensures var w' := Do(w, Drop(t));
      && w'.threads == w.threads[t := Dropped] && w'.past.sent == w.past.sent && InFlight(w'.m) == InFlight(w.m)
      && Keys(w'.m.armed) == Keys(w.m.armed) - (if w.threads[t].Armed? then {w.threads[t].key} else {})
  {
    if w.threads[t].Armed? { ErasedSorted(w.m.armed, w.threads[t].key); }
  }

  /** A worker that finds nothing due parks until exactly the earliest armed
      deadline, or for a notification if nothing is armed. */
  lemma ParksUntilEarliest(w: World)
    requires Inv(w) && Enabled(w, Scan) && forall key :: key in w.m.armed ==> key.at > w.m.now
    ensures var m := Do(w, Scan).m;
      && m.armed == w.m.armed && m.worker.Parked? && (m.worker.wake.None? <==> m.armed == [])
      && (m.worker.wake.Some? ==> exists key :: key in m.armed && key.at == m.worker.wake.value)
      && (m.worker.wake.Some? ==> forall key :: key in m.armed ==> m.worker.wake.value <= key.at)
  {
    if w.m.armed != [] { assert w.m.armed[0] in w.m.armed; }
  }

  /** The whole delivery: the earliest due entry, and of equal deadlines the one that
      was armed first, is sent at this instant; the rest stay the worker's. */
  lemma SendsEarliest(w: World)
    requires Inv(w) && Enabled(w, Send)
    ensures var w' := Do(w, Send);
      && w'.m.armed == w.m.armed && w'.threads == w.threads
      && (w.m.worker.due == [] ==> w'.m.worker == Starting && w'.past == w.past)
      && (w.m.worker.due != [] ==> w'.m.worker == Delivering(w.m.worker.due[1..]))
      && (w.m.worker.due != [] ==> w'.past == w.past.(sent := w.past.sent[w.m.worker.due[0] := w.m.now]))
      && forall key :: key in w.m.worker.due && key != w.m.worker.due[0] ==>
        w.m.worker.due[0].at < key.at || (w.m.worker.due[0].at == key.at && w.m.worker.due[0].id < key.id)
  {}

  /** What the last request for a worker thread was answered, if one was made. */
  function LastSpawn(ws: seq<World>, acts: seq<Action>, i: nat): Option<bool>
    requires |ws| == |acts| + 1 && i < |ws|
  {
    if i == 0 then None
    else
      var w, a := ws[i - 1], acts[i - 1];
      if a.Insert? && w.m.worker.Gone? then Some(a.spawns)
      else if a.Lose? && w.m.armed != [] then Some(a.spawns)
      else LastSpawn(ws, acts, i - 1)
  }

  lemma {:induction false} RefusedIsLast(ws: seq<World>, acts: seq<Action>, i: nat)
    requires IsRun(ws, acts) && Init(ws[0]) && i < |ws|
    ensures ws[i].past.refused <==> LastSpawn(ws, acts, i) == Some(false)
  {
    if i > 0 { RefusedIsLast(ws, acts, i - 1); }
  }

  /** Entries are without a worker only if the last request for a thread was refused. */
  lemma OrphansMeanRefusal(ws: seq<World>, acts: seq<Action>, i: nat)
    requires IsRun(ws, acts) && Init(ws[0]) && i < |ws| && ws[i].m.worker.Gone? && ws[i].m.armed != []
    ensures LastSpawn(ws, acts, i) == Some(false)
  {
    RunInv(ws, acts, i);
    RefusedIsLast(ws, acts, i);
  }

  /** A retiring worker hands still armed entries to a replacement whenever the
      system grants one, and never touches the table. */
  lemma RetirementHandsOver(w: World, spawns: bool)
    requires Enabled(w, Lose(spawns))
    ensures var w' := Do(w, Lose(spawns));
      && w'.m == w.m.(worker := w'.m.worker) && w'.threads == w.threads
      && (w'.m.worker.Gone? <==> w.m.armed == [] || !spawns) && (!w'.m.worker.Gone? ==> w'.m.worker.Starting?)
  {}

  /** Who inserts owes the worker a notification exactly when its entry is now the earliest. */
  lemma NotifiesEarliest(w: World, t: Tid, spawns: bool)
    requires Inv(w) && Enabled(w, Insert(t, spawns)) && (w.m.worker.Gone? ==> spawns)
    ensures var w', key := Do(w, Insert(t, spawns)), DeadlineKey(w.threads[t].at, w.m.nextId);
      && w'.threads[t] == (if forall other :: other in w.m.armed ==> Less(key, other) then Notifying(key) else Armed(key))
      && (w.m.worker.Gone? ==> w'.m.worker.Starting?) && (!w.m.worker.Gone? ==> w'.m.worker == w.m.worker)
  {}

  /** In time: once the clock has reached a parked worker's timer, its wake-up and
      next section put exactly what is due by then into its hands. */
  lemma DeliversInTime(w: World, passed: Time, key: DeadlineKey)
    requires Inv(w) && w.m.worker.Parked? && w.m.worker.wake.Some? && w.m.worker.wake.value <= w.m.now + passed
    requires key in w.m.armed
    ensures Enabled(w, Tick(passed)) && Enabled(Do(w, Tick(passed)), Wake) && Enabled(Do(Do(w, Tick(passed)), Wake), Scan)
    ensures var m := Do(Do(Do(w, Tick(passed)), Wake), Scan).m;
      && m.now == w.m.now + passed
      && (key in InFlight(m) <==> key.at <= w.m.now + passed) && (key in m.armed <==> key.at > w.m.now + passed)
  {
    StepKeeps(w, Tick(passed));
    StepKeeps(Do(w, Tick(passed)), Wake);
    ScanTakesDue(Do(Do(w, Tick(passed)), Wake), key);
  }
}
