/** Convergence terminates: between two commits or kicks a slot owner takes a
    bounded number of steps before it gives the slot back. */
module SettleProgress {
  import opened Fibers
  import opened SettleProtocol
  import opened SettleInvariants
  import opened SettleSteps
  import opened SettleDriver
  import opened SettleTheorems
  import opened SettleReady

  predicate Consistent(live: Target, acc: seq<Option<Occurrence>>) {
    acc <= live.edges
  }

  predicate FromCell(role: Role) {
    role == Kicker || role == Converger
  }

  function Owes(b: bool): nat {
    if b then 0 else 1
  }

  /** Rounds of settling still owed if nothing else changes. A read that mixes
      old and new assignments costs one more than a plain old target. */
  function DebtOf(now: Target, cell: Option<Target>, role: Role, pc: Pc): nat {
    match pc
    case Claimed => if role == Kicker then Owes(cell == Some(now)) else 0
    case LoadRevision => if FromCell(role) then Owes(cell == Some(now)) else 0
    case LoadCell(_) => Owes(cell == Some(now))
    case Read(use, _, acc) =>
      (match use
       case First => 1 + Owes(Consistent(now, acc))
       case Compare(t, _) => if Consistent(now, acc) then Owes(t == now) else 2
       case Admit(_) => Owes(Consistent(now, acc))
       case Probe(t, _) => if Consistent(now, acc) then Owes(t == now) else 2)
    case RecordFirst(t) => 1 + Owes(t == now)
    case RecordDrift(t) => 1 + Owes(t == now)
    case RecordAdmitted(t, _) => Owes(t == now)
    case Settle(t, _, _) => Owes(t == now)
    case MarkPending(t, _) => Owes(t == now)
    case RecordApplied(t, _) => Owes(t == now)
    case CheckFailed(t, _) => Owes(t == now)
    case StoreReleasing(t, _) => Owes(t == now)
    case LoadObserved(t, _, live) => if live == now then Owes(t == now) else 2
    case RecordLive(live) => if FromCell(role) then 1 + Owes(live == now) else 1
    case StoreActive => if FromCell(role) then 1 + Owes(cell == Some(now)) else 1
    case StoreSettled(t, _) => Owes(t == now)
    case CasIdle(t, _) => Owes(t == now)
    case ReloadRevision(t) => Owes(t == now)
    case _ => 0
  }

  /** Probes still owed in this round: one for an outdated revision, one for a
      slot that a kick has taken back to ACTIVE. */
  function ProbesOf(committed: nat, inertia: Inertia, pc: Pc): nat {
    match pc
    case StoreReleasing(_, rev) => Owes(rev == committed)
    case Read(use, _, _) => if use.Probe? then Owes(use.rev == committed) + Owes(inertia == RELEASING) else 2
    case LoadObserved(_, rev, _) => Owes(rev == committed) + Owes(inertia == RELEASING)
    case StoreSettled(_, _) => Owes(inertia == RELEASING)
    case CasIdle(_, _) => Owes(inertia == RELEASING)
    case ReloadRevision(_) => 0
    case RecordLive(_) => 0
    case StoreActive => 0
    case _ => 2
  }

  function PhaseRank(phase: Phase): nat {
    match phase
    case CheckAlive => 9
    case CloseOld => 8
    case DrainOld => 7
    case CheckMissing => 6
    case CheckFirstApply => 5
    case Open => 4
    case Applying => 3
    case Applied(_) => 2
    case DrainFailed => 1
  }

  /** Steps to the end of the probe, if it succeeds. */
  function DistanceOf(n: nat, pc: Pc): nat {
    match pc
    case Claimed => 3 * n + 60
    case LoadRevision => 3 * n + 50
    case LoadCell(_) => 3 * n + 49
    case Read(use, _, acc) =>
      var left := if |acc| <= n then n - |acc| else 0;
      if use.Probe? then 10 + left else if use.Compare? then n + 25 + left else 2 * n + 45 + left
    case RecordFirst(_) => 2 * n + 44
    case RecordAdmitted(_, _) => 2 * n + 44
    case Settle(_, _, phase) => 2 * n + 30 + PhaseRank(phase)
    case MarkPending(_, _) => 2 * n + 29
    case RecordApplied(_, _) => 2 * n + 29
    case CheckFailed(_, _) => 2 * n + 28
    case RecordDrift(_) => n + 24
    case ReloadRevision(_) => n + 22
    case StoreReleasing(_, _) => n + 21
    case LoadObserved(_, _, _) => 9
    case StoreSettled(_, _) => 8
    case CasIdle(_, _) => 7
    case RecordLive(_) => 6
    case StoreActive => 5
    case _ => 0
  }

  function Debt(s: Shared, role: Role, pc: Pc): nat {
    DebtOf(LiveTarget(s), s.slot.cell, role, pc)
  }

  function Probes(s: Shared, pc: Pc): nat {
    ProbesOf(s.slot.committed, s.slot.inertia, pc)
  }

  function Distance(s: Shared, pc: Pc): nat {
    DistanceOf(|s.store.live|, pc)
  }

  /** More steps than any single probe takes. */
  function Span(s: Shared): nat {
    3 * |s.store.live| + 61
  }

  /** Position in a lexicographic order of at most three rounds of at most three
      probes of fewer than `span` steps. */
  function Weight(debt: nat, probes: nat, distance: nat, span: nat): nat {
    Times(3 * debt + probes, span) + distance
  }

  /** Multiplication as repeated addition. */
  function Times(k: nat, c: nat): nat {
    if k == 0 then 0 else c + Times(k - 1, c)
  }

  lemma {:induction false} TimesIsProduct(k: nat, c: nat)
    ensures Times(k, c) == k * c
  {
    if k > 0 {
      TimesIsProduct(k - 1, c);
      assert k * c == (k - 1) * c + c;
    }
  }

  function Rank(s: Shared, role: Role, pc: Pc): nat {
    Weight(Debt(s, role, pc), Probes(s, pc), Distance(s, pc), Span(s))
  }

  function Ceiling(s: Shared): nat {
    9 * Span(s)
  }

  predicate LexLess(d': nat, p': nat, x': nat, d: nat, p: nat, x: nat) {
    d' < d || (d' == d && (p' < p || (p' == p && x' < x)))
  }

  lemma {:induction false} TimesMonotone(a: nat, b: nat, c: nat)
    requires a <= b
    ensures Times(a, c) <= Times(b, c)
  {
    if a > 0 { TimesMonotone(a - 1, b - 1, c); }
  }

  lemma WeightBounded(d: nat, p: nat, x: nat, span: nat)
    requires d <= 2 && p <= 2 && x < span
    ensures Weight(d, p, x, span) < 9 * span
  {
    TimesMonotone(3 * d + p, 8, span);
    TimesIsProduct(8, span);
  }

  lemma LexLowersWeight(d': nat, p': nat, x': nat, d: nat, p: nat, x: nat, span: nat)
    requires LexLess(d', p', x', d, p, x) && p' <= 2 && x' < span
    ensures Weight(d', p', x', span) < Weight(d, p, x, span)
  {
    if 3 * d' + p' < 3 * d + p { TimesMonotone(3 * d' + p' + 1, 3 * d + p, span); }
  }

  lemma PartsBounded(s: Shared, role: Role, pc: Pc)
    ensures Debt(s, role, pc) <= 2 && Probes(s, pc) <= 2 && Distance(s, pc) < Span(s)
  {}

  lemma RankBounded(s: Shared, role: Role, pc: Pc)
    ensures Rank(s, role, pc) < Ceiling(s)
  {
    PartsBounded(s, role, pc);
    WeightBounded(Debt(s, role, pc), Probes(s, pc), Distance(s, pc), Span(s));
  }

  /** Program points of a pass that is converging. */
  predicate Converging(role: Role, pc: Pc) {
    (role == Kicker || Settler(role)) && !pc.Release? && !Ending(pc) && !pc.SwapTerminal?
  }

  /** The owner's next step is not blocked on the Service store. */
  predicate CanMove(s: Shared, pc: Pc) {
    pc.Read? && |pc.acc| < |s.store.live| ==> s.store.lock.None?
  }

  /** Unless the pass ends with this move, it has come closer to its end. */
  predicate Drops(s: Shared, role: Role, pc: Pc, m: Move) {
    m.th.Driving? && Converging(m.th.role, m.th.pc) ==>
      LexLess(Debt(m.s, m.th.role, m.th.pc), Probes(m.s, m.th.pc), Distance(m.s, m.th.pc), Debt(s, role, pc), Probes(s, pc), Distance(s, pc))
  }

  lemma EdgeDrops(s: Shared, role: Role, use: Use, input: nat, acc: seq<Option<Occurrence>>)
    requires |acc| < |s.store.live| && s.store.lock.None?
    ensures Drops(s, role, Read(use, input, acc), ReadStep(s, role, use, input, acc))
  {
    var acc' := acc + [s.store.live[|acc|]];
    assert Consistent(LiveTarget(s), acc) <==> Consistent(LiveTarget(s), acc');
  }

  lemma FullReadDrops(s: Shared, role: Role, use: Use, input: nat, acc: seq<Option<Occurrence>>)
    requires OwnerOk(s, role, Read(use, input, acc)) && |acc| == |s.store.live|
    ensures Drops(s, role, Read(use, input, acc), ReadStep(s, role, use, input, acc))
  {
    hide ProbeOk;
    hide CellCovered;
    hide Fresh;
    assert Consistent(LiveTarget(s), acc) <==> acc == s.store.live;
  }

  lemma ReadDrops(s: Shared, role: Role, use: Use, input: nat, acc: seq<Option<Occurrence>>)
    requires OwnerOk(s, role, Read(use, input, acc)) && CanMove(s, Read(use, input, acc))
    ensures Drops(s, role, Read(use, input, acc), ReadStep(s, role, use, input, acc))
  {
    hide Drops;
    hide ReadStep;
    if |acc| < |s.store.live| {
      EdgeDrops(s, role, use, input, acc);
    } else {
      FullReadDrops(s, role, use, input, acc);
    }
  }

  lemma LoadDrops(s: Shared, t: Tid, role: Role, pc: Pc, flag: bool)
    requires (pc.Claimed? || pc.LoadRevision? || pc.LoadCell?) && OwnerOk(s, role, pc) && Converging(role, pc)
    ensures Drops(s, role, pc, DriveStep(s, t, role, pc, flag))
  {
    var m := DriveStep(s, t, role, pc, flag);
    if m.th.Driving? && m.th.pc.Read? { assert m.th.pc.acc <= s.store.live; }
  }

  lemma RecordDrops(s: Shared, t: Tid, role: Role, pc: Pc, flag: bool)
    requires Recording(pc) || pc.MarkPending? || pc.RecordApplied? || pc.CheckFailed?
    requires OwnerOk(s, role, pc)
    ensures Drops(s, role, pc, DriveStep(s, t, role, pc, flag))
  {}

  /** A settle step leads to a later phase or ends the pass, and leaves the
      target and the slot alone. */
  predicate SettleLeads(s: Shared, role: Role, target: Target, rev: nat, phase: Phase, m: Move, s': Shared, next: Phase) {
    && s'.slot == s.slot && LiveTarget(s') == LiveTarget(s)
    && (m == AfterSettle(s', role, target, rev)
        || (PhaseRank(next) < PhaseRank(phase) && m == At(s', role, Settle(target, rev, next))))
  }

  lemma EarlyMoves(s: Shared, role: Role, target: Target, rev: nat, phase: Phase, flag: bool) returns (s': Shared, next: Phase)
    requires phase.CheckAlive? || phase.CloseOld? || phase.DrainOld? || phase.CheckMissing?
    ensures SettleLeads(s, role, target, rev, phase, SettleStep(s, role, target, rev, phase, flag), s', next)
  {
    var m := SettleStep(s, role, target, rev, phase, flag);
    s', next := m.s, if m.th.Driving? && m.th.pc.Settle? then m.th.pc.phase else phase;
  }

  lemma LateMoves(s: Shared, role: Role, target: Target, rev: nat, phase: Phase, flag: bool) returns (s': Shared, next: Phase)
    requires phase.CheckFirstApply? || phase.Open? || phase.Applying? || phase.Applied? || phase.DrainFailed?
    ensures SettleLeads(s, role, target, rev, phase, SettleStep(s, role, target, rev, phase, flag), s', next)
  {
    var m := SettleStep(s, role, target, rev, phase, flag);
    s', next := m.s, if m.th.Driving? && m.th.pc.Settle? then m.th.pc.phase else phase;
  }

  lemma AfterSettleDrops(s: Shared, s': Shared, role: Role, target: Target, rev: nat, phase: Phase)
    requires Settler(role) && s'.slot == s.slot && LiveTarget(s') == LiveTarget(s)
    ensures Drops(s, role, Settle(target, rev, phase), AfterSettle(s', role, target, rev))
  {
    assert Consistent(LiveTarget(s'), []);
  }

  lemma PhaseDrops(s: Shared, s': Shared, role: Role, target: Target, rev: nat, phase: Phase, next: Phase)
    requires s'.slot == s.slot && LiveTarget(s') == LiveTarget(s) && PhaseRank(next) < PhaseRank(phase)
    ensures Drops(s, role, Settle(target, rev, phase), At(s', role, Settle(target, rev, next)))
  {}

  lemma SettleDrops(s: Shared, role: Role, target: Target, rev: nat, phase: Phase, flag: bool)
    requires Settler(role)
    ensures Drops(s, role, Settle(target, rev, phase), SettleStep(s, role, target, rev, phase, flag))
  {
    var s', next;
    if phase.CheckAlive? || phase.CloseOld? || phase.DrainOld? || phase.CheckMissing? {
      s', next := EarlyMoves(s, role, target, rev, phase, flag);
    } else {
      s', next := LateMoves(s, role, target, rev, phase, flag);
    }
    AfterSettleDrops(s, s', role, target, rev, phase);
    if PhaseRank(next) < PhaseRank(phase) { PhaseDrops(s, s', role, target, rev, phase, next); }
  }

  lemma ProbeBegins(s: Shared, role: Role, target: Target, rev: nat)
    ensures Drops(s, role, StoreReleasing(target, rev), ExitStep(s, role, StoreReleasing(target, rev)))
  {
    assert Consistent(LiveTarget(s), []);
  }

  lemma ProbeDrops(s: Shared, role: Role, pc: Pc)
    requires pc.LoadObserved? || pc.StoreSettled? || pc.CasIdle? || pc.ReloadRevision?
    requires s.slot.inertia != IDLE
    ensures Drops(s, role, pc, ExitStep(s, role, pc))
  {}

  lemma DriftDrops(s: Shared, role: Role, pc: Pc)
    requires pc.RecordLive? || pc.StoreActive?
    ensures Drops(s, role, pc, ExitStep(s, role, pc))
  {}

  lemma OuterDrops(s: Shared, t: Tid, role: Role, pc: Pc, flag: bool)
    requires OwnerOk(s, role, pc) && Converging(role, pc) && !pc.Read? && !pc.Settle? && !Exiting(pc)
    ensures Drops(s, role, pc, DriveStep(s, t, role, pc, flag))
  {
    if pc.Claimed? || pc.LoadRevision? || pc.LoadCell? {
      LoadDrops(s, t, role, pc, flag);
    } else {
      RecordDrops(s, t, role, pc, flag);
    }
  }

  lemma DriveDrops(s: Shared, t: Tid, role: Role, pc: Pc, flag: bool, m: Move)
    requires OwnerOk(s, role, pc) && s.slot.inertia != IDLE && Converging(role, pc) && CanMove(s, pc)
    requires m == DriveStep(s, t, role, pc, flag)
    ensures Drops(s, role, pc, m)
  {
    if pc.Read? {
      ReadDrops(s, role, pc.use, pc.input, pc.acc);
    } else if pc.Settle? {
      SettleDrops(s, role, pc.t, pc.rev, pc.phase, flag);
    } else if Exiting(pc) {
      if pc.RecordLive? || pc.StoreActive? {
        DriftDrops(s, role, pc);
      } else if pc.StoreReleasing? {
        ProbeBegins(s, role, pc.t, pc.rev);
      } else {
        ProbeDrops(s, role, pc);
      }
    } else {
      OuterDrops(s, t, role, pc, flag);
    }
  }

  /** Every step the owner takes while converging brings the pass closer to its end. */
  lemma OwnStepDrops(w: World, t: Tid, role: Role, pc: Pc, flag: bool)
    requires Inv(w) && t in w.threads && w.threads[t] == Driving(role, pc)
    requires Converging(role, pc) && CanMove(w.s, pc)
    ensures Drops(w.s, role, pc, DriveStep(w.s, t, role, pc, flag))
  {
    assert Local(w.s, t, w.threads[t]);
    DriveDrops(w.s, t, role, pc, flag, DriveStep(w.s, t, role, pc, flag));
  }

  /** A blocked owner waits for a Service-store section, whose next step is always enabled. */
  lemma BlockedOnlyByWriter(w: World, pc: Pc)
    requires Inv(w) && !CanMove(w.s, pc)
    ensures exists u :: u in w.threads && w.threads[u].Writing? && Enabled(w, Write(u, w.s.store.live))
  {
    var u := w.s.store.lock.value;
    assert Local(w.s, u, w.threads[u]);
    assert Enabled(w, Write(u, w.s.store.live));
  }

  // ----- counting over a run -----

  /** Something a pass has to answer for: a revision, a write, or a kick that
      takes the slot back from the release probe. */
  predicate Perturbs(w: World, a: Action, t: Tid)
    requires Enabled(w, a)
  {
    var s' := Do(w, a).s;
    a.t != t && (s'.slot.committed != w.s.slot.committed || s'.store.live != w.s.store.live || s'.slot.inertia != w.s.slot.inertia)
  }

  /** The owner runs and is not blocked on the Service store. */
  predicate Advances(w: World, a: Action, t: Tid) {
    a.Run? && a.t == t && t in w.threads && w.threads[t].Driving? && CanMove(w.s, w.threads[t].pc)
  }

  predicate ConvergingAt(w: World, t: Tid) {
    t in w.threads && w.threads[t].Driving? && Converging(w.threads[t].role, w.threads[t].pc)
  }

  function RankOf(w: World, t: Tid): nat
    requires ConvergingAt(w, t)
  {
    Rank(w.s, w.threads[t].role, w.threads[t].pc)
  }

  /** Steps of others that do not perturb leave the rank alone. */
  lemma RankSame(s: Shared, s': Shared, role: Role, pc: Pc)
    requires s'.slot.committed == s.slot.committed && s'.store.live == s.store.live && s'.slot.inertia == s.slot.inertia
    requires s'.slot.cell == s.slot.cell && s'.life.input == s.life.input
    ensures Rank(s', role, pc) == Rank(s, role, pc)
  {}

  lemma DropsLowersRank(s: Shared, role: Role, pc: Pc, m: Move)
    requires Drops(s, role, pc, m) && m.th.Driving? && Converging(m.th.role, m.th.pc)
    requires |m.s.store.live| == |s.store.live|
    ensures Rank(m.s, m.th.role, m.th.pc) < Rank(s, role, pc)
  {
    PartsBounded(m.s, m.th.role, m.th.pc);
    LexLowersWeight(Debt(m.s, m.th.role, m.th.pc), Probes(m.s, m.th.pc), Distance(m.s, m.th.pc),
                    Debt(s, role, pc), Probes(s, pc), Distance(s, pc), Span(s));
  }

  lemma LiveLength(w: World, a: Action)
    requires Enabled(w, a)
    ensures |Do(w, a).s.store.live| == |w.s.store.live|
  {
    if a.Run? && w.threads[a.t].Driving? {
      DriveHistory(w.s, a.t, w.threads[a.t].role, w.threads[a.t].pc, a.flag);
    }
  }

  lemma OutsideTarget(w: World, a: Action)
    requires Enabled(w, a) && (a.t in w.threads ==> !w.threads[a.t].Driving?)
    ensures Do(w, a).s.slot.cell == w.s.slot.cell && Do(w, a).s.life.input == w.s.life.input
  {}

  lemma OthersOutside(w: World, a: Action, t: Tid)
    requires Inv(w) && t in w.threads && w.threads[t].Driving? && a.t != t
    ensures a.t in w.threads ==> !w.threads[a.t].Driving?
  {
    assert Local(w.s, t, w.threads[t]);
    if a.t in w.threads { assert Local(w.s, a.t, w.threads[a.t]); }
  }

  function One(b: bool): nat {
    if b then 1 else 0
  }

  /** One step pays for itself: a perturbation buys a whole ceiling, an advance
      costs at least one. */
  lemma StepPays(w: World, a: Action, t: Tid)
    requires Inv(w) && Enabled(w, a) && !StaleAbandon(w, a) && ConvergingAt(w, t) && ConvergingAt(Do(w, a), t)
    ensures One(Advances(w, a, t)) + RankOf(Do(w, a), t) <= RankOf(w, t) + (if Perturbs(w, a, t) then Ceiling(w.s) else 0)
  {
    var role, pc := w.threads[t].role, w.threads[t].pc;
    LiveLength(w, a);
    if a.t != t {
      OthersOutside(w, a, t);
      OutsideTarget(w, a);
      if Perturbs(w, a, t) { RankBounded(Do(w, a).s, role, pc); } else { RankSame(w.s, Do(w, a).s, role, pc); }
    } else if Advances(w, a, t) {
      OwnStepDrops(w, t, role, pc, a.flag);
      DropsLowersRank(w.s, role, pc, DriveStep(w.s, t, role, pc, a.flag));
    } else {
      OwnStays(w, a, t);
    }
  }

  /** A blocked read changes nothing; dropping the spawn future ends the pass. */
  lemma OwnStays(w: World, a: Action, t: Tid)
    requires Inv(w) && Enabled(w, a) && a.t == t && ConvergingAt(w, t) && ConvergingAt(Do(w, a), t) && !Advances(w, a, t)
    ensures Do(w, a) == w
  {
    assert w.threads[t := w.threads[t]] == w.threads;
  }

  function Count(bs: seq<bool>): nat {
    if bs == [] then 0 else Count(bs[..|bs| - 1]) + One(bs[|bs| - 1])
  }

  /** Every step costs at most what it brings. */
  predicate Pays(own: seq<bool>, paid: seq<bool>, rank: seq<nat>, c: nat, j: nat)
    requires |paid| == |own| && |rank| == |own| + 1 && j < |own|
  {
    One(own[j]) + rank[j + 1] <= rank[j] + if paid[j] then c else 0
  }

  /** If every step pays, the whole run does. */
  lemma {:induction false} Ledger(own: seq<bool>, paid: seq<bool>, rank: seq<nat>, c: nat)
    requires |paid| == |own| && |rank| == |own| + 1
    requires forall j: nat :: j < |own| ==> Pays(own, paid, rank, c, j)
    ensures Count(own) + rank[|own|] <= rank[0] + Times(Count(paid), c)
  {
    if own != [] {
      var n := |own| - 1;
      var own', paid', rank' := own[..n], paid[..n], rank[..n + 1];
      forall j: nat | j < n ensures Pays(own', paid', rank', c, j) {
        assert Pays(own, paid, rank, c, j);
      }
      Ledger(own', paid', rank', c);
      assert Pays(own, paid, rank, c, n);
    }
  }

  lemma LedgerBounded(own: seq<bool>, paid: seq<bool>, rank: seq<nat>, c: nat)
    requires |paid| == |own| && |rank| == |own| + 1 && rank[0] < c
    requires forall j: nat :: j < |own| ==> Pays(own, paid, rank, c, j)
    ensures Count(own) < (Count(paid) + 1) * c
  {
    Ledger(own, paid, rank, c);
    TimesIsProduct(Count(paid) + 1, c);
  }

  /** The steps in which the owner advanced. */
  function OwnSteps(ws: seq<World>, acts: seq<Action>, t: Tid): seq<bool>
    requires |ws| == |acts| + 1
  {
    seq(|acts|, j requires 0 <= j < |acts| => Advances(ws[j], acts[j], t))
  }

  /** The steps of others that perturbed the pass. */
  ghost function Perturbations(ws: seq<World>, acts: seq<Action>, t: Tid): seq<bool>
    requires IsRun(ws, acts)
  {
    seq(|acts|, j requires 0 <= j < |acts| => Enabled(ws[j], acts[j]) && Perturbs(ws[j], acts[j], t))
  }

  ghost predicate AllConverging(ws: seq<World>, t: Tid) {
    forall j :: 0 <= j < |ws| ==> ConvergingAt(ws[j], t)
  }

  lemma {:induction false} SameCeiling(ws: seq<World>, acts: seq<Action>, k: nat)
    requires IsRun(ws, acts) && k <= |acts|
    ensures |ws[k].s.store.live| == |ws[0].s.store.live|
  {
    if k > 0 {
      SameCeiling(ws, acts, k - 1);
      LiveLength(ws[k - 1], acts[k - 1]);
    }
  }

  lemma PaidAt(ws: seq<World>, acts: seq<Action>, t: Tid, rank: seq<nat>, j: nat)
    requires SafeRun(ws, acts) && AllConverging(ws, t) && j < |acts| && |rank| == |ws|
    requires rank[j] == RankOf(ws[j], t) && rank[j + 1] == RankOf(ws[j + 1], t)
    ensures Pays(OwnSteps(ws, acts, t), Perturbations(ws, acts, t), rank, Ceiling(ws[0].s), j)
  {
    SameCeiling(ws, acts, j);
    StepPays(ws[j], acts[j], t);
  }

  lemma Ranks(ws: seq<World>, t: Tid) returns (rank: seq<nat>)
    requires ws != [] && AllConverging(ws, t)
    ensures |rank| == |ws| && forall j :: 0 <= j < |ws| ==> rank[j] == RankOf(ws[j], t)
    ensures rank[0] < Ceiling(ws[0].s)
  {
    rank := seq(|ws|, j requires 0 <= j < |ws| => RankOf(ws[j], t));
    RankBounded(ws[0].s, ws[0].threads[t].role, ws[0].threads[t].pc);
  }

  ghost predicate RunPaid(own: seq<bool>, paid: seq<bool>, rank: seq<nat>, c: nat) {
    && |paid| == |own| && |rank| == |own| + 1 && rank[0] < c
    && forall j: nat :: j < |own| ==> Pays(own, paid, rank, c, j)
  }

  lemma RunPays(ws: seq<World>, acts: seq<Action>, t: Tid, c: nat, own: seq<bool>, paid: seq<bool>)
    requires SafeRun(ws, acts) && AllConverging(ws, t) && c == Ceiling(ws[0].s)
    requires own == OwnSteps(ws, acts, t) && paid == Perturbations(ws, acts, t)
    ensures exists rank: seq<nat> :: RunPaid(own, paid, rank, c)
  {
    var rank := Ranks(ws, t);
    forall j: nat | j < |acts| ensures Pays(own, paid, rank, c, j) {
      PaidAt(ws, acts, t, rank, j);
    }
    assert RunPaid(own, paid, rank, c);
  }

  /** Convergence terminates: with p commits, writes and slot-reclaiming kicks
      during a pass, the owner takes fewer than (p + 1) * c steps before it gives
      the slot up, where c is linear in the number of dependency edges. */
  lemma ConvergenceBounded(ws: seq<World>, acts: seq<Action>, t: Tid, c: nat, own: seq<bool>, paid: seq<bool>)
    requires SafeRun(ws, acts) && AllConverging(ws, t) && c == 27 * |ws[0].s.store.live| + 549
    requires own == OwnSteps(ws, acts, t) && paid == Perturbations(ws, acts, t)
    ensures Count(own) < (Count(paid) + 1) * c
  {
    RunPays(ws, acts, t, c, own, paid);
    var rank: seq<nat> :| RunPaid(own, paid, rank, c);
    LedgerBounded(own, paid, rank, c);
  }
}
