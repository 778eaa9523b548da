/** The arbitration slot itself: its atomic operations, each the slot part of
    one protocol step, and the release loop when nobody interferes. */
module SettleSlot {
  import opened Fibers
  import opened SettleProtocol

  class InertiaSlot {
    var inertia: Inertia
    var committed: nat
    var settled: nat
    var cell: Option<Target>

    function Contents(): Slot
      reads this
    {
      Slot(inertia, committed, settled, cell)
    }

    constructor ()
      ensures Contents() == Slot(IDLE, 0, 0, None)
    {
      inertia, committed, settled, cell := IDLE, 0, 0, None;
    }

    /** IDLE -> ACTIVE, for a waiting claimer and for a kick alike. */
    method TryClaim(ghost s: Shared, ghost t: Tid, ghost role: Role, ghost rev: nat) returns (won: bool)
      requires s.slot == Contents()
      modifies this`inertia
      ensures won <==> old(inertia) == IDLE
      ensures var m := OtherStep(s, t, Waiting(role)); Contents() == m.s.slot && (won <==> m.th == Driving(role, Claimed))
      ensures var m := KickStep(s, t, KickCasIdle(rev), true); Contents() == m.s.slot && (won <==> m.th == Driving(Kicker, Claimed))
    {
      won := inertia == IDLE;
      if won {
        inertia := ACTIVE;
      }
    }

    /** RELEASING -> ACTIVE: a kick takes the slot back for its holder. */
    method TryReclaim(ghost s: Shared, ghost t: Tid, ghost rev: nat) returns (won: bool)
      requires s.slot == Contents()
      modifies this`inertia
      ensures won <==> old(inertia) == RELEASING
      ensures Contents() == KickStep(s, t, KickCasReleasing(rev), false).s.slot
    {
      won := inertia == RELEASING;
      if won {
        inertia := ACTIVE;
      }
    }

    /** RELEASING -> IDLE: the guarded release. */
    method TryRelease(ghost s: Shared, ghost role: Role, ghost target: Target, ghost rev: nat) returns (released: bool)
      requires s.slot == Contents()
      modifies this`inertia
      ensures released <==> old(inertia) == RELEASING
      ensures var m := ExitStep(s, role, CasIdle(target, rev)); Contents() == m.s.slot && (released <==> !m.th.Driving?)
    {
      released := inertia == RELEASING;
      if released {
        inertia := IDLE;
      }
    }

    /** A whole kick that nobody interferes with. With nothing outstanding, or for a
        dead Fiber, it does nothing; an owner is left to read the revision; a
        releasing one gets its slot taken back; an IDLE slot is won if there is an
        executor to drive a pass. */
    method Kick(alive: bool, executor: bool) returns (driver: bool)
      modifies this`inertia
      ensures driver <==> alive && committed != settled && old(inertia) == IDLE && executor
      ensures alive && committed != settled ==> inertia == if driver || old(inertia) == RELEASING then ACTIVE else old(inertia)
      ensures !alive || committed == settled ==> inertia == old(inertia)
    {
      if !alive || committed == settled {
        return false;
      }
      driver := false;
      var done := false;
      while !done
        invariant driver == (done && old(inertia) == IDLE && executor)
        invariant inertia == if done && (driver || old(inertia) == RELEASING) then ACTIVE else old(inertia)
        decreases !done
      {
        match inertia {
          case ACTIVE => done := true;
          case RELEASING => inertia, done := ACTIVE, true;
          case IDLE =>
            if executor {
              inertia, driver := ACTIVE, true;
            }
            done := true;
        }
      }
    }

    method Abandon(ghost s: Shared, ghost t: Tid, ghost role: Role, ghost next: Thread)
      requires s.slot == Contents()
      modifies this`inertia
      ensures Contents() == DriveStep(s, t, role, Release(next), false).s.slot && inertia == IDLE
    {
      inertia := IDLE;
    }

    method CommitRecheck(ghost s: Shared, ghost t: Tid)
      requires s.slot == Contents() && s.life.indexed
      modifies this`committed
      ensures Contents() == LockStore(s, t).s.slot && committed == old(committed) + 1
    {
      committed := committed + 1;
    }

    method RecordTarget(target: Target)
      modifies this`cell
      ensures Contents() == old(Contents()).(cell := Some(target))
    {
      cell := Some(target);
    }

    method PinInactive()
      modifies this`cell
      ensures Contents() == old(Contents()).(cell := None)
    {
      cell := None;
    }

    /** The guarded Pending write leaves a target that somebody else stored. */
    method MarkPendingIfUntouched(pending: Target, ghost s: Shared, ghost t: Tid, ghost rev: nat)
      requires s.slot == Contents()
      modifies this`cell
      ensures Contents() == DriveStep(s, t, Spawner, MarkPending(pending, rev), false).s.slot
      ensures cell == if old(cell).Some? then old(cell) else Some(pending)
    {
      if cell.None? {
        cell := Some(pending);
      }
    }

    /** The whole release loop of a holder nobody interferes with: it reports
        drift exactly when the live target is not the one it settled, keeps the
        slot and records the live target then, and otherwise acknowledges every
        committed revision and gives the slot back. */
    method ExitRecheck(live: Target, target: Target, revision: nat) returns (drift: bool)
      requires inertia == ACTIVE
      modifies this
      ensures drift <==> live != target
      ensures Contents() == old(Contents()).(
        inertia := if drift then ACTIVE else IDLE,
        cell := if drift then Some(live) else old(cell),
        settled := if drift then old(settled) else old(committed))
    {
      var rev := revision;
      while true
        invariant committed == old(committed) && settled == old(settled) && cell == old(cell)
        decreases if rev == committed then 0 else 1
      {
        inertia := RELEASING;
        var observed := committed;
        if live != target {
          cell := Some(live);
          inertia := ACTIVE;
          return true;
        }
        if observed != rev {
          rev := observed;
          continue;
        }
        settled := rev;
        if inertia == RELEASING {
          inertia := IDLE;
          return false;
        }
        rev := committed;
      }
    }
  }

  /** The kick of revision r by thread t, all its steps in a row with nobody in between. */
  function WholeKick(s: Shared, t: Tid, th: Thread, flag: bool, n: nat): Move
    decreases n
  {
    if n == 0 || !InKick(th) then Move(s, th) else var m := KickStep(s, t, th, flag); WholeKick(m.s, t, m.th, flag, n - 1)
  }

  /** The protocol's kick, run through, does to the slot what the whole kick does. */
  lemma KickAlone(s: Shared, t: Tid, r: nat, flag: bool)
    ensures var m := WholeKick(s, t, KickAlive(r), flag, 6);
      if !s.life.alive || s.slot.committed == s.slot.settled then m == Move(s, Finished)
      else if s.slot.inertia == IDLE && flag then m == Claim(s, t, Kicker)
      else m.th == Finished && m.s.slot == s.slot.(inertia := if s.slot.inertia == IDLE then IDLE else ACTIVE)
  {
    var c := s.slot.committed;
    if s.life.alive {
      assert WholeKick(s, t, KickAlive(r), flag, 6) == WholeKick(s, t, KickCommitted(r), flag, 5);
      assert WholeKick(s, t, KickCommitted(r), flag, 5) == WholeKick(s, t, KickSettled(r, c), flag, 4);
      if c != s.slot.settled {
        assert WholeKick(s, t, KickSettled(r, c), flag, 4) == WholeKick(s, t, KickLoad(r), flag, 3);
        assert KickStep(s, t, KickLoad(r), flag).th.KickCasReleasing? ==>
          WholeKick(s, t, KickLoad(r), flag, 3) == WholeKick(s, t, KickCasReleasing(r), flag, 2);
        assert KickStep(s, t, KickLoad(r), flag).th.KickCasIdle? ==>
          WholeKick(s, t, KickLoad(r), flag, 3) == WholeKick(s, t, KickCasIdle(r), flag, 2);
      }
    }
  }
}
