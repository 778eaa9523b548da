/** The process-wide deadline scheduler: an ordered table of armed deadlines and
    the one worker that fires them. */
module Deadlines {
  import opened Fibers

  type Time = nat

  /** Earliest first; arming order breaks ties. */
  datatype DeadlineKey = DeadlineKey(at: Time, id: nat)

  predicate Less(a: DeadlineKey, b: DeadlineKey) {
    a.at < b.at || (a.at == b.at && a.id < b.id)
  }

  predicate Sorted(s: seq<DeadlineKey>) {
    forall i, k :: 0 <= i < k < |s| ==> Less(s[i], s[k])
  }

  /** The table with one more entry, in order. */
  function Inserted(s: seq<DeadlineKey>, key: DeadlineKey): seq<DeadlineKey> {
    if s == [] || Less(key, s[0]) then [key] + s else [s[0]] + Inserted(s[1..], key)
  }

  function Erased(s: seq<DeadlineKey>, key: DeadlineKey): seq<DeadlineKey> {
    if s == [] then [] else if s[0] == key then s[1..] else [s[0]] + Erased(s[1..], key)
  }

  /** How many entries are due at an instant. */
  function Due(s: seq<DeadlineKey>, now: Time): (n: nat)
    ensures n <= |s|
  {
    if s == [] || s[0].at > now then 0 else 1 + Due(s[1..], now)
  }

  lemma DueIs(all: seq<DeadlineKey>, now: Time, due: seq<DeadlineKey>, rest: seq<DeadlineKey>)
    requires Sorted(all) && all == due + rest
    requires forall i :: 0 <= i < |due| ==> due[i].at <= now
    requires rest != [] ==> rest[0].at > now
    ensures |due| == Due(all, now) && Sorted(rest) && forall i :: 0 <= i < |rest| ==> rest[i].at > now
  {
    DueExactly(all, now);
    assert forall i :: 0 <= i < |due| ==> all[i] == due[i];
    assert forall i :: 0 <= i < |rest| ==> all[|due| + i] == rest[i];
    var d := Due(all, now);
    assert d < |all| ==> all[d].at > now;
    assert |due| < |all| ==> all[|due|] == rest[0];
  }

  function Keys(s: seq<DeadlineKey>): set<DeadlineKey> {
    set k | k in s
  }

  lemma {:induction false} InsertedSorted(s: seq<DeadlineKey>, key: DeadlineKey)
    requires Sorted(s) && key !in s
    ensures Sorted(Inserted(s, key)) && Keys(Inserted(s, key)) == Keys(s) + {key}
    ensures Inserted(s, key) != [] && Inserted(s, key)[0] == if s == [] || Less(key, s[0]) then key else s[0]
  {
    if s != [] && !Less(key, s[0]) {
      assert s == [s[0]] + s[1..];
      InsertedSorted(s[1..], key);
      var rest := Inserted(s[1..], key);
      forall i | 0 <= i < |rest| ensures Less(s[0], rest[i]) {
        assert rest[i] in Keys(rest);
        assert s[0] in s && key != s[0];
      }
    }
  }

  lemma KeysCons(k: DeadlineKey, rest: seq<DeadlineKey>)
    ensures Keys([k] + rest) == {k} + Keys(rest)
  {}

  lemma {:induction false} ErasedSorted(s: seq<DeadlineKey>, key: DeadlineKey)
    requires Sorted(s)
    ensures Sorted(Erased(s, key)) && Keys(Erased(s, key)) == Keys(s) - {key}
  {
    if s != [] {
      var rest := s[1..];
      assert s == [s[0]] + rest;
      KeysCons(s[0], rest);
      forall k | k in Keys(rest) ensures Less(s[0], k) {
        var i :| 0 <= i < |rest| && rest[i] == k;
        assert s[i + 1] == k;
      }
      if s[0] != key {
        ErasedSorted(rest, key);
        var left := Erased(rest, key);
        KeysCons(s[0], left);
        forall i | 0 <= i < |left| ensures Less(s[0], left[i]) { assert left[i] in Keys(left); }
      }
    }
  }

  /** The due entries are a prefix, and nothing after it is due. */
  lemma {:induction false} DueExactly(s: seq<DeadlineKey>, now: Time)
    requires Sorted(s)
    ensures forall i :: 0 <= i < |s| ==> (s[i].at <= now <==> i < Due(s, now))
  {
    if s != [] && s[0].at <= now {
      DueExactly(s[1..], now);
      assert forall i :: 1 <= i < |s| ==> s[i] == s[1..][i - 1];
    }
  }

  /** What the monitor protects. */
  class Schedule {
    var armed: seq<DeadlineKey>
    var nextId: nat
    var workerRunning: bool

    predicate Valid()
      reads this
    {
      Sorted(armed) && forall i :: 0 <= i < |armed| ==> armed[i].id < nextId
    }

    constructor ()
      ensures Valid() && armed == [] && nextId == 0 && !workerRunning
    {
      armed, nextId, workerRunning := [], 0, false;
    }

    /** The insert section once a worker exists; whether the entry became the
        earliest decides if its inserter owes the worker a notification. */
    method Insert(at: Time) returns (key: DeadlineKey, earliest: bool)
      requires Valid()
      modifies this`armed, this`nextId
      ensures Valid() && key == DeadlineKey(at, old(nextId)) && nextId == old(nextId) + 1
      ensures armed == Inserted(old(armed), key) && Keys(armed) == Keys(old(armed)) + {key}
      ensures earliest <==> forall k :: k in old(armed) ==> Less(key, k)
    {
      key := DeadlineKey(at, nextId);
      earliest := armed == [] || Less(key, armed[0]);
      InsertedSorted(armed, key);
      if armed != [] { assert armed[0] in armed; }
      armed := Inserted(armed, key);
      nextId := nextId + 1;
      forall i | 0 <= i < |armed| ensures armed[i].id < nextId { assert armed[i] in Keys(armed); }
    }

    method Disarm(key: DeadlineKey)
      requires Valid()
      modifies this`armed
      ensures Valid() && armed == Erased(old(armed), key) && Keys(armed) == Keys(old(armed)) - {key}
    {
      ErasedSorted(armed, key);
      ghost var was := armed;
      armed := Erased(armed, key);
      forall i | 0 <= i < |armed| ensures armed[i].id < nextId { assert armed[i] in Keys(armed) && armed[i] in Keys(was); }
    }

    /** The worker's pop loop: everything due leaves the table, earliest first,
        and nothing else does. */
    method TakeDue(now: Time) returns (due: seq<DeadlineKey>)
      requires Valid()
      modifies this`armed
      ensures Valid() && old(armed) == due + armed && |due| == Due(old(armed), now)
      ensures (forall i :: 0 <= i < |due| ==> due[i].at <= now) && forall i :: 0 <= i < |armed| ==> armed[i].at > now
    {
      ghost var all := armed;
      due := [];
      while armed != [] && armed[0].at <= now
        invariant Valid() && all == due + armed
        invariant forall i :: 0 <= i < |due| ==> due[i].at <= now
        decreases |armed|
      {
        due := due + [armed[0]];
        armed := armed[1..];
      }
      DueIs(all, now, due, armed);
    }

    /** When the worker wakes by itself; None waits for a notification. */
    method NextWake() returns (wake: Option<Time>)
      requires Valid()
      ensures wake.None? <==> armed == []
      ensures wake.Some? ==> (exists k :: k in armed && k.at == wake.value) && forall k :: k in armed ==> wake.value <= k.at
    {
      wake := if armed == [] then None else Some(armed[0].at);
      if armed != [] { assert armed[0] in armed; }
    }
  }
}
