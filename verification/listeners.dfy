/** Listener order of one Event: a lazily compacted order vector against the
    eagerly kept list it stands for. */
module Listeners {
  import opened Fibers
  import opened Sequences

  type Id = nat

  datatype Role = Observer | Responder | Mapper | Around

  datatype Operation = Emit | EmitParallel | Query | Waterfall

  /** A Scope node and its ancestors; nodes are the same when their ids are. */
  datatype Scope = Scope(id: nat, parent: Option<Scope>)

  datatype Hook = Hook(id: Id, prepend: bool, global: bool, once: bool, scope: Option<Scope>, role: Role)

  /** Registration order with stale ids left in it, and the live hooks. */
  datatype Hooks = Hooks(order: seq<Id>, entries: map<Id, Hook>)

  const NONE := Hooks([], map[])

  predicate Fine(h: Hooks) {
    && Distinct(h.order)
    && forall id :: id in h.entries ==> id in h.order && h.entries[id].id == id
  }

  /** The live hooks in order. */
  function Listing(order: seq<Id>, entries: map<Id, Hook>): seq<Hook> {
    if order == [] then [] else HookAt(order[0], entries) + Listing(order[1..], entries)
  }

  function HookAt(id: Id, entries: map<Id, Hook>): seq<Hook> {
    if id in entries then [entries[id]] else []
  }

  function Retained(order: seq<Id>, entries: map<Id, Hook>): seq<Id> {
    if order == [] then [] else IdAt(order[0], entries) + Retained(order[1..], entries)
  }

  function IdAt(id: Id, entries: map<Id, Hook>): seq<Id> {
    if id in entries then [id] else []
  }

  function Stale(h: Hooks): int {
    |h.order| - |h.entries|
  }

  /** Few enough stale ids that a scan costs little more than the live hooks. */
  predicate Compact(h: Hooks) {
    Stale(h) < Max(32, |h.entries|)
  }

  function Compacted(h: Hooks): Hooks {
    if Compact(h) then h else h.(order := Retained(h.order, h.entries))
  }

  function Added(h: Hooks, hook: Hook): Hooks {
    var c := Compacted(h);
    Hooks(if hook.prepend then [hook.id] + c.order else c.order + [hook.id], c.entries[hook.id := hook])
  }

  function Removed(h: Hooks, id: Id): Hooks {
    h.(entries := h.entries - {id})
  }

  // ----- the eager list -----

  function WithoutHook(list: seq<Hook>, id: Id): seq<Hook> {
    if list == [] then [] else (if list[0].id == id then [] else [list[0]]) + WithoutHook(list[1..], id)
  }

  /** What is left of a list is the list with the one hook cut out of it. */
  lemma {:induction false} WithoutHookAt(front: seq<Hook>, hook: Hook, back: seq<Hook>)
    requires forall h :: h in front || h in back ==> h.id != hook.id
    ensures WithoutHook(front + [hook] + back, hook.id) == front + back
  {
    var list := front + [hook] + back;
    if front == [] {
      assert list == [hook] + back && list[1..] == back;
      WithoutHookNone(back, hook.id);
      assert front + back == back;
    } else {
      assert list[0] == front[0] && list[1..] == front[1..] + [hook] + back;
      WithoutHookAt(front[1..], hook, back);
      assert front + back == [front[0]] + (front[1..] + back);
    }
  }

  lemma {:induction false} WithoutHookNone(list: seq<Hook>, id: Id)
    requires forall h :: h in list ==> h.id != id
    ensures WithoutHook(list, id) == list
  {
    if list != [] { WithoutHookNone(list[1..], id); }
  }

  function Placed(list: seq<Hook>, hook: Hook): seq<Hook> {
    if hook.prepend then [hook] + list else list + [hook]
  }

  lemma ListingCons(id: Id, rest: seq<Id>, entries: map<Id, Hook>)
    ensures Listing([id] + rest, entries) == HookAt(id, entries) + Listing(rest, entries)
  {
    assert ([id] + rest)[1..] == rest;
  }

  lemma DistinctCons(id: Id, rest: seq<Id>)
    ensures Distinct([id] + rest) <==> id !in rest && Distinct(rest)
  {
    if Distinct([id] + rest) {
      forall i | 0 <= i < |rest| ensures rest[i] != id { assert ([id] + rest)[0] == id && ([id] + rest)[i + 1] == rest[i]; }
      forall i, k | 0 <= i < k < |rest| ensures rest[i] != rest[k] {
        assert ([id] + rest)[i + 1] == rest[i] && ([id] + rest)[k + 1] == rest[k];
      }
    }
  }

  lemma {:induction false} RetainedMembers(order: seq<Id>, entries: map<Id, Hook>)
    requires Distinct(order)
    ensures Distinct(Retained(order, entries))
    ensures forall id :: id in Retained(order, entries) <==> id in order && id in entries
  {
    if order != [] {
      var first, rest := order[0], order[1..];
      assert order == [first] + rest;
      DistinctCons(first, rest);
      RetainedMembers(rest, entries);
      if first in entries { DistinctCons(first, Retained(rest, entries)); }
    }
  }

  lemma {:induction false} RetainedKeeps(order: seq<Id>, entries: map<Id, Hook>)
    ensures Listing(Retained(order, entries), entries) == Listing(order, entries)
  {
    if order != [] {
      var first, rest := order[0], order[1..];
      RetainedKeeps(rest, entries);
      if first in entries {
        ListingCons(first, Retained(rest, entries), entries);
      } else {
        assert Retained(order, entries) == Retained(rest, entries);
      }
    }
  }

  /** A list of distinct members of a set that it covers is as long as the set. */
  lemma {:induction false} CoversSize(order: seq<Id>, keys: set<Id>)
    requires Distinct(order) && forall id :: id in order <==> id in keys
    ensures |order| == |keys|
    decreases |order|
  {
    if order == [] {
      assert keys == {};
    } else {
      var rest := order[1..];
      assert order == [order[0]] + rest;
      DistinctCons(order[0], rest);
      CoversSize(rest, keys - {order[0]});
    }
  }

  lemma RetainedCompact(h: Hooks)
    requires Fine(h)
    ensures |Retained(h.order, h.entries)| == |h.entries|
  {
    RetainedMembers(h.order, h.entries);
    CoversSize(Retained(h.order, h.entries), h.entries.Keys);
    assert |h.entries.Keys| == |h.entries|;
  }

  /** Compaction changes no listener and no order, and leaves few stale ids. */
  lemma CompactionInvisible(h: Hooks)
    requires Fine(h)
    ensures Fine(Compacted(h)) && Compact(Compacted(h)) && Compacted(h).entries == h.entries
    ensures Listing(Compacted(h).order, h.entries) == Listing(h.order, h.entries)
    ensures forall id :: id in Compacted(h).order ==> id in h.order
  {
    RetainedKeeps(h.order, h.entries);
    RetainedMembers(h.order, h.entries);
    if !Compact(h) { RetainedCompact(h); }
  }

  lemma {:induction false} ListingSnoc(order: seq<Id>, id: Id, entries: map<Id, Hook>)
    ensures Listing(order + [id], entries) == Listing(order, entries) + HookAt(id, entries)
  {
    if order == [] {
      assert [] + [id] == [id] + [];
      ListingCons(id, [], entries);
    } else {
      var first, rest := order[0], order[1..];
      ListingSnoc(rest, id, entries);
      assert order + [id] == [first] + (rest + [id]);
      ListingCons(first, rest + [id], entries);
    }
  }

  lemma {:induction false} ListingFrame(order: seq<Id>, entries: map<Id, Hook>, entries': map<Id, Hook>)
    requires forall id :: id in order ==> (id in entries <==> id in entries') && (id in entries ==> entries[id] == entries'[id])
    ensures Listing(order, entries) == Listing(order, entries')
  {
    if order != [] {
      assert order[0] in order && forall id :: id in order[1..] ==> id in order;
      ListingFrame(order[1..], entries, entries');
    }
  }

  lemma DistinctSnoc(order: seq<Id>, id: Id)
    requires Distinct(order) && id !in order
    ensures Distinct(order + [id])
  {}

  /** Registration puts a fresh hook at the front or at the back. */
  lemma AddPlaces(h: Hooks, hook: Hook)
    requires Fine(h) && hook.id !in h.order
    ensures Listing(Added(h, hook).order, Added(h, hook).entries) == Placed(Listing(h.order, h.entries), hook)
  {
    CompactionInvisible(h);
    var c, a := Compacted(h), Added(h, hook);
    ListingFrame(c.order, c.entries, a.entries);
    ListingSnoc(c.order, hook.id, a.entries);
    ListingCons(hook.id, c.order, a.entries);
  }

  lemma AddFine(h: Hooks, hook: Hook)
    requires Fine(h) && hook.id !in h.order
    ensures Fine(Added(h, hook)) && Compact(Added(h, hook))
  {
    CompactionInvisible(h);
    var c, a := Compacted(h), Added(h, hook);
    DistinctSnoc(c.order, hook.id);
    DistinctCons(hook.id, c.order);
    assert a.entries.Keys == c.entries.Keys + {hook.id};
    assert |a.entries.Keys| == |a.entries| && |c.entries.Keys| == |c.entries|;
  }

  lemma {:induction false} ListingIds(order: seq<Id>, entries: map<Id, Hook>, id: Id)
    requires forall k :: k in entries ==> entries[k].id == k
    ensures Listing(order, entries - {id}) == WithoutHook(Listing(order, entries), id)
  {
    if order != [] {
      var rest := order[1..];
      ListingIds(rest, entries, id);
      if order[0] in entries {
        var first := entries[order[0]];
        assert Listing(order, entries) == [first] + Listing(rest, entries);
        assert ([first] + Listing(rest, entries))[1..] == Listing(rest, entries);
      } else {
        assert Listing(order, entries) == Listing(rest, entries);
        assert Listing(order, entries - {id}) == Listing(rest, entries - {id});
      }
    }
  }

  /** Removal takes out exactly one hook and disturbs no other. */
  lemma RemoveDeletes(h: Hooks, id: Id)
    requires Fine(h)
    ensures Fine(Removed(h, id))
    ensures Listing(Removed(h, id).order, Removed(h, id).entries) == WithoutHook(Listing(h.order, h.entries), id)
  {
    ListingIds(h.order, h.entries, id);
  }

  lemma RetainedEnd(order: seq<Id>, entries: map<Id, Hook>, kept: seq<Id>)
    requires Retained(order, entries) == kept + Retained(order[|order|..], entries)
    ensures Retained(order, entries) == kept
  {}

  lemma RetainedNext(order: seq<Id>, entries: map<Id, Hook>, n: nat, kept: seq<Id>)
    requires n < |order| && Retained(order, entries) == kept + Retained(order[n..], entries)
    ensures Retained(order, entries) == kept + IdAt(order[n], entries) + Retained(order[n + 1..], entries)
  {
    assert order[n..][1..] == order[n + 1..];
    assert kept + (IdAt(order[n], entries) + Retained(order[n + 1..], entries)) == kept + IdAt(order[n], entries) + Retained(order[n + 1..], entries);
  }

  // ----- the list as the store keeps it -----

  class EventHooks {
    var order: seq<Id>
    var entries: map<Id, Hook>

    function Contents(): Hooks
      reads this
    {
      Hooks(order, entries)
    }

    predicate Valid()
      reads this
    {
      Fine(Contents())
    }

    constructor ()
      ensures Valid() && Contents() == NONE
    {
      order, entries := [], map[];
    }

    /** Vec::retain with the live ids. */
    static method Retain(order: seq<Id>, entries: map<Id, Hook>) returns (kept: seq<Id>)
      ensures kept == Retained(order, entries)
    {
      hide Retained;
      hide IdAt;
      var n := 0;
      kept := [];
      assert order[0..] == order;
      while n < |order|
        invariant n <= |order| && Retained(order, entries) == kept + Retained(order[n..], entries)
      {
        RetainedNext(order, entries, n, kept);
        kept := kept + IdAt(order[n], entries);
        n := n + 1;
      }
      RetainedEnd(order, entries, kept);
    }

    method CompactIfSparse()
      requires Valid()
      modifies this`order
      ensures Valid() && Compact(Contents()) && Contents() == Compacted(old(Contents()))
      ensures |order| < |entries| + 32 || |order| < 2 * |entries|
      ensures |old(order)| < |entries| + 32 || |old(order)| < 2 * |entries| ==> order == old(order)
      ensures Listing(order, entries) == Listing(old(order), old(entries))
    {
      CompactionInvisible(Contents());
      hide Listing;
      hide Fine;
      hide Retained;
      var stale := |order| - |entries|;
      if stale >= 32 && stale >= |entries| {
        order := Retain(order, entries);
      }
    }

    method Add(hook: Hook)
      requires Valid() && hook.id !in order // listener identities are fresh
      modifies this
      ensures Valid() && Compact(Contents()) && Contents() == Added(old(Contents()), hook)
      ensures Listing(order, entries) == Placed(Listing(old(order), old(entries)), hook)
      ensures hook.prepend ==> Listing(order, entries) == [hook] + Listing(old(order), old(entries))
      ensures !hook.prepend ==> Listing(order, entries) == Listing(old(order), old(entries)) + [hook]
    {
      AddPlaces(Contents(), hook);
      AddFine(Contents(), hook);
      CompactIfSparse();
      entries := entries[hook.id := hook];
      if hook.prepend {
        order := [hook.id] + order;
      } else {
        order := order + [hook.id];
      }
    }

    method Remove(id: Id) returns (hook: Option<Hook>)
      requires Valid()
      modifies this`entries
      ensures Valid() && Contents() == Removed(old(Contents()), id)
      ensures hook == if id in old(entries) then Some(old(entries)[id]) else None
      ensures Listing(order, entries) == WithoutHook(Listing(old(order), old(entries)), id)
    {
      RemoveDeletes(Contents(), id);
      hook := if id in entries then Some(entries[id]) else None;
      entries := entries - {id};
    }
  }
}
