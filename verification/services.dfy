/** The Service store of one Runtime: contract bindings and one occupied
    publication slot per Service and realm. */
module Services {
  import opened Fibers

  type Name = nat
  type Contract = nat
  type Payload = nat

  datatype Key = Key(realm: nat, name: Name)

  datatype Slot = Slot(occurrence: Occurrence, value: Payload, contract: Contract, owner: Fid)

  datatype Store = Store(contracts: map<Name, Contract>, slots: map<Key, Slot>)

  /** What a store section can see of a Fiber: an absent row is a Fiber that no
      longer exists. */
  datatype Provider = Provider(alive: bool, closing: bool, replacing: bool, state: FiberState)

  /** Fiber::assert_can_register. */
  predicate Admits(p: Provider) {
    p.alive && !p.closing && !p.replacing && (p.state == Loading || p.state == Active)
  }

  predicate AliveIn(fibers: map<Fid, Provider>, f: Fid) {
    f in fibers && fibers[f].alive
  }

  predicate VisibleSlot(fibers: map<Fid, Provider>, slot: Slot) {
    AliveIn(fibers, slot.owner) && fibers[slot.owner].state == Active
  }

  /** ServiceStore::occurrence_id. */
  function VisibleAt(fibers: map<Fid, Provider>, store: Store, key: Key): Option<Occurrence> {
    if key in store.slots && VisibleSlot(fibers, store.slots[key]) then Some(store.slots[key].occurrence) else None
  }

  datatype Refusal = Duplicate | ContractMismatch | StalePublication | MutationClosed

  /** Outcome of one store section: the new store, the revision it owes the
      dependents of its key, and the slot that left the store. */
  datatype Outcome = Done(store: Store, drift: bool, out: Option<Slot>) | Refused(why: Refusal)

  datatype Lookup = Value(value: Payload) | Unavailable | LookupMismatch

  predicate Clashes(store: Store, key: Key, contract: Contract) {
    key.name in store.contracts && store.contracts[key.name] != contract
  }

  predicate Occupied(fibers: map<Fid, Provider>, store: Store, key: Key) {
    key in store.slots && AliveIn(fibers, store.slots[key].owner)
  }

  predicate Holds(store: Store, key: Key, o: Occurrence) {
    key in store.slots && store.slots[key].occurrence == o
  }

  function Installed(fibers: map<Fid, Provider>, store: Store, key: Key, slot: Slot): Outcome {
    if Clashes(store, key, slot.contract) then Refused(ContractMismatch)
    else if Occupied(fibers, store, key) then Refused(Duplicate)
    else Done(Store(store.contracts[key.name := slot.contract], store.slots[key := slot]),
              slot.owner in fibers && fibers[slot.owner].state == Active,
              if key in store.slots then Some(store.slots[key]) else None)
  }

  function Swapped(fibers: map<Fid, Provider>, store: Store, key: Key, o: Occurrence, owner: Fid, value: Payload): Outcome {
    if !Holds(store, key, o) then Refused(StalePublication)
    else if owner !in fibers || !Admits(fibers[owner]) then Refused(MutationClosed)
    else Done(store.(slots := store.slots[key := store.slots[key].(value := value)]), false, Some(store.slots[key]))
  }

  function Removed(fibers: map<Fid, Provider>, store: Store, key: Key, o: Occurrence, owner: Fid): Outcome {
    if !Holds(store, key, o) then Refused(StalePublication)
    else if owner !in fibers || !Admits(fibers[owner]) then Refused(MutationClosed)
    else Done(store.(slots := store.slots - {key}), fibers[owner].state == Active, Some(store.slots[key]))
  }

  function Withdrawn(store: Store, key: Key, o: Occurrence): Store {
    if Holds(store, key, o) then store.(slots := store.slots - {key}) else store
  }

  function OwnedBy(store: Store, f: Fid): set<Key> {
    set key | key in store.slots && store.slots[key].owner == f
  }

  // ----- what the sections mean -----

  /** Every slot speaks the contract its Service name is bound to. */
  predicate Bound(store: Store) {
    forall key :: key in store.slots ==> key.name in store.contracts && store.contracts[key.name] == store.slots[key].contract
  }

  /** Whoever installed a slot for a live owner: no live Fiber is Active and dead at once. */
  predicate ActiveLives(fibers: map<Fid, Provider>) {
    forall f :: f in fibers && fibers[f].state == Active ==> fibers[f].alive
  }

  /** The store after a section, if it was not refused. */
  function StoreAfter(store: Store, r: Outcome): Store {
    if r.Done? then r.store else store
  }

  /** The keys whose visible occurrence differs between two instants. */
  predicate Drifted(fibers: map<Fid, Provider>, store: Store, fibers': map<Fid, Provider>, store': Store, key: Key) {
    VisibleAt(fibers, store, key) != VisibleAt(fibers', store', key)
  }

  /** The gate is open in one constellation only: a live Fiber that nobody is
      closing or replacing, Loading or Active. */
  lemma AdmitsExactly(p: Provider)
    ensures Admits(p) <==> p == Provider(true, false, false, Loading) || p == Provider(true, false, false, Active)
  {}

  /** An installation is refused for a foreign contract, which is reported first,
      or a live occupant, and for nothing else; a dead occupant is evicted; the
      dependents of the key are owed a revision exactly when what they can see
      changes; the slot carries what was offered, no other slot changes, and a
      name never changes its contract. */
  lemma InstallMeaning(fibers: map<Fid, Provider>, store: Store, key: Key, slot: Slot, other: Key)
    requires Bound(store) && ActiveLives(fibers)
    requires forall k :: k in store.slots ==> store.slots[k].occurrence != slot.occurrence
    ensures var r, store' := Installed(fibers, store, key, slot), StoreAfter(store, Installed(fibers, store, key, slot));
      && Bound(store') && store.contracts.Items <= store'.contracts.Items
      && (Drifted(fibers, store, fibers, store', other) <==> r.Done? && r.drift && other == key)
      && (r.Done? ==> store'.slots == store.slots[key := slot] && store'.contracts == store.contracts[key.name := slot.contract])
      && (r.Done? ==> if key in store.slots then r.out == Some(store.slots[key]) && !AliveIn(fibers, r.out.value.owner) else r.out.None?)
      && (r == Refused(ContractMismatch) <==> key.name in store.contracts && store.contracts[key.name] != slot.contract)
      && (r == Refused(Duplicate) <==> r != Refused(ContractMismatch) && key in store.slots && AliveIn(fibers, store.slots[key].owner))
      && (r.Refused? ==> r.why == ContractMismatch || r.why == Duplicate)
  {
    var r := Installed(fibers, store, key, slot);
    if r.Done? {
      forall item | item in store.contracts.Items ensures item in r.store.contracts.Items {
        assert item.0 in store.contracts && store.contracts[item.0] == item.1;
        assert r.store.contracts[item.0] == item.1;
      }
    }
  }

  /** Through the exact capability of an admitted owner a removal takes out that
      slot and no other, and a replacement puts the new value where the old one
      was and hands the old one back; otherwise both are refused as closed. A
      removal owes its dependents a revision exactly when they could see the
      publication, and a replacement never does. */
  lemma ExactMeaning(fibers: map<Fid, Provider>, store: Store, key: Key, o: Occurrence, value: Payload, other: Key)
    requires Bound(store) && Holds(store, key, o)
    ensures var owner := store.slots[key].owner;
      var removed, swapped := Removed(fibers, store, key, o, owner), Swapped(fibers, store, key, o, owner, value);
      && (removed.Done? <==> owner in fibers && Admits(fibers[owner])) && (swapped.Done? <==> removed.Done?)
      && (Drifted(fibers, store, fibers, StoreAfter(store, removed), other) <==> removed.Done? && removed.drift && other == key)
      && !Drifted(fibers, store, fibers, StoreAfter(store, swapped), other)
      && Bound(StoreAfter(store, removed)) && Bound(StoreAfter(store, swapped))
      && (removed.Done? ==> removed.store == store.(slots := store.slots - {key}) && removed.out == Some(store.slots[key]))
      && (swapped.Done? ==> swapped.out == Some(store.slots[key]) && !swapped.drift)
      && (swapped.Done? ==> swapped.store == Store(store.contracts, store.slots[key := Slot(o, value, store.slots[key].contract, owner)]))
      && (removed.Refused? ==> removed == swapped == Refused(MutationClosed))
  {}

  /** No exact operation touches a slot that holds another occurrence, and
      stale identity is reported before a closed generation. */
  lemma StaleTouchesNothing(fibers: map<Fid, Provider>, store: Store, key: Key, o: Occurrence, owner: Fid, value: Payload, other: Key)
    ensures var slots' := [StoreAfter(store, Removed(fibers, store, key, o, owner)).slots,
                           StoreAfter(store, Swapped(fibers, store, key, o, owner, value)).slots, Withdrawn(store, key, o).slots];
      forall i :: 0 <= i < 3 && other in store.slots && store.slots[other].occurrence != o ==>
        other in slots'[i] && slots'[i][other] == store.slots[other]
    ensures !Holds(store, key, o) ==>
      && Removed(fibers, store, key, o, owner) == Swapped(fibers, store, key, o, owner, value) == Refused(StalePublication)
      && Withdrawn(store, key, o) == store
    ensures Holds(store, key, o) ==> Withdrawn(store, key, o) == store.(slots := store.slots - {key})
  {}

  // ----- the store as the Runtime keeps it -----

  class ServiceStore {
    var contracts: map<Name, Contract>
    var slots: map<Key, Slot>

    function Contents(): Store
      reads this
    {
      Store(contracts, slots)
    }

    predicate Valid()
      reads this
    {
      Bound(Contents())
    }

    constructor ()
      ensures Valid() && Contents() == Store(map[], map[])
    {
      contracts, slots := map[], map[];
    }

    /** The section of a publication. The name is bound before the occupant is
        looked at, yet a refusal leaves no trace; the evicted slot is handed
        back so that it is destroyed outside the lock. */
    method Install(fibers: map<Fid, Provider>, key: Key, slot: Slot) returns (r: Outcome)
      requires Valid()
      modifies this
      ensures Valid()
      ensures r == Installed(fibers, old(Contents()), key, slot)
      ensures Contents() == StoreAfter(old(Contents()), r)
      ensures if r.Done? then slots == old(slots)[key := slot] && contracts == old(contracts)[key.name := slot.contract]
              else slots == old(slots) && contracts == old(contracts)
    {
      if key.name in contracts {
        if contracts[key.name] != slot.contract {
          return Refused(ContractMismatch);
        }
      } else {
        contracts := contracts[key.name := slot.contract];
      }
      if key in slots && slots[key].owner in fibers && fibers[slots[key].owner].alive {
        assert contracts == old(contracts);
        return Refused(Duplicate);
      }
      var drift := slot.owner in fibers && fibers[slot.owner].state == Active;
      var evicted := if key in slots then Some(slots[key]) else None;
      slots := slots - {key};
      slots := slots[key := slot];
      assert slots == old(slots)[key := slot];
      assert contracts == old(contracts)[key.name := slot.contract];
      r := Done(Contents(), drift, evicted);
    }

    method SetExact(fibers: map<Fid, Provider>, key: Key, o: Occurrence, owner: Fid, value: Payload) returns (r: Outcome)
      requires Valid()
      modifies this
      ensures Valid()
      ensures r == Swapped(fibers, old(Contents()), key, o, owner, value)
      ensures contracts == old(contracts)
      ensures r.Done? <==> Holds(old(Contents()), key, o) && owner in fibers && Admits(fibers[owner])
      ensures if r.Done? then slots == old(slots)[key := old(slots)[key].(value := value)] && r.out == Some(old(slots)[key])
              else slots == old(slots)
    {
      if key !in slots {
        return Refused(StalePublication);
      }
      if slots[key].occurrence != o {
        return Refused(StalePublication);
      }
      if owner !in fibers || !Admits(fibers[owner]) {
        return Refused(MutationClosed);
      }
      var outgoing := slots[key];
      slots := slots[key := outgoing.(value := value)];
      r := Done(Contents(), false, Some(outgoing));
    }

    method RemoveExact(fibers: map<Fid, Provider>, key: Key, o: Occurrence, owner: Fid) returns (r: Outcome)
      requires Valid()
      modifies this
      ensures Valid()
      ensures r == Removed(fibers, old(Contents()), key, o, owner)
      ensures contracts == old(contracts)
      ensures r.Done? <==> Holds(old(Contents()), key, o) && owner in fibers && Admits(fibers[owner])
      ensures if r.Done? then slots == old(slots) - {key} && r.out == Some(old(slots)[key]) else slots == old(slots)
    {
      if key !in slots || slots[key].occurrence != o {
        return Refused(StalePublication);
      }
      if owner !in fibers || !Admits(fibers[owner]) {
        return Refused(MutationClosed);
      }
      var removed := slots[key];
      slots := slots - {key};
      r := Done(Contents(), fibers[owner].state == Active, Some(removed));
    }

    method WithdrawExact(key: Key, o: Occurrence)
      requires Valid()
      modifies this
      ensures Valid()
      ensures Contents() == Withdrawn(old(Contents()), key, o) && contracts == old(contracts)
      ensures slots == if Holds(old(Contents()), key, o) then old(slots) - {key} else old(slots)
    {
      if key in slots && slots[key].occurrence == o {
        slots := slots - {key};
      }
    }

    /** The occurrence a dependent sees at a key. */
    method OccurrenceId(fibers: map<Fid, Provider>, key: Key) returns (o: Option<Occurrence>)
      ensures o == VisibleAt(fibers, Contents(), key)
      ensures o.Some? <==>
        key in slots && slots[key].owner in fibers && fibers[slots[key].owner].alive && fibers[slots[key].owner].state == Active
      ensures o.Some? ==> o.value == slots[key].occurrence
    {
      if key in slots {
        var slot := slots[key];
        if slot.owner in fibers && fibers[slot.owner].alive && fibers[slot.owner].state == Active {
          return Some(slot.occurrence);
        }
      }
      o := None;
    }

    /** What a reader gets: the value that was published or set last for the
        visible occurrence, under the contract it asks for. */
    method VisibleValue(fibers: map<Fid, Provider>, key: Key, contract: Contract) returns (r: Lookup)
      requires Valid()
      ensures r == LookupMismatch <==> key.name in contracts && contracts[key.name] != contract
      ensures r.Value? ==> key in slots && slots[key].contract == contract && r.value == slots[key].value
      ensures r.Value? <==> r != LookupMismatch && VisibleAt(fibers, Contents(), key).Some?
    {
      if key.name in contracts && contracts[key.name] != contract {
        return LookupMismatch;
      }
      var o := OccurrenceId(fibers, key);
      r := if o.Some? then Value(slots[key].value) else Unavailable;
    }
  }
}
