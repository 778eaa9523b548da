/** The Runtime's Event store: contracts, listener rows, once-claims and the
    snapshot a dispatch runs on. */
module EventStores {
  import opened Fibers
  import opened Listeners

  type Event = nat
  type Contract = nat

  // ----- one Event's row under any sequence of operations -----

  datatype Op = Add(hook: Hook) | Remove(id: Id) | Claim(id: Id) | Preflight

  /** A row exists only while it has live hooks. */
  function Pruned(h: Hooks): Option<Hooks> {
    if h.entries == map[] then None else Some(h)
  }

  function RowOf(row: Option<Hooks>): Hooks {
    if row.Some? then row.value else NONE
  }

  function RemovedRow(row: Option<Hooks>, id: Id): Option<Hooks> {
    if row.Some? && id in row.value.entries then Pruned(Listeners.Removed(row.value, id)) else row
  }

  function OnceIn(row: Option<Hooks>, id: Id): bool {
    row.Some? && id in row.value.entries && row.value.entries[id].once
  }

  function RowStep(row: Option<Hooks>, op: Op): Option<Hooks> {
    match op
    case Add(hook) => Some(Added(RowOf(row), hook))
    case Remove(id) => RemovedRow(row, id)
    case Claim(id) => if OnceIn(row, id) then RemovedRow(row, id) else row
    case Preflight => if row.Some? then Some(Compacted(row.value)) else None
  }

  function List(row: Option<Hooks>): seq<Hook> {
    Listing(RowOf(row).order, RowOf(row).entries)
  }

  /** The same operations on an eagerly kept list. */
  function EagerStep(list: seq<Hook>, op: Op): seq<Hook> {
    match op
    case Add(hook) => Placed(list, hook)
    case Remove(id) => WithoutHook(list, id)
    case Claim(id) => if exists i :: 0 <= i < |list| && list[i].id == id && list[i].once then WithoutHook(list, id) else list
    case Preflight => list
  }

  predicate StepAt(rows: seq<Option<Hooks>>, ops: seq<Op>, i: nat)
    requires |rows| == |ops| + 1 && i < |ops|
  {
    rows[i + 1] == RowStep(rows[i], ops[i])
  }

  /** rows[n] is the row after the first n operations. */
  ghost predicate IsRun(rows: seq<Option<Hooks>>, ops: seq<Op>) {
    |rows| == |ops| + 1 && rows[0] == None && forall i: nat :: i < |ops| ==> StepAt(rows, ops, i)
  }

  predicate EagerAt(lists: seq<seq<Hook>>, ops: seq<Op>, i: nat)
    requires |lists| == |ops| + 1 && i < |ops|
  {
    lists[i + 1] == EagerStep(lists[i], ops[i])
  }

  ghost predicate IsEagerRun(lists: seq<seq<Hook>>, ops: seq<Op>) {
    |lists| == |ops| + 1 && lists[0] == [] && forall i: nat :: i < |ops| ==> EagerAt(lists, ops, i)
  }

  /** Listener identities are fresh. */
  predicate FreshIds(ops: seq<Op>) {
    forall i, k :: 0 <= i < k < |ops| && ops[i].Add? && ops[k].Add? ==> ops[i].hook.id != ops[k].hook.id
  }

  lemma {:induction false} ListHas(order: seq<Id>, entries: map<Id, Hook>, hook: Hook)
    ensures hook in Listing(order, entries) <==> exists id :: id in order && id in entries && entries[id] == hook
  {
    if order != [] {
      ListHas(order[1..], entries, hook);
      assert forall id :: id in order <==> id == order[0] || id in order[1..];
    }
  }

  lemma {:induction false} EmptyListing(order: seq<Id>, entries: map<Id, Hook>)
    requires entries == map[]
    ensures Listing(order, entries) == []
  {
    if order != [] { EmptyListing(order[1..], entries); }
  }

  lemma PrunedList(h: Hooks)
    ensures List(Pruned(h)) == Listing(h.order, h.entries)
  {
    if h.entries == map[] { EmptyListing(h.order, h.entries); }
  }

  lemma RemovedRowList(row: Option<Hooks>, id: Id)
    requires Fine(RowOf(row))
    ensures List(RemovedRow(row, id)) == WithoutHook(List(row), id)
  {
    if row.Some? && id in row.value.entries {
      RemoveDeletes(row.value, id);
      PrunedList(Listeners.Removed(row.value, id));
    } else {
      var list := List(row);
      forall i | 0 <= i < |list| ensures list[i].id != id { ListHas(RowOf(row).order, RowOf(row).entries, list[i]); }
      WithoutHookNone(list, id);
    }
  }

  lemma OnceSame(row: Option<Hooks>, id: Id)
    requires Fine(RowOf(row))
    ensures OnceIn(row, id) <==> exists i :: 0 <= i < |List(row)| && List(row)[i].id == id && List(row)[i].once
  {
    var h, list := RowOf(row), List(row);
    if OnceIn(row, id) {
      ListHas(h.order, h.entries, h.entries[id]);
    }
    forall i | 0 <= i < |list| && list[i].id == id ensures id in h.entries && h.entries[id] == list[i] { ListHas(h.order, h.entries, list[i]); }
  }

  lemma StepRefines(row: Option<Hooks>, op: Op)
    requires Fine(RowOf(row)) && (op.Add? ==> op.hook.id !in RowOf(row).order)
    ensures Fine(RowOf(RowStep(row, op))) && List(RowStep(row, op)) == EagerStep(List(row), op)
  {
    match op {
      case Add(hook) => AddPlaces(RowOf(row), hook); AddFine(RowOf(row), hook);
      case Remove(id) => RemovedRowList(row, id); RemovedFine(row, id);
      case Claim(id) => OnceSame(row, id); RemovedRowList(row, id); RemovedFine(row, id);
      case Preflight => CompactionInvisible(RowOf(row));
    }
  }

  lemma RemovedFine(row: Option<Hooks>, id: Id)
    requires Fine(RowOf(row))
    ensures Fine(RowOf(RemovedRow(row, id)))
  {}

  lemma StepIds(row: Option<Hooks>, op: Op, id: Id)
    requires Fine(RowOf(row)) && id in RowOf(RowStep(row, op)).order
    ensures id in RowOf(row).order || (op.Add? && op.hook.id == id)
  {
    if op.Add? || op.Preflight? { CompactionInvisible(RowOf(row)); }
  }

  /** The id was given to a hook among the first n operations. */
  predicate AddedBefore(ops: seq<Op>, n: nat, id: Id)
    requires n <= |ops|
  {
    exists i :: 0 <= i < n && ops[i].Add? && ops[i].hook.id == id
  }

  lemma StepAddedBefore(ops: seq<Op>, n: nat, row: Option<Hooks>)
    requires n < |ops| && Fine(RowOf(row)) && forall id :: id in RowOf(row).order ==> AddedBefore(ops, n, id)
    ensures forall id :: id in RowOf(RowStep(row, ops[n])).order ==> AddedBefore(ops, n + 1, id)
  {
    forall id | id in RowOf(RowStep(row, ops[n])).order ensures AddedBefore(ops, n + 1, id) { StepIds(row, ops[n], id); }
  }

  lemma FreshAdd(ops: seq<Op>, n: nat, row: Option<Hooks>)
    requires FreshIds(ops) && n < |ops| && forall id :: id in RowOf(row).order ==> AddedBefore(ops, n, id)
    ensures ops[n].Add? ==> ops[n].hook.id !in RowOf(row).order
  {}

  lemma StepCompacts(row: Option<Hooks>, op: Op)
    requires Fine(RowOf(row)) && (op.Add? ==> op.hook.id !in RowOf(row).order) && (op.Add? || op.Preflight?)
    ensures Compact(RowOf(RowStep(row, op)))
  {
    CompactionInvisible(RowOf(row));
    if op.Add? { AddFine(RowOf(row), op.hook); }
  }

  /** What holds of the row after the first n operations. */
  ghost predicate RowOk(ops: seq<Op>, n: nat, row: Option<Hooks>)
    requires n <= |ops|
  {
    Fine(RowOf(row)) && forall id :: id in RowOf(row).order ==> AddedBefore(ops, n, id)
  }

  lemma NextOk(ops: seq<Op>, n: nat, row: Option<Hooks>, row': Option<Hooks>)
    requires FreshIds(ops) && n < |ops| && RowOk(ops, n, row) && row' == RowStep(row, ops[n])
    ensures RowOk(ops, n + 1, row') && List(row') == EagerStep(List(row), ops[n])
    ensures ops[n].Add? || ops[n].Preflight? ==> Compact(RowOf(row'))
  {
    FreshAdd(ops, n, row);
    StepRefines(row, ops[n]);
    StepAddedBefore(ops, n, row);
    if ops[n].Add? || ops[n].Preflight? { StepCompacts(row, ops[n]); }
  }

  lemma {:induction false} RunOk(rows: seq<Option<Hooks>>, ops: seq<Op>, n: nat)
    requires FreshIds(ops) && IsRun(rows, ops) && n <= |ops|
    ensures RowOk(ops, n, rows[n])
  {
    if n > 0 {
      RunOk(rows, ops, n - 1);
      assert StepAt(rows, ops, n - 1);
      NextOk(ops, n - 1, rows[n - 1], rows[n]);
    }
  }

  /** Over any run of add, remove, claim and preflight, iteration shows exactly
      the eagerly kept list, and a row is compact after each add or preflight. */
  lemma {:induction false} LazyEqualsEager(rows: seq<Option<Hooks>>, lists: seq<seq<Hook>>, ops: seq<Op>, n: nat)
    requires FreshIds(ops) && IsRun(rows, ops) && IsEagerRun(lists, ops) && n <= |ops|
    ensures List(rows[n]) == lists[n]
    ensures n > 0 && (ops[n - 1].Add? || ops[n - 1].Preflight?) ==> Compact(RowOf(rows[n]))
  {
    if n > 0 {
      LazyEqualsEager(rows, lists, ops, n - 1);
      RunOk(rows, ops, n - 1);
      assert StepAt(rows, ops, n - 1) && EagerAt(lists, ops, n - 1);
      NextOk(ops, n - 1, rows[n - 1], rows[n]);
    }
  }

  /** Operation k of the run claims the once-listener id. */
  predicate Claims(rows: seq<Option<Hooks>>, ops: seq<Op>, k: nat, id: Id)
    requires |rows| == |ops| + 1 && k < |ops|
  {
    ops[k] == Claim(id) && OnceIn(rows[k], id)
  }

  lemma StepGone(row: Option<Hooks>, op: Op, id: Id)
    requires id !in RowOf(row).entries && (op.Add? ==> op.hook.id != id)
    ensures id !in RowOf(RowStep(row, op)).entries
  {}

  lemma ClaimGone(row: Option<Hooks>, id: Id)
    requires OnceIn(row, id)
    ensures id !in RowOf(RowStep(row, Claim(id))).entries
  {}

  lemma NotAddedAgain(rows: seq<Option<Hooks>>, ops: seq<Op>, i: nat, k: nat, id: Id)
    requires FreshIds(ops) && IsRun(rows, ops) && i < k < |ops| && Claims(rows, ops, i, id)
    ensures ops[k].Add? ==> ops[k].hook.id != id
  {
    RunOk(rows, ops, i);
    assert id in RowOf(rows[i]).order;
    assert AddedBefore(ops, i, id);
  }

  lemma {:induction false} GoneAfter(rows: seq<Option<Hooks>>, ops: seq<Op>, i: nat, k: nat, id: Id)
    requires FreshIds(ops) && IsRun(rows, ops) && i < k <= |ops| && Claims(rows, ops, i, id)
    ensures id !in RowOf(rows[k]).entries
    decreases k
  {
    assert StepAt(rows, ops, k - 1);
    if k - 1 == i {
      ClaimGone(rows[i], id);
    } else {
      GoneAfter(rows, ops, i, k - 1, id);
      NotAddedAgain(rows, ops, i, k - 1, id);
      StepGone(rows[k - 1], ops[k - 1], id);
    }
  }

  /** A once-listener is claimed at most once across all dispatches. */
  lemma ClaimedOnce(rows: seq<Option<Hooks>>, ops: seq<Op>, i: nat, k: nat, id: Id)
    requires FreshIds(ops) && IsRun(rows, ops) && i < |ops| && k < |ops| && Claims(rows, ops, i, id) && Claims(rows, ops, k, id)
    ensures i == k
  {
    if i < k { GoneAfter(rows, ops, i, k, id); }
    if k < i { GoneAfter(rows, ops, k, i, id); }
  }

  // ----- dispatch snapshots -----

  datatype Routing = Unscoped | Scoped(layer: Option<Scope>)

  /** The node and its ancestors, nearest first. */
  function Chain(scope: Scope): seq<nat> {
    [scope.id] + if scope.parent.Some? then Chain(scope.parent.value) else []
  }

  /** ScopeNode::reaches: walk the chain outward. */
  method Reaches(dispatch: Scope, head: Scope) returns (found: bool)
    ensures found <==> head.id in Chain(dispatch)
  {
    var node := Some(dispatch);
    while node.Some?
      invariant head.id in Chain(dispatch) <==> node.Some? && head.id in Chain(node.value)
      decreases node
    {
      if node.value.id == head.id {
        return true;
      }
      node := node.value.parent;
    }
    found := false;
  }

  /** A dispatch in a Scope reaches global hooks, hooks registered outside any
      Scope, and hooks of that Scope and its ancestors. */
  predicate Eligible(hook: Hook, routing: Routing) {
    match routing
    case Unscoped => true
    case Scoped(layer) =>
      hook.global || hook.scope.None? || (layer.Some? && hook.scope.value.id in Chain(layer.value))
  }

  predicate Compatible(role: Role, operation: Operation) {
    if operation == Waterfall then role == Mapper || role == Around else role == Observer || role == Responder
  }

  /** The n-th Scope outward from a Scope, if the chain is that long. */
  function Outward(scope: Scope, n: nat): Option<Scope> {
    if n == 0 then Some(scope) else if scope.parent.Some? then Outward(scope.parent.value, n - 1) else None
  }

  ghost predicate Encloses(outer: nat, scope: Scope) {
    exists n: nat :: Outward(scope, n).Some? && Outward(scope, n).value.id == outer
  }

  lemma {:induction false} ChainExactly(scope: Scope, id: nat)
    ensures id in Chain(scope) <==> Encloses(id, scope)
    decreases scope
  {
    assert Outward(scope, 0) == Some(scope);
    if scope.parent.Some? {
      var outer := scope.parent.value;
      ChainExactly(outer, id);
      forall n: nat ensures Outward(scope, n + 1) == Outward(outer, n) {}
      if Encloses(id, outer) {
        var n: nat :| Outward(outer, n).Some? && Outward(outer, n).value.id == id;
        assert Outward(scope, n + 1).Some? && Outward(scope, n + 1).value.id == id;
      }
      if Encloses(id, scope) {
        var n: nat :| Outward(scope, n).Some? && Outward(scope, n).value.id == id;
        if n > 0 { assert Outward(outer, n - 1).Some? && Outward(outer, n - 1).value.id == id; }
      }
    } else {
      forall n: nat | n > 0 ensures Outward(scope, n).None? {}
    }
  }

  /** Which hooks a dispatch reaches: all of them without a Scope, and under one
      those that are global, belong to no Scope, or belong to the dispatch Scope or
      one that encloses it. A dispatch outside every Scope reaches no scoped hook. */
  lemma EligibleExactly(hook: Hook, layer: Scope)
    ensures Eligible(hook, Unscoped)
    ensures Eligible(hook, Scoped(Some(layer))) <==> hook.global || (hook.scope.Some? ==> Encloses(hook.scope.value.id, layer))
    ensures Eligible(hook, Scoped(None)) <==> hook.global || hook.scope.None?
  {
    if hook.scope.Some? { ChainExactly(layer, hook.scope.value.id); }
  }

  /** Every role has its operations: Mappers and Arounds run in a waterfall and
      nowhere else, Observers and Responders everywhere else and in no waterfall. */
  lemma CompatibleExactly(role: Role)
    ensures Compatible(role, Waterfall) <==> role in {Mapper, Around}
    ensures forall operation :: operation in {Emit, EmitParallel, Query} ==> (Compatible(role, operation) <==> role in {Observer, Responder})
  {}

  function Selected(list: seq<Hook>, routing: Routing): seq<Hook> {
    if list == [] then [] else (if Eligible(list[0], routing) then [list[0]] else []) + Selected(list[1..], routing)
  }

  datatype Preflighted = Snapshot(hooks: seq<Hook>) | IncompatibleRole(role: Role) | EventContractMismatch

  /** The first eligible hook of the list that the operation cannot run. */
  ghost predicate FirstClash(list: seq<Hook>, routing: Routing, operation: Operation, role: Role) {
    exists i :: 0 <= i < |list| && Eligible(list[i], routing) && !Compatible(list[i].role, operation) && list[i].role == role
      && forall k :: 0 <= k < i && Eligible(list[k], routing) ==> Compatible(list[k].role, operation)
  }

  lemma {:induction false} SelectedSnoc(list: seq<Hook>, hook: Hook, routing: Routing)
    ensures Selected(list + [hook], routing) == Selected(list, routing) + if Eligible(hook, routing) then [hook] else []
  {
    if list == [] {
      assert list + [hook] == [hook];
      assert [hook][1..] == [];
    } else {
      SelectedSnoc(list[1..], hook, routing);
      assert (list + [hook])[1..] == list[1..] + [hook] && (list + [hook])[0] == list[0];
    }
  }

  class EventStore {
    var contracts: map<Event, Contract>
    var rows: map<Event, Hooks>

    predicate Valid()
      reads this
    {
      forall e :: e in rows ==> Fine(rows[e]) && rows[e].entries != map[]
    }

    function Row(e: Event): Option<Hooks>
      reads this
    {
      if e in rows then Some(rows[e]) else None
    }

    constructor ()
      ensures Valid() && rows == map[] && contracts == map[]
    {
      contracts, rows := map[], map[];
    }

    /** An Event name binds one contract for good. */
    method Bind(e: Event, contract: Contract) returns (ok: bool)
      modifies this`contracts
      ensures ok <==> (e in old(contracts) ==> old(contracts)[e] == contract)
      ensures contracts == if ok then old(contracts)[e := contract] else old(contracts)
    {
      if e in contracts {
        ok := contracts[e] == contract;
      } else {
        contracts := contracts[e := contract];
        ok := true;
      }
    }

    method Register(e: Event, contract: Contract, hook: Hook) returns (ok: bool)
      requires Valid() && (e in rows ==> hook.id !in rows[e].order)
      modifies this
      ensures Valid() && (ok <==> (e in old(contracts) ==> old(contracts)[e] == contract))
      ensures contracts == if ok then old(contracts)[e := contract] else old(contracts)
      ensures rows == if ok then old(rows)[e := RowStep(old(Row(e)), Add(hook)).value] else old(rows)
    {
      ok := Bind(e, contract);
      if ok {
        var h := if e in rows then rows[e] else NONE;
        AddFine(h, hook);
        rows := rows[e := Added(h, hook)];
      }
    }

    /** Take the hook out; a row without live hooks goes with it. */
    method TakeOut(e: Event, id: Id)
      requires Valid() && e in rows && id in rows[e].entries
      modifies this`rows
      ensures Valid() && Row(e) == RemovedRow(old(Row(e)), id)
      ensures forall x :: x != e ==> (x in rows <==> x in old(rows)) && (x in rows ==> rows[x] == old(rows)[x])
    {
      var h := Listeners.Removed(rows[e], id);
      RemoveDeletes(rows[e], id);
      if h.entries == map[] {
        rows := rows - {e};
      } else {
        rows := rows[e := h];
      }
    }

    method Remove(e: Event, id: Id) returns (removed: bool)
      requires Valid()
      modifies this`rows
      ensures Valid() && (removed <==> e in old(rows) && id in old(rows)[e].entries)
      ensures Row(e) == RowStep(old(Row(e)), Op.Remove(id))
      ensures forall x :: x != e ==> (x in rows <==> x in old(rows)) && (x in rows ==> rows[x] == old(rows)[x])
    {
      if e !in rows || id !in rows[e].entries {
        return false;
      }
      TakeOut(e, id);
      removed := true;
    }

    /** Whether the listener may run, and whether this claim consumed it. */
    method ClaimHook(e: Event, id: Id) returns (found: bool, consumed: bool)
      requires Valid()
      modifies this`rows
      ensures Valid() && (found <==> e in old(rows) && id in old(rows)[e].entries) && (consumed <==> OnceIn(old(Row(e)), id))
      ensures Row(e) == RowStep(old(Row(e)), Claim(id))
      ensures forall x :: x != e ==> (x in rows <==> x in old(rows)) && (x in rows ==> rows[x] == old(rows)[x])
    {
      if e !in rows || id !in rows[e].entries {
        return false, false;
      }
      if !rows[e].entries[id].once {
        return true, false;
      }
      TakeOut(e, id);
      found, consumed := true, true;
    }

    /** The snapshot a dispatch runs on: the eligible hooks of the eager list, or
        the first of them whose role the operation cannot run. */
    method PreflightDispatch(e: Event, contract: Contract, routing: Routing, operation: Operation) returns (r: Preflighted)
      requires Valid()
      modifies this
      ensures Valid() && Row(e) == if r.EventContractMismatch? then old(Row(e)) else RowStep(old(Row(e)), Op.Preflight)
      ensures r.EventContractMismatch? <==> e in old(contracts) && old(contracts)[e] != contract
      ensures contracts == if r.EventContractMismatch? then old(contracts) else old(contracts)[e := contract]
      ensures rows.Keys == old(rows).Keys && forall x :: x in rows && x != e ==> rows[x] == old(rows)[x]
      ensures r.IncompatibleRole? ==> FirstClash(List(old(Row(e))), routing, operation, r.role)
      ensures r.Snapshot? ==> r.hooks == Selected(List(old(Row(e))), routing) && forall hook :: hook in r.hooks ==> Compatible(hook.role, operation)
    {
      NothingListed(routing);
      hide Listing;
      hide Fine;
      hide Selected;
      hide FirstClash;
      hide Compact;
      var ok := Bind(e, contract);
      if !ok {
        return EventContractMismatch;
      }
      if e !in rows {
        return Snapshot([]);
      }
      CompactionInvisible(rows[e]);
      rows := rows[e := Compacted(rows[e])];
      r := Scan(Listing(rows[e].order, rows[e].entries), routing, operation);
    }
  }

  lemma NothingListed(routing: Routing)
    ensures Selected(List(None), routing) == []
  {}

  method Scan(list: seq<Hook>, routing: Routing, operation: Operation) returns (r: Preflighted)
    ensures !r.EventContractMismatch?
    ensures r.IncompatibleRole? ==> FirstClash(list, routing, operation, r.role)
    ensures r.Snapshot? ==> r.hooks == Selected(list, routing) && forall hook :: hook in r.hooks ==> Compatible(hook.role, operation)
  {
    var hooks, n := [], 0;
    while n < |list|
      invariant n <= |list| && hooks == Selected(list[..n], routing)
      invariant forall hook :: hook in hooks ==> Compatible(hook.role, operation)
      invariant forall k :: 0 <= k < n && Eligible(list[k], routing) ==> Compatible(list[k].role, operation)
    {
      assert list[..n + 1] == list[..n] + [list[n]];
      SelectedSnoc(list[..n], list[n], routing);
      if Eligible(list[n], routing) {
        if !Compatible(list[n].role, operation) {
          return IncompatibleRole(list[n].role);
        }
        hooks := hooks + [list[n]];
      }
      n := n + 1;
    }
    assert list[..n] == list;
    r := Snapshot(hooks);
  }
}
