/** One execution of a frozen plan: pruning below disabled Plugins and
    execution-local realm placement. */
module PlanLoading {
  import opened Fibers
  import opened Sequences
  import opened PlanOrder
  import opened LoadPlans

  type Realm = nat

  // ----- realm placement -----

  /** One isolate row of an executed declaration and the realm it got. */
  datatype Placed = Placed(policy: RealmPolicy, realm: Realm)

  /** Two rows of one execution share a realm exactly when both are Shared under
      one label; a Private row shares its realm with no row. */
  predicate Rendezvous(rows: seq<Placed>) {
    forall i, k :: 0 <= i < k < |rows| ==>
      (rows[i].realm == rows[k].realm <==> rows[i].policy.Shared? && rows[i].policy == rows[k].policy)
  }

  lemma OneMoreRow(rows: seq<Placed>, row: Placed)
    requires Rendezvous(rows)
    requires forall i :: 0 <= i < |rows| ==> (rows[i].realm == row.realm <==> rows[i].policy.Shared? && rows[i].policy == row.policy)
    ensures Rendezvous(rows + [row])
  {}

  class RealmEnvironment {
    var shared: map<string, Realm>
    ghost var rows: seq<Placed> // every row placed in this execution

    ghost predicate Valid(next: Realm)
      reads this
    {
      && Rendezvous(rows)
      && (forall text :: text in shared ==> shared[text] < next)
      && (forall a, b :: a in shared && b in shared && a != b ==> shared[a] != shared[b])
      && (forall i :: 0 <= i < |rows| ==> rows[i].realm < next)
      && (forall i :: 0 <= i < |rows| && rows[i].policy.Shared? ==>
            rows[i].policy.text in shared && shared[rows[i].policy.text] == rows[i].realm)
      && (forall i, text :: 0 <= i < |rows| && rows[i].policy.Private? && text in shared ==> shared[text] != rows[i].realm)
    }

    constructor ()
      ensures forall next :: Valid(next)
      ensures rows == [] && shared == map[]
    {
      shared := map[];
      rows := [];
    }

    /** The realm of one row; `next` is the Runtime's realm allocator. */
    method Select(next: Realm, policy: RealmPolicy) returns (realm: Realm, next': Realm)
      requires Valid(next)
      modifies this
      ensures next <= next' && realm < next' && Valid(next') && rows == old(rows) + [Placed(policy, realm)]
    {
      next' := next;
      match policy {
        case Private =>
          realm, next' := next, next + 1;
        case Shared(text) =>
          if text !in shared {
            shared := shared[text := next];
            next' := next + 1;
          }
          realm := shared[text];
      }
      OneMoreRow(rows, Placed(policy, realm));
      rows := rows + [Placed(policy, realm)];
    }

    /** RealmEnvironment::place: one realm for each isolate row, in row order. A
        validated declaration names no Service twice, so the mapping is well formed. */
    method Place(next: Realm, rows': seq<IsolateEntry>) returns (mapping: seq<(string, Realm)>, next': Realm)
      requires Valid(next) && Unique(Services(rows'))
      modifies this
      ensures next <= next' && Valid(next') && |mapping| == |rows'|
      ensures forall i :: 0 <= i < |mapping| ==> mapping[i].0 == rows'[i].service
      ensures forall i, k :: 0 <= i < k < |mapping| ==> mapping[i].0 != mapping[k].0
      ensures rows == old(rows) + seq(|rows'|, i requires 0 <= i < |mapping| => Placed(rows'[i].policy, mapping[i].1))
    {
      mapping, next' := [], next;
      var n := 0;
      while n < |rows'|
        invariant n <= |rows'| && |mapping| == n && next <= next' && Valid(next')
        invariant forall i :: 0 <= i < n ==> mapping[i].0 == rows'[i].service
        invariant rows == old(rows) + seq(n, i requires 0 <= i < |mapping| => Placed(rows'[i].policy, mapping[i].1))
      {
        var realm;
        realm, next' := Select(next', rows'[n].policy);
        mapping := mapping + [(rows'[n].service, realm)];
        n := n + 1;
      }
      forall i, k | 0 <= i < k < |mapping| ensures mapping[i].0 != mapping[k].0 {
        assert !Repeats(Services(rows'), k);
        assert Services(rows')[..k][i] == Services(rows')[i];
      }
    }
  }

  // ----- pruning -----

  /** The outermost declaration at or above j that is disabled. */
  function TopDisabled(up: Shape, off: seq<bool>, j: nat): Option<nat>
    requires Topological(up) && |off| == |up| && j < |up|
    decreases j
  {
    var above := if up[j].Some? then TopDisabled(up, off, up[j].value) else None;
    if above.Some? then above else if off[j] then Some(j) else None
  }

  /** a is a disabled declaration at or above j, and every other one lies below a. */
  ghost predicate Outermost(up: Shape, off: seq<bool>, a: nat, j: nat)
    requires Topological(up) && |off| == |up| && j < |up|
  {
    && a < |up| && off[a] && Under(up, a, j)
    && forall b: nat :: b < |up| && off[b] && Under(up, b, j) ==> Under(up, a, b)
  }

  lemma {:induction false} TopDisabledExactly(up: Shape, off: seq<bool>, j: nat)
    requires Topological(up) && |off| == |up| && j < |up|
    ensures TopDisabled(up, off, j).None? <==> forall b: nat :: b < |up| && off[b] ==> !Under(up, b, j)
    ensures TopDisabled(up, off, j).Some? ==> Outermost(up, off, TopDisabled(up, off, j).value, j)
    decreases j
  {
    if up[j].Some? {
      var p := up[j].value;
      TopDisabledExactly(up, off, p);
      assert forall b: nat :: b < |up| && b != j ==> (Under(up, b, j) <==> Under(up, b, p));
    }
  }

  // ----- one execution -----

  /** What the resolver, and then the spawn, of one declaration answer. */
  datatype Resolution = ResolverFails | Unknown | Prepared(spawns: bool)

  datatype Failure = Resolver | UnresolvedKey(key: string) | Spawn

  datatype Outcome =
    | PrunedRow(id: EntryId, ancestor: EntryId)
    | GroupRow(id: EntryId)
    | DisabledRow(id: EntryId)
    | FailedRow(id: EntryId, key: string, why: Failure)
    | SpawnedRow(id: EntryId, key: string)

  predicate Off(node: PlanNode) {
    node.entry.Plugin? && node.entry.entry.disabled
  }

  function Offs(nodes: seq<PlanNode>): (off: seq<bool>)
    ensures |off| == |nodes| && forall i :: 0 <= i < |nodes| ==> off[i] == Off(nodes[i])
  {
    seq(|nodes|, i requires 0 <= i < |nodes| => Off(nodes[i]))
  }

  function ResolveKey(entry: PluginEntry): string
    requires Named(entry)
  {
    if entry.key.Some? then entry.key.value else entry.name.value
  }

  predicate Keyed(nodes: seq<PlanNode>) {
    forall i :: 0 <= i < |nodes| && nodes[i].entry.Plugin? ==> ValidPlugin(nodes[i].entry.entry)
  }

  /** Something strictly above i is disabled. */
  predicate Shadowed(up: Shape, off: seq<bool>, i: nat)
    requires Topological(up) && |off| == |up| && i < |up|
  {
    up[i].Some? && TopDisabled(up, off, up[i].value).Some?
  }

  /** A row is pruned exactly when a proper ancestor is disabled, and then names the outermost one. */
  lemma ShadowedExactly(up: Shape, off: seq<bool>, i: nat)
    requires Topological(up) && |off| == |up| && i < |up|
    ensures Shadowed(up, off, i) <==> exists b: nat :: b < |up| && b != i && off[b] && Under(up, b, i)
    ensures Shadowed(up, off, i) ==> TopDisabled(up, off, i).Some? && TopDisabled(up, off, i).value != i
    ensures Shadowed(up, off, i) ==> Outermost(up, off, TopDisabled(up, off, i).value, i)
  {
    TopDisabledExactly(up, off, i);
    if up[i].Some? {
      var p := up[i].value;
      TopDisabledExactly(up, off, p);
      assert forall b: nat :: b < |up| && b != i ==> (Under(up, b, i) <==> Under(up, b, p));
      if TopDisabled(up, off, p).Some? { UnderOrder(up, TopDisabled(up, off, p).value, p); }
      forall b: nat | b < |up| && off[b] && Under(up, b, p) ensures b != i { UnderOrder(up, b, p); }
    }
  }

  /** Whether a declaration gets as far as realm placement. */
  predicate Places(nodes: seq<PlanNode>, up: Shape, answers: seq<Resolution>, i: nat)
    requires Topological(up) && |up| == |nodes| == |answers| && i < |nodes|
  {
    nodes[i].entry.Plugin? && !Off(nodes[i]) && !Shadowed(up, Offs(nodes), i) && answers[i].Prepared?
  }

  /** The identity a declaration is resolved under: its explicit key, and its name
      only where it has none. */
  predicate ResolvesUnder(entry: PluginEntry, key: string) {
    if entry.key == None then entry.name == Some(key) else entry.key == Some(key)
  }

  predicate AnswerOk(node: PlanNode, answer: Resolution, o: Outcome)
    requires node.entry.Plugin? && Named(node.entry.entry)
  {
    && (o.FailedRow? || o.SpawnedRow?) && o.id == node.id && ResolvesUnder(node.entry.entry, o.key)
    && match answer
       case ResolverFails => o.FailedRow? && o.why == Resolver
       case Unknown => o.FailedRow? && o.why == UnresolvedKey(o.key)
       case Prepared(spawns) => if spawns then o.SpawnedRow? else o.FailedRow? && o.why == Spawn
  }

  /** The outcome row of declaration i. */
  ghost predicate OutcomeOk(nodes: seq<PlanNode>, up: Shape, answers: seq<Resolution>, i: nat, o: Outcome)
    requires Topological(up) && |up| == |nodes| == |answers| && i < |nodes| && Keyed(nodes)
  {
    && o.id == nodes[i].id
    && (o.PrunedRow? <==> exists b: nat :: b < |up| && b != i && Off(nodes[b]) && Under(up, b, i))
    && (o.PrunedRow? ==> exists a: nat :: a < |up| && Outermost(up, Offs(nodes), a, i) && a != i && o.ancestor == nodes[a].id)
    && (!o.PrunedRow? ==>
          match nodes[i].entry
          case Group => o.GroupRow?
          case Plugin(entry) => if entry.disabled then o.DisabledRow? else AnswerOk(nodes[i], answers[i], o))
  }

  /** The parent of the k-th executed declaration was executed before it. */
  lemma ParentEarlier(up: Shape, k: nat, p: nat)
    requires Topological(up) && k < |Preorder(up)| && Preorder(up)[k] < |up| && up[Preorder(up)[k]] == Some(p)
    ensures p in Preorder(up)[..k]
  {
    var order, i := Preorder(up), Preorder(up)[k];
    PreorderPermutes(up);
    var m, q := ParentFirst(up, p, i);
    assert order[q] == order[k];
    assert q == k && order[..k][m] == p;
  }

  /** disabled_by_entry names the outermost disabled declaration of every executed row. */
  predicate Recorded(nodes: seq<PlanNode>, up: Shape, disabledBy: map<EntryId, EntryId>, j: nat)
    requires Topological(up) && |up| == |nodes| && j < |nodes|
  {
    var top := TopDisabled(up, Offs(nodes), j);
    if top.Some? then top.value < |nodes| && nodes[j].id in disabledBy && disabledBy[nodes[j].id] == nodes[top.value].id
    else nodes[j].id !in disabledBy
  }

  /** What is inherited from the parent is what the whole ancestry says. */
  lemma Inherits(nodes: seq<PlanNode>, up: Shape, disabledBy: map<EntryId, EntryId>, i: nat)
    requires Rooted(nodes) && up == ShapeOf(nodes) && i < |nodes|
    requires up[i].Some? ==> Recorded(nodes, up, disabledBy, up[i].value)
    ensures Shadowed(up, Offs(nodes), i) <==> nodes[i].parent.Some? && nodes[i].parent.value in disabledBy
    ensures Shadowed(up, Offs(nodes), i) ==>
      TopDisabled(up, Offs(nodes), i).Some? && TopDisabled(up, Offs(nodes), i).value < |nodes|
      && nodes[TopDisabled(up, Offs(nodes), i).value].id == disabledBy[nodes[i].parent.value]
  {
    if up[i].Some? { assert nodes[i].parent == Some(nodes[up[i].value].id); }
  }

  /** The entry inherited from the parent decides pruning as the whole ancestry does. */
  lemma InheritedExactly(nodes: seq<PlanNode>, up: Shape, disabledBy: map<EntryId, EntryId>, i: nat)
    requires Rooted(nodes) && up == ShapeOf(nodes) && i < |nodes|
    requires up[i].Some? ==> Recorded(nodes, up, disabledBy, up[i].value)
    ensures var inherited := nodes[i].parent.Some? && nodes[i].parent.value in disabledBy;
      && (inherited <==> exists b: nat :: b < |up| && b != i && Off(nodes[b]) && Under(up, b, i))
      && (inherited ==> exists a: nat :: a < |up| && Outermost(up, Offs(nodes), a, i) && a != i && disabledBy[nodes[i].parent.value] == nodes[a].id)
  {
    Inherits(nodes, up, disabledBy, i);
    ShadowedExactly(up, Offs(nodes), i);
  }

  /** The policies that declaration i adds. */
  function PoliciesAt(nodes: seq<PlanNode>, up: Shape, answers: seq<Resolution>, i: nat): seq<RealmPolicy>
    requires Topological(up) && |up| == |nodes| == |answers| && i < |nodes|
  {
    if Places(nodes, up, answers, i) then Policies(nodes[i].entry.entry.isolate) else []
  }

  /** Policies of the rows that the first n executed declarations place, in order. */
  function PlacedPolicies(nodes: seq<PlanNode>, up: Shape, answers: seq<Resolution>, order: seq<nat>): seq<RealmPolicy>
    requires Topological(up) && |up| == |nodes| == |answers| && forall k :: 0 <= k < |order| ==> order[k] < |nodes|
  {
    if order == [] then []
    else
      PlacedPolicies(nodes, up, answers, order[..|order| - 1]) + PoliciesAt(nodes, up, answers, order[|order| - 1])
  }

  function Policies(rows: seq<IsolateEntry>): seq<RealmPolicy> {
    seq(|rows|, i requires 0 <= i < |rows| => rows[i].policy)
  }

  /** The row of one declaration that is not pruned, up to its spawn; only a
      prepared Plugin selects realms. */
  method Attempt(node: PlanNode, answer: Resolution, realms: RealmEnvironment, next: Realm) returns (o: Outcome, next': Realm)
    requires realms.Valid(next) && (node.entry.Plugin? ==> ValidPlugin(node.entry.entry))
    modifies realms
    ensures realms.Valid(next') && o.id == node.id && !o.PrunedRow?
    ensures node.entry.Group? ==> o.GroupRow?
    ensures node.entry.Plugin? && Off(node) ==> o.DisabledRow?
    ensures node.entry.Plugin? && !Off(node) ==> AnswerOk(node, answer, o)
    ensures |realms.rows| >= |old(realms.rows)| && realms.rows[..|old(realms.rows)|] == old(realms.rows)
    ensures Placements(realms.rows[|old(realms.rows)|..]) ==
      if node.entry.Plugin? && !Off(node) && answer.Prepared? then Policies(node.entry.entry.isolate) else []
  {
    next' := next;
    match node.entry {
      case Group => o := GroupRow(node.id);
      case Plugin(entry) =>
        if entry.disabled {
          o := DisabledRow(node.id);
        } else {
          var key := ResolveKey(entry);
          match answer {
            case ResolverFails => o := FailedRow(node.id, key, Resolver);
            case Unknown => o := FailedRow(node.id, key, UnresolvedKey(key));
            case Prepared(spawns) =>
              ghost var was := realms.rows;
              var mapping;
              mapping, next' := realms.Place(next, entry.isolate);
              assert Placements(realms.rows[|was|..]) == Policies(entry.isolate);
              o := if spawns then SpawnedRow(node.id, key) else FailedRow(node.id, key, Spawn);
          }
        }
    }
  }

  function Placements(rows: seq<Placed>): seq<RealmPolicy> {
    seq(|rows|, i requires 0 <= i < |rows| => rows[i].policy)
  }

  lemma PlannedKeyed(nodes: seq<PlanNode>)
    requires Planned(nodes)
    ensures Keyed(nodes)
  {
    var lineage :| Complete(lineage, nodes);
    forall i | 0 <= i < |nodes| && nodes[i].entry.Plugin? ensures ValidPlugin(nodes[i].entry.entry) {
      assert NodeOk(lineage, nodes, i);
    }
  }

  /** What has been executed so far is recorded. */
  ghost predicate AllRecorded(nodes: seq<PlanNode>, up: Shape, disabledBy: map<EntryId, EntryId>, done: seq<nat>)
    requires Topological(up) && |up| == |nodes|
  {
    forall j: nat :: j < |nodes| ==>
      if j in done then Recorded(nodes, up, disabledBy, j) else nodes[j].id !in disabledBy
  }

  lemma RecordNext(nodes: seq<PlanNode>, up: Shape, old': map<EntryId, EntryId>, new': map<EntryId, EntryId>, done: seq<nat>, i: nat)
    requires Rooted(nodes) && up == ShapeOf(nodes) && i < |nodes| && i !in done
    requires AllRecorded(nodes, up, old', done) && (up[i].Some? ==> up[i].value in done)
    requires var inherited := nodes[i].parent.Some? && nodes[i].parent.value in old';
      new' == if inherited then old'[nodes[i].id := old'[nodes[i].parent.value]]
              else if Off(nodes[i]) then old'[nodes[i].id := nodes[i].id] else old'
    ensures AllRecorded(nodes, up, new', done + [i])
  {
    Inherits(nodes, up, old', i);
    forall j: nat | j < |nodes|
      ensures if j in done + [i] then Recorded(nodes, up, new', j) else nodes[j].id !in new'
    {
      assert j in done + [i] <==> j in done || j == i;
      assert j != i ==> nodes[j].id != nodes[i].id;
    }
  }

  lemma PlacementsSplit(rows: seq<Placed>, rows': seq<Placed>)
    requires |rows| <= |rows'| && rows'[..|rows|] == rows
    ensures Placements(rows') == Placements(rows) + Placements(rows'[|rows|..])
  {
    forall k | 0 <= k < |rows'| ensures Placements(rows')[k] == (Placements(rows) + Placements(rows'[|rows|..]))[k] {
      if k < |rows| { assert rows'[..|rows|][k] == rows[k]; } else { assert rows'[|rows|..][k - |rows|] == rows'[k]; }
    }
  }

  lemma PlacedNext(nodes: seq<PlanNode>, up: Shape, answers: seq<Resolution>, done: seq<nat>, i: nat, rows: seq<Placed>, rows': seq<Placed>)
    requires Topological(up) && |up| == |nodes| == |answers| && i < |nodes| && forall k :: 0 <= k < |done| ==> done[k] < |nodes|
    requires Placements(rows) == PlacedPolicies(nodes, up, answers, done)
    requires |rows| <= |rows'| && rows'[..|rows|] == rows
    requires Placements(rows'[|rows|..]) == PoliciesAt(nodes, up, answers, i)
    ensures forall k :: 0 <= k < |done + [i]| ==> (done + [i])[k] < |nodes|
    ensures Placements(rows') == PlacedPolicies(nodes, up, answers, done + [i])
  {
    PlacementsSplit(rows, rows');
    PoliciesSnoc(nodes, up, answers, done, i);
  }

  lemma PoliciesSnoc(nodes: seq<PlanNode>, up: Shape, answers: seq<Resolution>, done: seq<nat>, i: nat)
    requires Topological(up) && |up| == |nodes| == |answers| && i < |nodes| && forall k :: 0 <= k < |done| ==> done[k] < |nodes|
    ensures forall k :: 0 <= k < |done + [i]| ==> (done + [i])[k] < |nodes|
    ensures PlacedPolicies(nodes, up, answers, done + [i]) == PlacedPolicies(nodes, up, answers, done) + PoliciesAt(nodes, up, answers, i)
  {
    assert (done + [i])[..|done|] == done;
  }

  /** One row: inherit a disabled ancestor, or record being one, or attempt. */
  method ExecuteRow(nodes: seq<PlanNode>, ghost up: Shape, answers: seq<Resolution>, i: nat,
      disabledBy: map<EntryId, EntryId>, realms: RealmEnvironment, next: Realm)
    returns (o: Outcome, disabledBy': map<EntryId, EntryId>, next': Realm)
    requires Rooted(nodes) && Keyed(nodes) && up == ShapeOf(nodes) && |answers| == |nodes| && i < |nodes|
    requires up[i].Some? ==> Recorded(nodes, up, disabledBy, up[i].value)
    requires realms.Valid(next)
    modifies realms
    ensures realms.Valid(next') && OutcomeOk(nodes, up, answers, i, o)
    ensures var inherited := nodes[i].parent.Some? && nodes[i].parent.value in disabledBy;
      disabledBy' == if inherited then disabledBy[nodes[i].id := disabledBy[nodes[i].parent.value]]
                     else if Off(nodes[i]) then disabledBy[nodes[i].id := nodes[i].id] else disabledBy
    ensures |realms.rows| >= |old(realms.rows)| && realms.rows[..|old(realms.rows)|] == old(realms.rows)
    ensures Placements(realms.rows[|old(realms.rows)|..]) == PoliciesAt(nodes, up, answers, i)
  {
    InheritedExactly(nodes, up, disabledBy, i);
    Inherits(nodes, up, disabledBy, i);
    var node := nodes[i];
    disabledBy', next' := disabledBy, next;
    if node.parent.Some? && node.parent.value in disabledBy {
      var ancestor := disabledBy[node.parent.value];
      disabledBy' := disabledBy[node.id := ancestor];
      o := PrunedRow(node.id, ancestor);
    } else {
      if node.entry.Plugin? && node.entry.entry.disabled {
        disabledBy' := disabledBy[node.id := node.id];
      }
      o, next' := Attempt(node, answers[i], realms, next);
    }
  }

  /** Every index of the order is a declaration, occurs once, and follows its parent. */
  predicate ParentsFirst(up: Shape, order: seq<nat>) {
    && Distinct(order) && Within(up, 0, order)
    && forall k :: 0 <= k < |order| && up[order[k]].Some? ==> up[order[k]].value in order[..k]
  }

  lemma PreorderParentsFirst(up: Shape)
    requires Topological(up)
    ensures ParentsFirst(up, Preorder(up)) && |Preorder(up)| == |up|
  {
    PreorderPermutes(up);
    var order := Preorder(up);
    assert forall k :: 0 <= k < |order| ==> order[k] in order;
    forall k | 0 <= k < |order| && up[order[k]].Some? ensures up[order[k]].value in order[..k] {
      ParentEarlier(up, k, up[order[k]].value);
    }
  }

  lemma NextPrefix(order: seq<nat>, n: nat)
    requires n < |order| && Distinct(order)
    ensures order[..n + 1] == order[..n] + [order[n]] && order[n] !in order[..n]
  {}

  /** The first n rows of the order have been executed. */
  ghost predicate Progress(nodes: seq<PlanNode>, up: Shape, answers: seq<Resolution>, order: seq<nat>, n: nat,
      disabledBy: map<EntryId, EntryId>, outcomes: seq<Outcome>, rows: seq<Placed>)
  {
    && Rooted(nodes) && Keyed(nodes) && up == ShapeOf(nodes) && |answers| == |nodes| && ParentsFirst(up, order)
    && |outcomes| == n <= |order|
    && AllRecorded(nodes, up, disabledBy, order[..n])
    && (forall k :: 0 <= k < n ==> OutcomeOk(nodes, up, answers, order[k], outcomes[k]))
    && Placements(rows) == PlacedPolicies(nodes, up, answers, order[..n])
  }

  lemma ParentRecorded(nodes: seq<PlanNode>, up: Shape, answers: seq<Resolution>, order: seq<nat>, n: nat,
      disabledBy: map<EntryId, EntryId>, outcomes: seq<Outcome>, rows: seq<Placed>)
    requires Progress(nodes, up, answers, order, n, disabledBy, outcomes, rows) && n < |order|
    ensures order[n] < |nodes| && (up[order[n]].Some? ==> Recorded(nodes, up, disabledBy, up[order[n]].value))
  {}

  lemma OutcomesNext(nodes: seq<PlanNode>, up: Shape, answers: seq<Resolution>, order: seq<nat>, outcomes: seq<Outcome>, o: Outcome)
    requires Topological(up) && |up| == |nodes| == |answers| && Keyed(nodes) && Within(up, 0, order) && |outcomes| < |order|
    requires forall k :: 0 <= k < |outcomes| ==> OutcomeOk(nodes, up, answers, order[k], outcomes[k])
    requires OutcomeOk(nodes, up, answers, order[|outcomes|], o)
    ensures forall k :: 0 <= k < |outcomes + [o]| ==> OutcomeOk(nodes, up, answers, order[k], (outcomes + [o])[k])
  {}

  lemma ProgressStart(nodes: seq<PlanNode>, up: Shape, answers: seq<Resolution>, order: seq<nat>)
    requires Rooted(nodes) && Keyed(nodes) && up == ShapeOf(nodes) && |answers| == |nodes| && ParentsFirst(up, order)
    ensures Progress(nodes, up, answers, order, 0, map[], [], [])
  {}

  lemma ProgressEnd(nodes: seq<PlanNode>, up: Shape, answers: seq<Resolution>, order: seq<nat>,
      disabledBy: map<EntryId, EntryId>, outcomes: seq<Outcome>, rows: seq<Placed>)
    requires Progress(nodes, up, answers, order, |order|, disabledBy, outcomes, rows)
    ensures |outcomes| == |order| && forall k :: 0 <= k < |order| ==> OutcomeOk(nodes, up, answers, order[k], outcomes[k])
    ensures Placements(rows) == PlacedPolicies(nodes, up, answers, order)
  {
    assert order[..|order|] == order;
  }

  lemma ProgressNext(nodes: seq<PlanNode>, up: Shape, answers: seq<Resolution>, order: seq<nat>, n: nat,
      disabledBy: map<EntryId, EntryId>, outcomes: seq<Outcome>, rows: seq<Placed>,
      disabledBy': map<EntryId, EntryId>, o: Outcome, rows': seq<Placed>)
    requires Progress(nodes, up, answers, order, n, disabledBy, outcomes, rows) && n < |order|
    requires OutcomeOk(nodes, up, answers, order[n], o)
    requires var i := order[n];
      var inherited := nodes[i].parent.Some? && nodes[i].parent.value in disabledBy;
      disabledBy' == if inherited then disabledBy[nodes[i].id := disabledBy[nodes[i].parent.value]]
                     else if Off(nodes[i]) then disabledBy[nodes[i].id := nodes[i].id] else disabledBy
    requires |rows'| >= |rows| && rows'[..|rows|] == rows
    requires Placements(rows'[|rows|..]) == PoliciesAt(nodes, up, answers, order[n])
    ensures Progress(nodes, up, answers, order, n + 1, disabledBy', outcomes + [o], rows')
  {
    hide OutcomeOk;
    hide AllRecorded;
    hide PlacedPolicies;
    hide PoliciesAt;
    NextPrefix(order, n);
    OutcomesNext(nodes, up, answers, order, outcomes, o);
    RecordNext(nodes, up, disabledBy, disabledBy', order[..n], order[n]);
    PlacedNext(nodes, up, answers, order[..n], order[n], rows, rows');
  }

  method Execute(nodes: seq<PlanNode>, ghost up: Shape, answers: seq<Resolution>, order: seq<nat>, next: Realm)
    returns (outcomes: seq<Outcome>, ghost rows: seq<Placed>)
    requires Rooted(nodes) && Keyed(nodes) && up == ShapeOf(nodes) && |answers| == |nodes| && ParentsFirst(up, order)
    ensures |outcomes| == |order| && forall k :: 0 <= k < |order| ==> OutcomeOk(nodes, up, answers, order[k], outcomes[k])
    ensures Rendezvous(rows) && Placements(rows) == PlacedPolicies(nodes, up, answers, order)
  {
    hide Progress;
    hide OutcomeOk;
    hide Placements;
    hide PlacedPolicies;
    hide Recorded;
    hide ParentsFirst;
    var realms := new RealmEnvironment();
    var next' := next;
    var disabledBy: map<EntryId, EntryId> := map[];
    outcomes := [];
    var n := 0;
    ProgressStart(nodes, up, answers, order);
    while n < |order|
      invariant n <= |order| && realms.Valid(next') && fresh(realms)
      invariant Progress(nodes, up, answers, order, n, disabledBy, outcomes, realms.rows)
    {
      ghost var was, before := disabledBy, realms.rows;
      ParentRecorded(nodes, up, answers, order, n, disabledBy, outcomes, realms.rows);
      var o;
      o, disabledBy, next' := ExecuteRow(nodes, up, answers, order[n], disabledBy, realms, next');
      ProgressNext(nodes, up, answers, order, n, was, outcomes, before, disabledBy, o, realms.rows);
      outcomes := outcomes + [o];
      n := n + 1;
    }
    rows := realms.rows;
    ProgressEnd(nodes, up, answers, order, disabledBy, outcomes, rows);
  }

  /** One execution: one row for each declaration, in preorder, pruned exactly
      below disabled Plugins; the isolate rows of the declarations that got as far
      as placement rendezvous by label and by nothing else. */
  method Load(nodes: seq<PlanNode>, answers: seq<Resolution>, next: Realm) returns (outcomes: seq<Outcome>, ghost rows: seq<Placed>)
    requires Planned(nodes) && |answers| == |nodes|
    ensures Rooted(nodes) && Keyed(nodes) && |outcomes| == |Preorder(ShapeOf(nodes))| == |nodes|
    ensures ParentsFirst(ShapeOf(nodes), Preorder(ShapeOf(nodes)))
    ensures forall k :: 0 <= k < |outcomes| ==> OutcomeOk(nodes, ShapeOf(nodes), answers, Preorder(ShapeOf(nodes))[k], outcomes[k])
    ensures Rendezvous(rows) && Placements(rows) == PlacedPolicies(nodes, ShapeOf(nodes), answers, Preorder(ShapeOf(nodes)))
  {
    PlannedKeyed(nodes);
    var order := ExecutionOrder(nodes);
    PreorderParentsFirst(ShapeOf(nodes));
    outcomes, rows := Execute(nodes, ShapeOf(nodes), answers, order, next);
  }
}
