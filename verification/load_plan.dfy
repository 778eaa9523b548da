/** The Loader's plan: validated admission, execution order, pruning and realm
    placement. */
module LoadPlans {
  import opened Fibers
  import opened PlanOrder

  datatype EntryId = EntryId(lineage: nat, occurrence: nat)

  datatype RealmPolicy = Private | Shared(text: string)

  datatype IsolateEntry = IsolateEntry(service: string, policy: RealmPolicy)

  datatype PluginEntry = PluginEntry(key: Option<string>, name: Option<string>, disabled: bool, inject: seq<string>, isolate: seq<IsolateEntry>)

  datatype PlanEntry = Plugin(entry: PluginEntry) | Group

  datatype PlanNode = PlanNode(id: EntryId, parent: Option<EntryId>, entry: PlanEntry)

  datatype PlanError =
    | ForeignParent(parent: EntryId)
    | MissingResolveIdentity(entry: EntryId)
    | DuplicateInjectService(entry: EntryId, service: string)
    | DuplicateIsolateService(entry: EntryId, service: string)

  datatype Result<+T> = Ok(value: T) | Err(error: PlanError)

  // ----- one declaration -----

  predicate Repeats(services: seq<string>, i: nat) {
    i < |services| && services[i] in services[..i]
  }

  predicate Unique(services: seq<string>) {
    forall i: nat :: i < |services| ==> !Repeats(services, i)
  }

  /** services[i] is the first row that names a Service again. */
  predicate FirstRepeat(services: seq<string>, i: nat) {
    Repeats(services, i) && forall k: nat :: k < i ==> !Repeats(services, k)
  }

  function Services(rows: seq<IsolateEntry>): (r: seq<string>)
    ensures |r| == |rows| && forall i :: 0 <= i < |rows| ==> r[i] == rows[i].service
  {
    seq(|rows|, i requires 0 <= i < |rows| => rows[i].service)
  }

  predicate Named(entry: PluginEntry) {
    entry.key.Some? || entry.name.Some?
  }

  predicate ValidPlugin(entry: PluginEntry) {
    Named(entry) && Unique(entry.inject) && Unique(Services(entry.isolate))
  }

  /** What is wrong with a declaration, the first fault in source order. */
  ghost predicate PluginFault(id: EntryId, entry: PluginEntry, e: PlanError) {
    if !Named(entry) then e == MissingResolveIdentity(id)
    else if !Unique(entry.inject) then exists i: nat :: FirstRepeat(entry.inject, i) && e == DuplicateInjectService(id, entry.inject[i])
    else !ValidPlugin(entry) && exists i: nat :: FirstRepeat(Services(entry.isolate), i) && e == DuplicateIsolateService(id, entry.isolate[i].service)
  }

  method FindRepeat(services: seq<string>) returns (r: Option<nat>)
    ensures r.None? <==> Unique(services)
    ensures r.Some? ==> FirstRepeat(services, r.value)
  {
    var seen := {};
    var i := 0;
    while i < |services|
      invariant i <= |services| && seen == (set s | s in services[..i])
      invariant forall k: nat :: k < i ==> !Repeats(services, k)
    {
      if services[i] in seen {
        assert Repeats(services, i);
        return Some(i);
      }
      seen := seen + {services[i]};
      assert services[..i + 1] == services[..i] + [services[i]];
      i := i + 1;
    }
    r := None;
  }

  method ValidatePlugin(id: EntryId, entry: PluginEntry) returns (r: Option<PlanError>)
    ensures r.None? <==> ValidPlugin(entry)
    ensures r.Some? ==> PluginFault(id, entry, r.value)
  {
    if entry.key.None? && entry.name.None? {
      return Some(MissingResolveIdentity(id));
    }
    var inject := FindRepeat(entry.inject);
    if inject.Some? {
      return Some(DuplicateInjectService(id, entry.inject[inject.value]));
    }
    var isolate := FindRepeat(Services(entry.isolate));
    if isolate.Some? {
      return Some(DuplicateIsolateService(id, entry.isolate[isolate.value].service));
    }
    r := None;
  }

  // ----- the whole lineage -----

  predicate Admitted(nodes: seq<PlanNode>, n: nat, id: EntryId)
    requires n <= |nodes|
  {
    exists k :: 0 <= k < n && nodes[k].id == id
  }

  predicate ParentOk(lineage: nat, nodes: seq<PlanNode>, n: nat, parent: Option<EntryId>)
    requires n <= |nodes|
  {
    parent.Some? ==> parent.value.lineage == lineage && Admitted(nodes, n, parent.value)
  }

  predicate NodeOk(lineage: nat, nodes: seq<PlanNode>, n: nat)
    requires n < |nodes|
  {
    ParentOk(lineage, nodes, n, nodes[n].parent) && (nodes[n].entry.Plugin? ==> ValidPlugin(nodes[n].entry.entry))
  }

  predicate Complete(lineage: nat, nodes: seq<PlanNode>) {
    forall n :: 0 <= n < |nodes| ==> NodeOk(lineage, nodes, n)
  }

  ghost predicate NodeFault(lineage: nat, nodes: seq<PlanNode>, n: nat, e: PlanError)
    requires n < |nodes|
  {
    if !ParentOk(lineage, nodes, n, nodes[n].parent) then e == ForeignParent(nodes[n].parent.value)
    else nodes[n].entry.Plugin? && PluginFault(nodes[n].id, nodes[n].entry.entry, e)
  }

  /** Validation accepts exactly the complete lineages and reports the first fault. */
  method ValidateComplete(lineage: nat, nodes: seq<PlanNode>) returns (r: Option<PlanError>)
    ensures r.None? <==> Complete(lineage, nodes)
    ensures r.Some? ==> exists n :: 0 <= n < |nodes| && NodeFault(lineage, nodes, n, r.value) && forall k :: 0 <= k < n ==> NodeOk(lineage, nodes, k)
  {
    var capable := {};
    var n := 0;
    while n < |nodes|
      invariant n <= |nodes| && capable == (set k | 0 <= k < n :: nodes[k].id)
      invariant forall k :: 0 <= k < n ==> NodeOk(lineage, nodes, k)
    {
      if nodes[n].parent.Some? && (nodes[n].parent.value.lineage != lineage || nodes[n].parent.value !in capable) {
        r := Some(ForeignParent(nodes[n].parent.value));
        assert !NodeOk(lineage, nodes, n);
        assert NodeFault(lineage, nodes, n, r.value);
        return;
      }
      if nodes[n].entry.Plugin? {
        r := ValidatePlugin(nodes[n].id, nodes[n].entry.entry);
        if r.Some? {
          assert !NodeOk(lineage, nodes, n) && !Complete(lineage, nodes);
          assert NodeFault(lineage, nodes, n, r.value);
          return;
        }
      }
      capable := capable + {nodes[n].id};
      n := n + 1;
    }
    r := None;
  }

  predicate Distinguished(nodes: seq<PlanNode>) {
    forall i, k :: 0 <= i < k < |nodes| ==> nodes[i].id != nodes[k].id
  }

  /** A frozen plan. */
  ghost predicate Planned(nodes: seq<PlanNode>) {
    Distinguished(nodes) && exists lineage :: Complete(lineage, nodes)
  }

  class LoadPlanBuilder {
    const lineage: nat
    var nodes: seq<PlanNode>
    var next: nat // every occurrence handed out so far is smaller

    ghost predicate Valid()
      reads this
    {
      && Complete(lineage, nodes) && Distinguished(nodes)
      && forall i :: 0 <= i < |nodes| ==> nodes[i].id.lineage == lineage && nodes[i].id.occurrence < next
    }

    constructor (lineage: nat)
      ensures Valid() && nodes == [] && this.lineage == lineage
    {
      this.lineage := lineage;
      nodes := [];
      next := 0;
    }

    method FreshId() returns (id: EntryId)
      requires Valid()
      modifies this`next
      ensures Valid() && id.lineage == lineage && id.occurrence == old(next) && next == old(next) + 1
    {
      id := EntryId(lineage, next);
      next := next + 1;
    }

    method ValidateParent(parent: Option<EntryId>) returns (ok: bool)
      ensures ok <==> ParentOk(lineage, nodes, |nodes|, parent)
    {
      if parent.None? {
        return true;
      }
      var found := false;
      var i := 0;
      while i < |nodes|
        invariant i <= |nodes| && (found <==> Admitted(nodes, i, parent.value))
      {
        found := found || nodes[i].id == parent.value;
        i := i + 1;
      }
      ok := parent.value.lineage == lineage && found;
    }

    method Admit(id: EntryId, parent: Option<EntryId>, entry: PlanEntry)
      requires Valid() && id.lineage == lineage && id.occurrence < next && ParentOk(lineage, nodes, |nodes|, parent)
      requires forall i :: 0 <= i < |nodes| ==> nodes[i].id != id
      requires entry.Plugin? ==> ValidPlugin(entry.entry)
      modifies this`nodes
      ensures Valid() && nodes == old(nodes) + [PlanNode(id, parent, entry)]
    {
      ghost var was := nodes;
      nodes := nodes + [PlanNode(id, parent, entry)];
      forall n | 0 <= n < |nodes| ensures NodeOk(lineage, nodes, n) {
        var p := nodes[n].parent;
        if n < |was| {
          assert NodeOk(lineage, was, n);
          if p.Some? { var k :| 0 <= k < n && was[k].id == p.value; assert nodes[k].id == p.value; }
        } else if p.Some? {
          var k :| 0 <= k < n && was[k].id == p.value;
          assert nodes[k].id == p.value;
        }
      }
    }

    /** Admits the declaration under a fresh identity, or changes nothing. */
    method AddPlugin(parent: Option<EntryId>, entry: PluginEntry) returns (r: Result<EntryId>)
      requires Valid()
      modifies this
      ensures Valid()
      ensures r.Ok? <==> ParentOk(lineage, old(nodes), |old(nodes)|, parent) && ValidPlugin(entry)
      ensures r.Ok? ==> nodes == old(nodes) + [PlanNode(r.value, parent, Plugin(entry))] && r.value.occurrence >= old(next)
      ensures r.Err? ==> nodes == old(nodes)
      ensures r.Err? ==> if !ParentOk(lineage, old(nodes), |old(nodes)|, parent) then r.error == ForeignParent(parent.value)
                         else PluginFault(EntryId(lineage, old(next)), entry, r.error)
    {
      var ok := ValidateParent(parent);
      if !ok {
        return Err(ForeignParent(parent.value));
      }
      var id := FreshId();
      var fault := ValidatePlugin(id, entry);
      if fault.Some? {
        return Err(fault.value);
      }
      Admit(id, parent, Plugin(entry));
      r := Ok(id);
    }

    method AddGroup(parent: Option<EntryId>) returns (r: Result<EntryId>)
      requires Valid()
      modifies this
      ensures Valid()
      ensures r.Ok? <==> ParentOk(lineage, old(nodes), |old(nodes)|, parent)
      ensures r.Ok? ==> nodes == old(nodes) + [PlanNode(r.value, parent, Group)] && r.value.occurrence >= old(next)
      ensures r.Err? ==> nodes == old(nodes) && r.error == ForeignParent(parent.value)
    {
      var ok := ValidateParent(parent);
      if !ok {
        return Err(ForeignParent(parent.value));
      }
      var id := FreshId();
      Admit(id, parent, Group);
      r := Ok(id);
    }

    /** Freezing a plan this builder made never fails. */
    method Finish() returns (r: Result<seq<PlanNode>>)
      requires Valid()
      ensures r == Ok(nodes) && Planned(nodes)
    {
      var fault := ValidateComplete(lineage, nodes);
      match fault {
        case None => r := Ok(nodes);
        case Some(error) => r := Err(error);
      }
    }
  }

  // ----- execution order -----

  /** The index of an admitted identity. */
  function IndexOf(nodes: seq<PlanNode>, n: nat, id: EntryId): (k: nat)
    requires n <= |nodes| && Admitted(nodes, n, id)
    ensures k < n && nodes[k].id == id
  {
    if nodes[n - 1].id == id then n - 1 else IndexOf(nodes, n - 1, id)
  }

  ghost predicate Rooted(nodes: seq<PlanNode>) {
    Distinguished(nodes) && forall n :: 0 <= n < |nodes| && nodes[n].parent.Some? ==> Admitted(nodes, n, nodes[n].parent.value)
  }

  lemma PlannedRooted(nodes: seq<PlanNode>)
    requires Planned(nodes)
    ensures Rooted(nodes)
  {
    var lineage :| Complete(lineage, nodes);
    forall n | 0 <= n < |nodes| && nodes[n].parent.Some? ensures Admitted(nodes, n, nodes[n].parent.value) {
      assert NodeOk(lineage, nodes, n);
    }
  }

  ghost function ShapeOf(nodes: seq<PlanNode>): (up: Shape)
    requires Rooted(nodes)
    ensures |up| == |nodes| && Topological(up)
    ensures forall i, k :: 0 <= i < |nodes| && 0 <= k < |nodes| ==> (up[k] == Some(i) <==> nodes[k].parent == Some(nodes[i].id))
    ensures forall k :: 0 <= k < |nodes| ==> (up[k] == None <==> nodes[k].parent == None)
  {
    seq(|nodes|, n requires 0 <= n < |nodes| =>
      if nodes[n].parent.None? then None else Some(IndexOf(nodes, n, nodes[n].parent.value)))
  }

  function Children(nodes: seq<PlanNode>, parent: Option<EntryId>, n: nat): seq<nat>
    requires n <= |nodes|
  {
    if n == 0 then [] else Children(nodes, parent, n - 1) + if nodes[n - 1].parent == parent then [n - 1] else []
  }

  lemma {:induction false} ChildrenAreKids(nodes: seq<PlanNode>, up: Shape, parent: Option<EntryId>, at: Option<nat>, n: nat)
    requires |up| == |nodes| && n <= |nodes|
    requires forall k :: 0 <= k < |nodes| ==> (up[k] == at <==> nodes[k].parent == parent)
    ensures Children(nodes, parent, n) == Kids(up, at, n)
  {
    if n > 0 { ChildrenAreKids(nodes, up, parent, at, n - 1); }
  }

  /** children holds exactly the nonempty child lists among the first n nodes. */
  ghost predicate Indexes(nodes: seq<PlanNode>, children: map<EntryId, seq<nat>>, n: nat)
    requires n <= |nodes|
  {
    forall p: EntryId ::
      && (p in children ==> children[p] == Children(nodes, Some(p), n))
      && (p !in children ==> Children(nodes, Some(p), n) == [])
  }

  method ChildIndex(nodes: seq<PlanNode>) returns (roots: seq<nat>, children: map<EntryId, seq<nat>>)
    ensures roots == Children(nodes, None, |nodes|) && Indexes(nodes, children, |nodes|)
  {
    roots, children := [], map[];
    var n := 0;
    while n < |nodes|
      invariant n <= |nodes| && roots == Children(nodes, None, n) && Indexes(nodes, children, n)
    {
      if nodes[n].parent.Some? {
        var p := nodes[n].parent.value;
        var row := if p in children then children[p] else [];
        children := children[p := row + [n]];
      } else {
        roots := roots + [n];
      }
      n := n + 1;
    }
  }

  function Reversed(s: seq<nat>): (r: seq<nat>)
    ensures |r| == |s| && forall i :: 0 <= i < |s| ==> r[i] == s[|s| - 1 - i]
  {
    seq(|s|, i requires 0 <= i < |s| => s[|s| - 1 - i])
  }

  lemma TopOfStack(stack: seq<nat>, init: seq<nat>, top: nat)
    requires stack != [] && init == stack[..|stack| - 1] && top == stack[|stack| - 1]
    ensures stack == init + [top] && Reversed(stack)[0] == top
  {}

  lemma Reversals(init: seq<nat>, i: nat, kids: seq<nat>)
    ensures Reversed(init + [i]) == [i] + Reversed(init)
    ensures Reversed(init + Reversed(kids)) == kids + Reversed(init)
  {}

  /** Replacing the next node by its children leaves the rest of the preorder to do. */
  lemma NextNode(up: Shape, i: nat, kids: seq<nat>, rest: seq<nat>)
    requires Topological(up) && i < |up| && kids == Kids(up, Some(i), |up|) && Within(up, 0, rest)
    ensures Within(up, 0, kids + rest)
    ensures Forest(up, 0, [i] + rest) == [i] + Forest(up, 0, kids + rest)
  {
    ForestConcat(up, 0, kids, rest);
    ForestFrom(up, 0, i + 1, kids);
    ForestCons(up, 0, i, rest);
    Regroup([i], Forest(up, 0, kids), Forest(up, 0, rest));
  }

  /** What is still to be visited: the stack from its top down. */
  ghost predicate Remaining(up: Shape, order: seq<nat>, stack: seq<nat>) {
    && Topological(up) && Within(up, 0, Reversed(stack))
    && order + Forest(up, 0, Reversed(stack)) == Preorder(up)
  }

  lemma StackStep(up: Shape, order: seq<nat>, init: seq<nat>, i: nat, kids: seq<nat>)
    requires Remaining(up, order, init + [i]) && i < |up| && kids == Kids(up, Some(i), |up|)
    ensures Remaining(up, order + [i], init + Reversed(kids))
    ensures |Forest(up, 0, Reversed(init + Reversed(kids)))| < |Forest(up, 0, Reversed(init + [i]))|
  {
    var rest := Reversed(init);
    Reversals(init, i, kids);
    assert forall k :: 0 <= k < |rest| ==> rest[k] == ([i] + rest)[k + 1];
    NextNode(up, i, kids, rest);
    assert order + ([i] + Forest(up, 0, kids + rest)) == order + [i] + Forest(up, 0, kids + rest);
  }

  lemma ReversedTwice(s: seq<nat>)
    ensures Reversed(Reversed(s)) == s
  {}

  lemma StackStart(up: Shape, roots: seq<nat>)
    requires Topological(up) && roots == Kids(up, None, |up|)
    ensures Remaining(up, [], Reversed(roots))
  {
    ReversedTwice(roots);
    assert Within(up, 0, roots);
    Prefixed([], Forest(up, 0, roots));
  }

  lemma StackEnd(up: Shape, order: seq<nat>)
    requires Remaining(up, order, [])
    ensures order == Preorder(up)
  {
    assert order + [] == order;
  }

  function Row(nodes: seq<PlanNode>, children: map<EntryId, seq<nat>>, i: nat): seq<nat>
    requires i < |nodes|
  {
    if nodes[i].id in children then children[nodes[i].id] else []
  }

  /** The stack loop, over any child index that agrees with the shape. */
  method Visit(nodes: seq<PlanNode>, roots: seq<nat>, children: map<EntryId, seq<nat>>, ghost up: Shape) returns (order: seq<nat>)
    requires Topological(up) && |up| == |nodes| && roots == Kids(up, None, |up|)
    requires forall i: nat :: i < |nodes| ==> Row(nodes, children, i) == Kids(up, Some(i), |up|)
    ensures order == Preorder(up)
  {
    order := [];
    var stack := Reversed(roots);
    StackStart(up, roots);
    while stack != []
      invariant Remaining(up, order, stack)
      decreases |Forest(up, 0, Reversed(stack))|
    {
      var init, index := stack[..|stack| - 1], stack[|stack| - 1];
      TopOfStack(stack, init, index);
      var kids := Row(nodes, children, index);
      StackStep(up, order, init, index, kids);
      order := order + [index];
      stack := init + Reversed(kids);
    }
    StackEnd(up, order);
  }

  /** The explicit stack visits the nodes in recursive preorder. */
  method ExecutionOrder(nodes: seq<PlanNode>) returns (order: seq<nat>)
    requires Planned(nodes)
    ensures Rooted(nodes) && order == Preorder(ShapeOf(nodes))
  {
    PlannedRooted(nodes);
    ghost var up := ShapeOf(nodes);
    var roots, children := ChildIndex(nodes);
    ChildrenAreKids(nodes, up, None, None, |nodes|);
    forall i: nat | i < |nodes| ensures Row(nodes, children, i) == Kids(up, Some(i), |up|) {
      ChildrenAreKids(nodes, up, Some(nodes[i].id), Some(i), |nodes|);
    }
    order := Visit(nodes, roots, children, up);
  }
}
