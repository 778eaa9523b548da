/** Plugin residency: allocations of Fibers under one Plugin key, bulk removal
    that detaches an allocation, and exact release. */
module Registries {
  import opened Fibers
  import opened Sequences

  type PluginKey = nat
  type Alloc = nat

  datatype Group = Group(key: PluginKey, fibers: seq<Fid>)

  datatype State = State(
    current: map<PluginKey, Alloc>,  // the mapped allocation of each key
    groups: map<Alloc, Group>,       // every allocation ever made, mapped or detached
    residents: seq<Fid>,
    claims: map<Fid, Alloc>)         // the residency claim each resident holds

  /** Each resident sits in exactly one allocation, its claim's; members are
      residents; mapped allocations are nonempty and carry their key. */
  ghost predicate Sound(s: State) {
    && Distinct(s.residents)
    && (forall f :: f in s.residents <==> f in s.claims)
    && (forall f :: f in s.claims ==> s.claims[f] in s.groups && f in s.groups[s.claims[f]].fibers)
    && (forall a, f :: a in s.groups && f in s.groups[a].fibers ==> f in s.claims && s.claims[f] == a)
    && (forall a :: a in s.groups ==> Distinct(s.groups[a].fibers))
    && (forall k :: k in s.current ==> s.current[k] in s.groups && s.groups[s.current[k]].key == k && s.groups[s.current[k]].fibers != [])
  }

  predicate Mapped(s: State, a: Alloc) {
    a in s.groups && s.groups[a].key in s.current && s.current[s.groups[a].key] == a
  }

  predicate Detached(s: State, a: Alloc) {
    a in s.groups && !Mapped(s, a)
  }

  // ----- the sections -----

  function Attached(s: State, key: PluginKey, f: Fid, fresh': Alloc): State {
    var a := if key in s.current then s.current[key] else fresh';
    var before := if a in s.groups then s.groups[a].fibers else [];
    State(s.current[key := a], s.groups[a := Group(key, before + [f])], s.residents + [f], s.claims[f := a])
  }

  function Unmapped(s: State, key: PluginKey): State {
    s.(current := s.current - {key})
  }

  function WithoutFirst(s: seq<Fid>, f: Fid): seq<Fid> {
    if s == [] then [] else if s[0] == f then s[1..] else [s[0]] + WithoutFirst(s[1..], f)
  }

  /** Release of the exact claim of f; an old claim leaves a replacement mapped. */
  function Released(s: State, f: Fid): State {
    if f !in s.claims || s.claims[f] !in s.groups then s
    else
      var a := s.claims[f];
      var left := WithoutFirst(s.groups[a].fibers, f);
      State(if Mapped(s, a) && left == [] then s.current - {s.groups[a].key} else s.current,
            s.groups[a := s.groups[a].(fibers := left)], WithoutFirst(s.residents, f), s.claims - {f})
  }

  lemma {:induction false} WithoutExact(s: seq<Fid>, f: Fid)
    requires Distinct(s)
    ensures Distinct(WithoutFirst(s, f)) && forall g :: g in WithoutFirst(s, f) <==> g in s && g != f
  {
    if s != [] {
      var rest := s[1..];
      assert s == [s[0]] + rest;
      forall i | 0 <= i < |rest| ensures rest[i] != s[0] { assert rest[i] == s[i + 1]; }
      forall i, k | 0 <= i < k < |rest| ensures rest[i] != rest[k] { assert rest[i] == s[i + 1] && rest[k] == s[k + 1]; }
      WithoutExact(rest, f);
      var left := WithoutFirst(rest, f);
      forall i | 0 <= i < |left| ensures left[i] != s[0] { assert left[i] in left; }
    }
  }

  lemma TwoDiffer(s: seq<Fid>)
    requires Distinct(s) && |s| >= 2
    ensures s[0] in s && s[1] in s && s[0] != s[1]
  {}

  lemma HasMember(s: seq<Fid>)
    requires s != []
    ensures s[0] in s
  {}

  /** Only the allocation that gains f changes, and f is new everywhere. */
  lemma AttachMembers(s: State, key: PluginKey, f: Fid, fresh': Alloc, a: Alloc)
    requires Sound(s) && f !in s.claims && fresh' !in s.groups && a in Attached(s, key, f, fresh').groups
    ensures var s' := Attached(s, key, f, fresh');
      && Distinct(s'.groups[a].fibers)
      && forall g :: g in s'.groups[a].fibers <==> (a in s.groups && g in s.groups[a].fibers) || (g == f && s'.claims[f] == a)
  {
    if a in s.groups { assert f !in s.groups[a].fibers; }
  }

  lemma AttachMaps(s: State, key: PluginKey, f: Fid, fresh': Alloc)
    requires Sound(s) && f !in s.claims && fresh' !in s.groups
    ensures var s' := Attached(s, key, f, fresh');
      && Distinct(s'.residents) && (forall g :: g in s'.residents <==> g in s'.claims)
      && (forall k :: k in s'.current ==> s'.current[k] in s'.groups && s'.groups[s'.current[k]].key == k && s'.groups[s'.current[k]].fibers != [])
  {
    assert f !in s.residents;
  }

  /** A Fiber joins the mapped allocation of its key, behind its members, and a
      new allocation is made and mapped only if there is none. */
  predicate Joins(s: State, s': State, key: PluginKey, f: Fid, fresh': Alloc) {
    && s'.residents == s.residents + [f] && key in s'.current && s'.claims == s.claims[f := s'.current[key]]
    && if key in s.current && s.current[key] in s.groups
       then s'.current == s.current && s'.groups == s.groups[s.current[key] := Group(key, s.groups[s.current[key]].fibers + [f])]
       else s'.current == s.current[key := fresh'] && s'.groups == s.groups[fresh' := Group(key, [f])]
  }

  lemma AttachJoins(s: State, key: PluginKey, f: Fid, fresh': Alloc)
    requires Sound(s) && fresh' !in s.groups
    ensures Joins(s, Attached(s, key, f, fresh'), key, f, fresh')
  {
    assert [] + [f] == [f];
  }

  lemma AttachSound(s: State, key: PluginKey, f: Fid, fresh': Alloc)
    requires Sound(s) && f !in s.claims && fresh' !in s.groups
    ensures var s' := Attached(s, key, f, fresh');
      Sound(s') && Mapped(s', s'.claims[f]) && s'.groups[s'.claims[f]].key == key
  {
    var s' := Attached(s, key, f, fresh');
    AttachMaps(s, key, f, fresh');
    forall a | a in s'.groups
      ensures Distinct(s'.groups[a].fibers) && forall g :: g in s'.groups[a].fibers ==> g in s'.claims && s'.claims[g] == a
    {
      AttachMembers(s, key, f, fresh', a);
    }
  }

  lemma DetachSound(s: State, key: PluginKey)
    requires Sound(s) && key in s.current
    ensures Sound(Unmapped(s, key)) && Detached(Unmapped(s, key), s.current[key])
  {}

  /** Only the allocation f claims loses a member, and only f. */
  lemma ReleaseMembers(s: State, f: Fid, a: Alloc)
    requires Sound(s) && f in s.claims && a in s.groups
    ensures a in Released(s, f).groups && Released(s, f).groups[a].key == s.groups[a].key
    ensures Distinct(Released(s, f).groups[a].fibers)
    ensures forall g :: g in Released(s, f).groups[a].fibers <==> g in s.groups[a].fibers && g != f
  {
    if a == s.claims[f] { WithoutExact(s.groups[a].fibers, f); } else { assert f !in s.groups[a].fibers; }
  }

  lemma ReleaseMaps(s: State, f: Fid)
    requires Sound(s) && f in s.claims
    ensures var s' := Released(s, f);
      && Distinct(s'.residents) && (forall g :: g in s'.residents <==> g in s'.claims)
      && (forall k :: k in s'.current ==> k in s.current && s'.current[k] == s.current[k] && s'.groups[s'.current[k]].fibers != [])
  {
    WithoutExact(s.residents, f);
  }

  lemma ReleaseSound(s: State, f: Fid)
    requires Sound(s)
    ensures Sound(Released(s, f)) && f !in Released(s, f).residents
  {
    if f in s.claims {
      var s' := Released(s, f);
      ReleaseMaps(s, f);
      forall a | a in s.groups
        ensures a in s'.groups && s'.groups[a].key == s.groups[a].key && Distinct(s'.groups[a].fibers)
        ensures forall g :: g in s'.groups[a].fibers <==> g in s.groups[a].fibers && g != f
      {
        ReleaseMembers(s, f, a);
      }
    }
  }

  /** Releasing the claim of one allocation never unmaps another allocation, in
      particular no replacement under the same key, and unmaps its own exactly
      when it took the last member. */
  lemma ReleaseIsExact(s: State, f: Fid, b: Alloc)
    requires Sound(s) && f in s.claims && Mapped(s, b)
    ensures Mapped(Released(s, f), b) <==> b != s.claims[f] || s.groups[b].fibers != [f]
    ensures b != s.claims[f] ==> Released(s, f).groups[b] == s.groups[b]
  {
    var a := s.claims[f];
    WithoutExact(s.groups[a].fibers, f);
    if b == a && WithoutFirst(s.groups[a].fibers, f) == [] {
      var fibers := s.groups[a].fibers;
      assert forall g :: g in fibers ==> g == f;
      if |fibers| >= 2 { TwoDiffer(fibers); }
    }
  }

  // ----- any run -----

  datatype Op = Attach(key: PluginKey, f: Fid, fresh': Alloc) | Detach(key: PluginKey) | Release(f: Fid)

  predicate Enabled(s: State, op: Op) {
    match op
    case Attach(_, f, a) => f !in s.claims && a !in s.groups
    case Detach(key) => key in s.current
    case Release(_) => true
  }

  function Do(s: State, op: Op): State {
    match op
    case Attach(key, f, a) => Attached(s, key, f, a)
    case Detach(key) => Unmapped(s, key)
    case Release(f) => Released(s, f)
  }

  lemma StepSound(s: State, op: Op)
    requires Sound(s) && Enabled(s, op)
    ensures Sound(Do(s, op))
  {
    match op {
      case Attach(key, f, a) => AttachSound(s, key, f, a);
      case Detach(key) => DetachSound(s, key);
      case Release(f) => ReleaseSound(s, f);
    }
  }

  /** A detached allocation never gains a member and is never mapped again. */
  lemma DetachedShrinks(s: State, op: Op, a: Alloc)
    requires Sound(s) && Enabled(s, op) && Detached(s, a)
    ensures Detached(Do(s, op), a) && Do(s, op).groups[a].key == s.groups[a].key
    ensures forall f :: f in Do(s, op).groups[a].fibers <==> f in s.groups[a].fibers && op != Release(f)
  {
    if op.Release? && op.f in s.claims {
      WithoutExact(s.groups[s.claims[op.f]].fibers, op.f);
    }
  }

  ghost predicate IsRun(ss: seq<State>, ops: seq<Op>) {
    && |ss| == |ops| + 1
    && forall i :: 0 <= i < |ops| ==> Enabled(ss[i], ops[i]) && ss[i + 1] == Do(ss[i], ops[i])
  }

  lemma OneMore(ops: seq<Op>, i: nat, k: nat)
    requires i < k <= |ops|
    ensures forall op :: op in ops[i..k] <==> op in ops[i..k - 1] || op == ops[k - 1]
  {
    assert ops[i..k] == ops[i..k - 1] + [ops[k - 1]];
  }

  /** The f that was attached under the key sits in the key's mapped allocation. */
  predicate Sits(s: State, key: PluginKey, f: Fid) {
    key in s.current && s.current[key] in s.groups && f in s.groups[s.current[key]].fibers
  }

  /** A step seats exactly the Fiber it attaches under the key, and unseats
      exactly the one it releases, or all of them when it detaches the key. */
  lemma StepSits(s: State, op: Op, key: PluginKey, f: Fid)
    requires Sound(s) && Enabled(s, op)
    ensures Sits(Do(s, op), key, f) <==>
      || (op.Attach? && op.key == key && op.f == f)
      || (Sits(s, key, f) && op != Detach(key) && op != Release(f))
  {
    match op {
      case Attach(k, g, a) =>
        AttachMembers(s, k, g, a, Attached(s, k, g, a).claims[g]);
        assert Sits(s, key, f) ==> s.current[key] in Do(s, op).groups;
      case Detach(_) =>
      case Release(g) => if g in s.claims { ReleaseSits(s, g, key, f); }
    }
  }

  lemma ReleaseSits(s: State, g: Fid, key: PluginKey, f: Fid)
    requires Sound(s) && g in s.claims
    ensures Sits(Released(s, g), key, f) <==> Sits(s, key, f) && f != g
  {
    ReleaseMaps(s, g);
    if key in s.current {
      var b := s.current[key];
      ReleaseMembers(s, g, b);
      if Sits(s, key, f) && f != g {
        assert f in Released(s, g).groups[b].fibers;
        ReleaseIsExact(s, g, b);
        assert Mapped(s, b);
      }
    }
  }

  /** Operation i attached f under the key, and up to k nothing undid it. */
  predicate SeatedBy(ops: seq<Op>, i: nat, k: nat, key: PluginKey, f: Fid)
    requires i < k <= |ops|
  {
    ops[i].Attach? && ops[i].key == key && ops[i].f == f && Detach(key) !in ops[i + 1..k] && Release(f) !in ops[i + 1..k]
  }

  lemma SeatedNext(ops: seq<Op>, i: nat, k: nat, key: PluginKey, f: Fid)
    requires i + 1 < k <= |ops|
    ensures SeatedBy(ops, i, k, key, f) <==> SeatedBy(ops, i, k - 1, key, f) && ops[k - 1] != Detach(key) && ops[k - 1] != Release(f)
  {
    OneMore(ops, i + 1, k);
  }

  ghost predicate Seated(ops: seq<Op>, k: nat, key: PluginKey, f: Fid)
    requires k <= |ops|
  {
    exists i: nat :: i < k && SeatedBy(ops, i, k, key, f)
  }

  lemma SeatedStep(ops: seq<Op>, k: nat, key: PluginKey, f: Fid)
    requires 0 < k <= |ops|
    ensures Seated(ops, k, key, f) <==>
      || (ops[k - 1].Attach? && ops[k - 1].key == key && ops[k - 1].f == f)
      || (Seated(ops, k - 1, key, f) && ops[k - 1] != Detach(key) && ops[k - 1] != Release(f))
  {
    if Seated(ops, k, key, f) {
      var i: nat :| i < k && SeatedBy(ops, i, k, key, f);
      if i < k - 1 { SeatedNext(ops, i, k, key, f); }
    }
    if Seated(ops, k - 1, key, f) {
      var i: nat :| i < k - 1 && SeatedBy(ops, i, k - 1, key, f);
      SeatedNext(ops, i, k, key, f);
    }
    if ops[k - 1].Attach? && ops[k - 1].key == key && ops[k - 1].f == f { assert SeatedBy(ops, k - 1, k, key, f); }
  }

  /** The members of a key's mapped allocation, which a removal would freeze, are
      exactly the Fibers attached under the key since its last detach that have
      not been released. */
  lemma {:induction false} MembersExactly(ss: seq<State>, ops: seq<Op>, k: nat, key: PluginKey, f: Fid)
    requires IsRun(ss, ops) && ss[0] == State(map[], map[], [], map[]) && k < |ss|
    ensures Sits(ss[k], key, f) <==> Seated(ops, k, key, f)
  {
    hide Seated;
    hide Sits;
    hide Do;
    if k == 0 {
      NobodySeated(ss[0], ops, key, f);
    } else {
      MembersExactly(ss, ops, k - 1, key, f);
      RunSound(ss, ops, k - 1);
      StepSits(ss[k - 1], ops[k - 1], key, f);
      SeatedStep(ops, k, key, f);
    }
  }

  lemma NobodySeated(s: State, ops: seq<Op>, key: PluginKey, f: Fid)
    requires s == State(map[], map[], [], map[])
    ensures !Sits(s, key, f) && !Seated(ops, 0, key, f)
  {}

  /** Once every member frozen at the detach has been released, whatever else
      happened meanwhile, the detached allocation is empty. */
  lemma {:induction false} RemovalEmpties(ss: seq<State>, ops: seq<Op>, a: Alloc, i: nat, k: nat)
    requires IsRun(ss, ops) && Sound(ss[0]) && i <= k < |ss| && Detached(ss[i], a)
    ensures Sound(ss[k]) && Detached(ss[k], a)
    ensures forall f :: f in ss[k].groups[a].fibers <==> f in ss[i].groups[a].fibers && Release(f) !in ops[i..k]
    decreases k
  {
    RunSound(ss, ops, k);
    if k > i {
      RemovalEmpties(ss, ops, a, i, k - 1);
      var s, op := ss[k - 1], ops[k - 1];
      DetachedShrinks(s, op, a);
      OneMore(ops, i, k);
    }
  }

  lemma {:induction false} RunSound(ss: seq<State>, ops: seq<Op>, i: nat)
    requires IsRun(ss, ops) && Sound(ss[0]) && i < |ss|
    ensures Sound(ss[i])
  {
    if i > 0 {
      RunSound(ss, ops, i - 1);
      StepSound(ss[i - 1], ops[i - 1]);
    }
  }

  // ----- the registry as the Runtime keeps it -----

  class Registry {
    var current: map<PluginKey, Alloc>
    var groups: map<Alloc, Group>
    var residents: seq<Fid>
    var claims: map<Fid, Alloc>
    var next: Alloc // allocations are fresh objects

    function Contents(): State
      reads this
    {
      State(current, groups, residents, claims)
    }

    ghost predicate Valid()
      reads this
    {
      Sound(Contents()) && forall a :: a in groups ==> a < next
    }

    constructor ()
      ensures Valid() && Contents() == State(map[], map[], [], map[])
    {
      current, groups, residents, claims, next := map[], map[], [], map[], 0;
    }

    method AttachFiber(key: PluginKey, f: Fid)
      requires Valid() && f !in claims // a Fiber has only one residency occurrence
      modifies this
      ensures Valid() && Contents() == Attached(old(Contents()), key, f, old(next))
      ensures Joins(old(Contents()), Contents(), key, f, old(next))
    {
      AttachSound(Contents(), key, f, next);
      AttachJoins(Contents(), key, f, next);
      assert key in current ==> current[key] in groups;
      hide Sound;
      hide Mapped;
      hide Joins;
      AttachInto(key, f);
    }

    method AttachInto(key: PluginKey, f: Fid)
      requires next !in groups && (key in current ==> current[key] in groups)
      modifies this
      ensures Contents() == Attached(old(Contents()), key, f, old(next))
      ensures next == if key in old(current) then old(next) else old(next) + 1
    {
      var mapped := key in current;
      var a := if mapped then current[key] else next;
      var members := if mapped then groups[a].fibers else [];
      current := current[key := a];
      groups := groups[a := Group(key, members + [f])];
      residents := residents + [f];
      claims := claims[f := a];
      next := if mapped then next else next + 1;
    }

    /** The completion set is frozen in the section that unmaps the allocation;
        a recursive removal is refused before anything changes. */
    method DetachForRemoval(key: PluginKey, recursive: bool) returns (r: Option<(Alloc, seq<Fid>)>, refused: bool)
      requires Valid()
      modifies this`current
      ensures Valid() && (refused <==> key in old(current) && recursive) && (r.Some? <==> key in old(current) && !recursive)
      ensures r.Some? ==> r.value.0 == old(current)[key] && r.value.1 == groups[r.value.0].fibers && Detached(Contents(), r.value.0)
      ensures Contents() == if r.Some? then Unmapped(old(Contents()), key) else old(Contents())
    {
      r, refused := None, false;
      if key !in current {
        return;
      }
      if recursive {
        refused := true;
        return;
      }
      DetachSound(Contents(), key);
      var a := current[key];
      r := Some((a, groups[a].fibers));
      current := current - {key};
    }

    method ReleaseClaim(f: Fid)
      requires Valid()
      modifies this
      ensures Valid() && Contents() == Released(old(Contents()), f) && next == old(next)
    {
      ReleaseSound(Contents(), f);
      if f !in claims {
        return;
      }
      var a := claims[f];
      claims := claims - {f};
      var isCurrent := groups[a].key in current && current[groups[a].key] == a;
      var left := TakeFiber(groups[a].fibers, f);
      groups := groups[a := groups[a].(fibers := left)];
      if isCurrent && left == [] {
        current := current - {groups[a].key};
      }
      residents := TakeFiber(residents, f);
      assert Contents() == Released(old(Contents()), f);
    }

    /** DetachedGroup::dispose_all: disposal of a member ends with its release. */
    method DisposeAll(a: Alloc, frozen: seq<Fid>)
      requires Valid() && Detached(Contents(), a) && forall f :: f in groups[a].fibers ==> f in frozen
      modifies this
      ensures Valid() && Detached(Contents(), a) && groups[a].fibers == []
      ensures (forall f :: f in frozen && f in old(claims) ==> old(claims)[f] == a) ==>
        forall b :: Mapped(old(Contents()), b) ==> Mapped(Contents(), b) && groups[b] == old(groups)[b]
    {
      var n := 0;
      ghost var had := claims;
      ghost var own := forall f :: f in frozen && f in had ==> had[f] == a;
      while n < |frozen|
        invariant n <= |frozen| && Valid() && Detached(Contents(), a)
        invariant forall f :: f in groups[a].fibers ==> f in frozen[n..]
        invariant forall f :: f in claims ==> f in had && claims[f] == had[f]
        invariant own ==> forall b :: Mapped(old(Contents()), b) ==> Mapped(Contents(), b) && groups[b] == old(groups)[b]
      {
        ghost var before := Contents();
        var f := frozen[n];
        DetachedShrinks(before, Release(f), a);
        ReleaseClaim(f);
        assert frozen[n..] == [f] + frozen[n + 1..];
        if own {
          forall b | Mapped(old(Contents()), b) ensures Mapped(Contents(), b) && groups[b] == old(groups)[b] {
            if f in before.claims { assert f in frozen; ReleaseIsExact(before, f, b); }
          }
        }
        n := n + 1;
      }
      assert frozen[n..] == [];
      if groups[a].fibers != [] { HasMember(groups[a].fibers); }
    }
  }

  /** Remove the first occurrence, searching by position. */
  method TakeFiber(s: seq<Fid>, f: Fid) returns (left: seq<Fid>)
    ensures left == WithoutFirst(s, f)
  {
    var i := 0;
    assert s[0..] == s;
    while i < |s| && s[i] != f
      invariant i <= |s| && WithoutFirst(s, f) == s[..i] + WithoutFirst(s[i..], f)
    {
      assert s[i..][1..] == s[i + 1..];
      assert s[..i] + ([s[i]] + WithoutFirst(s[i + 1..], f)) == s[..i + 1] + WithoutFirst(s[i + 1..], f);
      i := i + 1;
    }
    if i == |s| {
      assert s[..i] + [] == s;
      return s;
    }
    assert s[i..][1..] == s[i + 1..];
    left := s[..i] + s[i + 1..];
  }
}
