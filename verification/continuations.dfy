/** Continuation chains: the closure chain a waterfall folds from the back, the
    index recursion of update control, and what reaching the tail means. */
module Continuations {
  import opened Fibers

  type Id = nat

  datatype Failure = Failure(diagnostic: nat, registration: Option<Id>)

  datatype Result<+P> = Ok(value: P) | Err(failure: Failure)

  /** What an Around does with its single-use continuation. */
  datatype Choice<+P> = Call(input: P) | Keep(result: Result<P>)

  /** A callback may change the Runtime state S, in particular the listeners. */
  datatype Kind<!S, !P> =
    | Mapper(map': (S, P) -> (S, Result<P>))
    | Around(enter: (S, P) -> (S, Choice<P>), leave: (S, P, Result<P>) -> (S, Result<P>))

  datatype Hook<!S, !P> = Hook(id: Id, kind: Kind<S, P>)

  /** The end of a run, the claims it attempted in order, and how often the tail ran. */
  datatype Outcome<S, P> = Outcome(state: S, result: Result<P>, claims: seq<Id>, reached: nat)

  type Claimer<!S> = (S, Id) -> (S, bool)
  type Tail<!S, !P> = (S, P) -> (S, Result<P>)
  type Next<!S, !P> = (S, P) -> Outcome<S, P>

  /** InvocationFailure::correlate: the innermost hook keeps the blame. */
  function Correlate<P>(r: Result<P>, id: Id): Result<P> {
    if r.Err? && r.failure.registration.None? then Err(r.failure.(registration := Some(id))) else r
  }

  function Stopped<S, P>(s: S, r: Result<P>): Outcome<S, P> {
    Outcome(s, r, [], 0)
  }

  // ----- waterfall: closures folded from the back -----

  /** What one listener of the closure chain does, given everything behind it. */
  function Invoke<S, P>(hook: Hook<S, P>, next: Next<S, P>, s: S, p: P): Outcome<S, P> {
    match hook.kind
    case Mapper(map') =>
      var (s', r) := map'(s, p);
      (match r
       case Ok(mapped) => next(s', mapped)
       case Err(_) => Stopped(s', Correlate(r, hook.id)))
    case Around(enter, leave) =>
      var (s', choice) := enter(s, p);
      match choice
      case Keep(r) => Stopped(s', Correlate(r, hook.id))
      case Call(input) =>
        var inner := next(s', input);
        var (s'', r) := leave(inner.state, p, inner.result);
        inner.(state := s'', result := Correlate(r, hook.id))
  }

  function Link<S, P>(claim: Claimer<S>, hook: Hook<S, P>, next: Next<S, P>): Next<S, P> {
    (s: S, p: P) =>
      var (s', won) := claim(s, hook.id);
      var o := if won then Invoke(hook, next, s', p) else next(s', p);
      o.(claims := [hook.id] + o.claims)
  }

  function TailNext<S, P>(tail: Tail<S, P>): Next<S, P> {
    (s: S, p: P) => var (s', r) := tail(s, p); Outcome(s', r, [], 1)
  }

  // ----- the same by recursion on the hook index -----

  /** How far one listener takes a payload before what is behind it runs. */
  datatype Ahead<S, P> = On(state: S, payload: P, claimed: bool) | Stop(end: S, result: Result<P>)

  function Forward<S, P>(claim: Claimer<S>, hook: Hook<S, P>, s: S, p: P): Ahead<S, P> {
    var (s1, won) := claim(s, hook.id);
    if !won then On(s1, p, false)
    else match hook.kind
         case Mapper(map') => var (s2, r) := map'(s1, p); if r.Ok? then On(s2, r.value, true) else Stop(s2, r)
         case Around(enter, _) => var (s2, c) := enter(s1, p); if c.Call? then On(s2, c.input, true) else Stop(s2, c.result)
  }

  /** What an Around makes of the result that comes back to it. */
  function Back<S, P>(hook: Hook<S, P>, claimed: bool, p: P, inner: Outcome<S, P>): Outcome<S, P> {
    if claimed && hook.kind.Around? then
      var (s', r) := hook.kind.leave(inner.state, p, inner.result);
      inner.(state := s', result := Correlate(r, hook.id))
    else inner
  }

  function RunFrom<S, P>(claim: Claimer<S>, hooks: seq<Hook<S, P>>, i: nat, tail: Tail<S, P>, s: S, p: P): Outcome<S, P>
    requires i <= |hooks|
    decreases |hooks| - i
  {
    if i == |hooks| then
      var (s', r) := tail(s, p);
      Outcome(s', r, [], 1)
    else
      match Forward(claim, hooks[i], s, p)
      case Stop(s', r) => Outcome(s', Correlate(r, hooks[i].id), [hooks[i].id], 0)
      case On(s', p', claimed) =>
        var o := Back(hooks[i], claimed, p, RunFrom(claim, hooks, i + 1, tail, s', p'));
        o.(claims := [hooks[i].id] + o.claims)
  }

  lemma LinkAgrees<S(!new), P(!new)>(claim: Claimer<S>, hooks: seq<Hook<S, P>>, i: nat, tail: Tail<S, P>, next: Next<S, P>, s: S, p: P)
    requires i < |hooks| && forall s, p :: next(s, p) == RunFrom(claim, hooks, i + 1, tail, s, p)
    ensures Link(claim, hooks[i], next)(s, p) == RunFrom(claim, hooks, i, tail, s, p)
  {
    var hook := hooks[i];
    var (s1, won) := claim(s, hook.id);
    var o := RunFrom(claim, hooks, i, tail, s, p);
    var none: seq<Id> := [];
    assert [hook.id] + none == [hook.id];
    if won {
      assert Link(claim, hook, next)(s, p) == Invoke(hook, next, s1, p).(claims := [hook.id] + Invoke(hook, next, s1, p).claims);
      match hook.kind {
        case Mapper(map') =>
          var (s2, r) := map'(s1, p);
          assert Forward(claim, hook, s, p) == if r.Ok? then On(s2, r.value, true) else Stop(s2, r);
          assert Invoke(hook, next, s1, p) == if r.Ok? then next(s2, r.value) else Stopped(s2, Correlate(r, hook.id));
        case Around(enter, leave) =>
          var (s2, c) := enter(s1, p);
          assert Forward(claim, hook, s, p) == if c.Call? then On(s2, c.input, true) else Stop(s2, c.result);
          assert c.Keep? ==> Invoke(hook, next, s1, p) == Stopped(s2, Correlate(c.result, hook.id));
          assert c.Call? ==> Invoke(hook, next, s1, p) == Back(hook, true, p, next(s2, c.input));
      }
    }
  }

  /** The closure chain agrees with the index recursion on results, claims and
      their order, for every payload and state. */
  method BuildChain<S(!new), P(!new)>(claim: Claimer<S>, hooks: seq<Hook<S, P>>, tail: Tail<S, P>) returns (next: Next<S, P>)
    ensures forall s, p :: next(s, p) == RunFrom(claim, hooks, 0, tail, s, p)
  {
    next := TailNext(tail);
    var i: nat := |hooks|;
    while i > 0
      invariant i <= |hooks| && forall s, p :: next(s, p) == RunFrom(claim, hooks, i, tail, s, p)
    {
      i := i - 1;
      forall s, p ensures Link(claim, hooks[i], next)(s, p) == RunFrom(claim, hooks, i, tail, s, p) {
        LinkAgrees(claim, hooks, i, tail, next, s, p);
      }
      next := Link(claim, hooks[i], next);
    }
  }

  // ----- reaching the tail -----

  /** Every listener that could be claimed passed its payload on. */
  predicate PassesOn<S, P>(claim: Claimer<S>, hooks: seq<Hook<S, P>>, i: nat, s: S, p: P)
    requires i <= |hooks|
    decreases |hooks| - i
  {
    i == |hooks| ||
    var a := Forward(claim, hooks[i], s, p);
    a.On? && PassesOn(claim, hooks, i + 1, a.state, a.payload)
  }

  function Ids<S, P>(hooks: seq<Hook<S, P>>): (r: seq<Id>)
    ensures |r| == |hooks| && forall k :: 0 <= k < |hooks| ==> r[k] == hooks[k].id
  {
    seq(|hooks|, k requires 0 <= k < |hooks| => hooks[k].id)
  }

  /** The tail runs at most once, and exactly when everyone passed the payload
      on; the claims are attempted in snapshot order, each at most once. */
  lemma {:induction false} TailReached<S, P>(claim: Claimer<S>, hooks: seq<Hook<S, P>>, i: nat, tail: Tail<S, P>, s: S, p: P)
    requires i <= |hooks|
    ensures var o := RunFrom(claim, hooks, i, tail, s, p);
      && o.reached == (if PassesOn(claim, hooks, i, s, p) then 1 else 0)
      && |o.claims| <= |hooks| - i && o.claims == Ids(hooks)[i..i + |o.claims|]
      && (o.reached == 1 ==> |o.claims| == |hooks| - i)
    decreases |hooks| - i
  {
    if i < |hooks| {
      var a := Forward(claim, hooks[i], s, p);
      if a.On? {
        TailReached(claim, hooks, i + 1, tail, a.state, a.payload);
        var n := |RunFrom(claim, hooks, i + 1, tail, a.state, a.payload).claims|;
        assert [Ids(hooks)[i]] + Ids(hooks)[i + 1..i + 1 + n] == Ids(hooks)[i..i + 1 + n];
      }
    }
  }

  // ----- update control -----

  /** UpdateStore::run_chain: the tail hands the change back, and every level
      that invoked a hook correlates whatever failure comes out of it. */
  function RunChain<S, P>(claim: Claimer<S>, hooks: seq<Hook<S, P>>, i: nat, s: S, p: P): Outcome<S, P>
    requires i <= |hooks|
    decreases |hooks| - i
  {
    if i == |hooks| then Outcome(s, Ok(p), [], 1)
    else
      var (s1, won) := claim(s, hooks[i].id);
      var o :=
        if !won then RunChain(claim, hooks, i + 1, s1, p)
        else
          var raw :=
            match hooks[i].kind
            case Mapper(map') =>
              var (s2, r) := map'(s1, p);
              if r.Ok? then RunChain(claim, hooks, i + 1, s2, r.value) else Stopped(s2, r)
            case Around(enter, leave) =>
              var (s2, choice) := enter(s1, p);
              if choice.Keep? then Stopped(s2, choice.result)
              else
                var inner := RunChain(claim, hooks, i + 1, s2, choice.input);
                var (s3, r) := leave(inner.state, p, inner.result);
                inner.(state := s3, result := r);
          raw.(result := Correlate(raw.result, hooks[i].id));
      o.(claims := [hooks[i].id] + o.claims)
  }

  function GiveBack<S, P>(s: S, p: P): (S, Result<P>) {
    (s, Ok(p))
  }

  /** No failure leaves the chain without naming the hook it comes from. */
  lemma {:induction false} Blamed<S, P>(claim: Claimer<S>, hooks: seq<Hook<S, P>>, i: nat, s: S, p: P)
    requires i <= |hooks|
    ensures var r := RunChain(claim, hooks, i, s, p).result; r.Err? ==> r.failure.registration.Some?
    decreases |hooks| - i
  {
    if i < |hooks| {
      var a := Forward(claim, hooks[i], s, p);
      if a.On? { Blamed(claim, hooks, i + 1, a.state, a.payload); }
    }
  }

  /** One level of the chain, given that everything behind it agrees. */
  lemma LevelAgrees<S, P>(claim: Claimer<S>, hooks: seq<Hook<S, P>>, i: nat, tail: Tail<S, P>, s: S, p: P)
    requires i < |hooks|
    requires var a := Forward(claim, hooks[i], s, p);
      a.On? ==>
        var inner := RunChain(claim, hooks, i + 1, a.state, a.payload);
        inner == RunFrom(claim, hooks, i + 1, tail, a.state, a.payload) && (inner.result.Err? ==> inner.result.failure.registration.Some?)
    ensures RunChain(claim, hooks, i, s, p) == RunFrom(claim, hooks, i, tail, s, p)
  {
    var hook, a := hooks[i], Forward(claim, hooks[i], s, p);
    var (s1, won) := claim(s, hook.id);
    var none: seq<Id> := [];
    assert [hook.id] + none == [hook.id];
    if won {
      match hook.kind {
        case Mapper(map') =>
          var (s2, r) := map'(s1, p);
          assert a == if r.Ok? then On(s2, r.value, true) else Stop(s2, r);
          if r.Ok? {
            var inner := RunChain(claim, hooks, i + 1, s2, r.value);
            assert inner.(result := Correlate(inner.result, hook.id)) == inner;
            assert RunChain(claim, hooks, i, s, p) == inner.(claims := [hook.id] + inner.claims);
          } else {
            assert RunChain(claim, hooks, i, s, p) == Outcome(s2, Correlate(r, hook.id), [hook.id] + none, 0);
          }
        case Around(enter, leave) =>
          var (s2, c) := enter(s1, p);
          assert a == if c.Call? then On(s2, c.input, true) else Stop(s2, c.result);
          if c.Call? {
            var inner := RunChain(claim, hooks, i + 1, s2, c.input);
            var o := Back(hook, true, p, inner);
            assert RunChain(claim, hooks, i, s, p) == o.(claims := [hook.id] + o.claims);
          } else {
            assert RunChain(claim, hooks, i, s, p) == Outcome(s2, Correlate(c.result, hook.id), [hook.id] + none, 0);
          }
      }
    }
  }

  /** Update control runs the very chain a waterfall with a returning tail would. */
  lemma {:induction false} ChainAgrees<S, P>(claim: Claimer<S>, hooks: seq<Hook<S, P>>, i: nat, tail: Tail<S, P>, s: S, p: P)
    requires i <= |hooks| && tail == GiveBack
    ensures RunChain(claim, hooks, i, s, p) == RunFrom(claim, hooks, i, tail, s, p)
    decreases |hooks| - i
  {
    if i < |hooks| {
      var a := Forward(claim, hooks[i], s, p);
      if a.On? {
        ChainAgrees(claim, hooks, i + 1, tail, a.state, a.payload);
        Blamed(claim, hooks, i + 1, a.state, a.payload);
      }
      LevelAgrees(claim, hooks, i, tail, s, p);
    }
  }

  /** UpdateStore::control: a candidate only if the private tail was reached. */
  function Control<S, P>(claim: Claimer<S>, hooks: seq<Hook<S, P>>, s: S, p: P): Result<Option<P>> {
    var o := RunChain(claim, hooks, 0, s, p);
    match o.result
    case Err(failure) => Err(failure)
    case Ok(output) => Ok(if o.reached > 0 then Some(output) else None)
  }

  /** Control yields a candidate exactly when every policy passed the change on
      and none of them failed on the way back, and then it is what came out of the
      chain; a policy that answers by itself vetoes, whatever it answers; a
      failure is the chain's. */
  lemma ControlExactly<S, P>(claim: Claimer<S>, hooks: seq<Hook<S, P>>, s: S, p: P)
    ensures var r, out := Control(claim, hooks, s, p), RunChain(claim, hooks, 0, s, p).result;
      && (r.Ok? && r.value.Some? <==> PassesOn(claim, hooks, 0, s, p) && out.Ok?)
      && (r.Ok? && r.value.Some? ==> out == Ok(r.value.value))
      && (r.Ok? && r.value.None? <==> !PassesOn(claim, hooks, 0, s, p) && out.Ok?)
      && (r.Err? <==> out.Err?) && (r.Err? ==> out == Err(r.failure) && r.failure.registration.Some?)
  {
    ChainAgrees(claim, hooks, 0, GiveBack, s, p);
    TailReached(claim, hooks, 0, GiveBack, s, p);
    Blamed(claim, hooks, 0, s, p);
  }

  // ----- which candidate -----

  /** A run of Mappers: what each makes of the payload it gets, a hook that could
      not be claimed being passed over. None where an Around or a failure stands. */
  function Mapped<S, P>(claim: Claimer<S>, hooks: seq<Hook<S, P>>, s: S, p: P): Option<(S, P)> {
    if hooks == [] then Some((s, p))
    else
      var (s1, won) := claim(s, hooks[0].id);
      if !won then Mapped(claim, hooks[1..], s1, p)
      else if hooks[0].kind.Around? then None
      else
        var (s2, r) := hooks[0].kind.map'(s1, p);
        if r.Err? then None else Mapped(claim, hooks[1..], s2, r.value)
  }

  lemma {:induction false} MappersRun<S, P>(claim: Claimer<S>, hooks: seq<Hook<S, P>>, i: nat, s: S, p: P)
    requires i <= |hooks| && Mapped(claim, hooks[i..], s, p).Some?
    ensures var o, m := RunChain(claim, hooks, i, s, p), Mapped(claim, hooks[i..], s, p).value;
      o.state == m.0 && o.result == Ok(m.1) && o.reached == 1
    decreases |hooks| - i
  {
    if i < |hooks| {
      assert hooks[i..][0] == hooks[i] && hooks[i..][1..] == hooks[i + 1..];
      var (s1, won) := claim(s, hooks[i].id);
      if !won {
        MappersRun(claim, hooks, i + 1, s1, p);
      } else {
        var (s2, r) := hooks[i].kind.map'(s1, p);
        MappersRun(claim, hooks, i + 1, s2, r.value);
      }
    }
  }

  /** Mappers alone: the candidate is the change as the claimed Mappers rewrote it in turn. */
  lemma MappersYield<S, P>(claim: Claimer<S>, hooks: seq<Hook<S, P>>, s: S, p: P)
    requires Mapped(claim, hooks, s, p).Some?
    ensures Control(claim, hooks, s, p) == Ok(Some(Mapped(claim, hooks, s, p).value.1))
  {
    assert hooks[0..] == hooks;
    MappersRun(claim, hooks, 0, s, p);
  }

  /** An outermost claimed Around that goes on has the last word: its `leave` sees
      what the rest of the chain made of the payload it handed in, and the
      candidate, or the failure, is what it returns. */
  lemma AroundDecides<S, P>(claim: Claimer<S>, hook: Hook<S, P>, rest: seq<Hook<S, P>>, s: S, p: P)
    requires claim(s, hook.id).1 && hook.kind.Around? && hook.kind.enter(claim(s, hook.id).0, p).1.Call?
    ensures var (s', choice) := hook.kind.enter(claim(s, hook.id).0, p);
      var inner := RunChain(claim, rest, 0, s', choice.input);
      var r := hook.kind.leave(inner.state, p, inner.result).1;
      && (r.Err? && r.failure.registration.Some? ==> Control(claim, [hook] + rest, s, p) == Err(r.failure))
      && (r.Err? && r.failure.registration.None? ==> Control(claim, [hook] + rest, s, p) == Err(Failure(r.failure.diagnostic, Some(hook.id))))
      && (r.Ok? ==> Control(claim, [hook] + rest, s, p) == Ok(if inner.reached > 0 then Some(r.value) else None))
  {
    var (s', choice) := hook.kind.enter(claim(s, hook.id).0, p);
    RunShifted(claim, hook, rest, 0, s', choice.input);
  }

  /** Nothing in front of a chain changes what it does. */
  lemma {:induction false} RunShifted<S, P>(claim: Claimer<S>, hook: Hook<S, P>, rest: seq<Hook<S, P>>, i: nat, s: S, p: P)
    requires i <= |rest|
    ensures RunChain(claim, [hook] + rest, i + 1, s, p) == RunChain(claim, rest, i, s, p)
    decreases |rest| - i
  {
    if i < |rest| {
      assert ([hook] + rest)[i + 1] == rest[i];
      var (s1, won) := claim(s, rest[i].id);
      if !won {
        RunShifted(claim, hook, rest, i + 1, s1, p);
      } else {
        match rest[i].kind {
          case Mapper(map') =>
            var (s2, r) := map'(s1, p);
            if r.Ok? { RunShifted(claim, hook, rest, i + 1, s2, r.value); }
          case Around(enter, leave) =>
            var (s2, choice) := enter(s1, p);
            if choice.Call? { RunShifted(claim, hook, rest, i + 1, s2, choice.input); }
        }
      }
    }
  }

  // ----- who is blamed -----

  /** The chain stops at the claimed hook k with failure f, everyone before having passed on. */
  predicate FailsAt<S, P>(claim: Claimer<S>, hooks: seq<Hook<S, P>>, i: nat, k: nat, s: S, p: P, f: Failure)
    requires i <= k < |hooks|
    decreases k - i
  {
    var (s1, won) := claim(s, hooks[i].id);
    if i == k then
      won && match hooks[i].kind
             case Mapper(map') => map'(s1, p).1 == Err(f)
             case Around(enter, _) => enter(s1, p).1 == Keep(Err(f))
    else if !won then FailsAt(claim, hooks, i + 1, k, s1, p, f)
    else match hooks[i].kind
         case Mapper(map') => var (s2, r) := map'(s1, p); r.Ok? && FailsAt(claim, hooks, i + 1, k, s2, r.value, f)
         case Around(enter, _) => var (s2, c) := enter(s1, p); c.Call? && FailsAt(claim, hooks, i + 1, k, s2, c.input, f)
  }

  /** An Around that lets failures through. */
  ghost predicate LetsThrough<S(!new), P(!new)>(hook: Hook<S, P>) {
    hook.kind.Around? ==> forall s, p, f :: hook.kind.leave(s, p, Err(f)).1 == Err(f)
  }

  /** The innermost failing hook is blamed: however many Arounds its failure
      passes on its way out, it leaves the chain with the diagnostic it had and
      the name of the hook that made it, or the name it already carried. */
  lemma {:induction false} InnermostBlamed<S(!new), P(!new)>(claim: Claimer<S>, hooks: seq<Hook<S, P>>, i: nat, k: nat, s: S, p: P, f: Failure)
    requires i <= k < |hooks| && FailsAt(claim, hooks, i, k, s, p, f)
    requires forall j :: i <= j < k ==> LetsThrough(hooks[j])
    ensures RunChain(claim, hooks, i, s, p).result ==
      Err(Failure(f.diagnostic, if f.registration.Some? then f.registration else Some(hooks[k].id)))
    decreases k - i
  {
    if i < k {
      var (s1, won) := claim(s, hooks[i].id);
      assert LetsThrough(hooks[i]);
      if !won {
        InnermostBlamed(claim, hooks, i + 1, k, s1, p, f);
      } else {
        match hooks[i].kind {
          case Mapper(map') =>
            var (s2, r) := map'(s1, p);
            InnermostBlamed(claim, hooks, i + 1, k, s2, r.value, f);
          case Around(enter, leave) =>
            var (s2, c) := enter(s1, p);
            InnermostBlamed(claim, hooks, i + 1, k, s2, c.input, f);
        }
      }
    }
  }
}
