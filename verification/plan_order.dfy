/** Depth-first order of a forest given by parent indices. */
module PlanOrder {
  import opened Fibers
  import opened Sequences

  /** For each declaration the index of its parent, None for a root. */
  type Shape = seq<Option<nat>>

  /** Parents are admitted before their children. */
  predicate Topological(up: Shape) {
    forall j :: 0 <= j < |up| && up[j].Some? ==> up[j].value < j
  }

  /** The declarations below n with this parent, in declaration order. */
  function Kids(up: Shape, parent: Option<nat>, n: nat): (r: seq<nat>)
    requires n <= |up|
    ensures forall k: nat :: k in r <==> k < n && up[k] == parent
    ensures forall i :: 0 <= i < |r| ==> r[i] < n && up[r[i]] == parent
  {
    if n == 0 then [] else Kids(up, parent, n - 1) + if up[n - 1] == parent then [n - 1] else []
  }

  lemma AscendingSnoc(s: seq<nat>, k: nat)
    requires Ascending(s) && forall i :: 0 <= i < |s| ==> s[i] < k
    ensures Ascending(s + [k])
  {}

  lemma {:induction false} KidsAscend(up: Shape, parent: Option<nat>, n: nat)
    requires n <= |up|
    ensures Ascending(Kids(up, parent, n))
  {
    if n > 0 {
      KidsAscend(up, parent, n - 1);
      var rest := Kids(up, parent, n - 1);
      if up[n - 1] == parent { AscendingSnoc(rest, n - 1); } else { assert Kids(up, parent, n) == rest; }
    }
  }

  predicate Within(up: Shape, lo: nat, s: seq<nat>) {
    forall i :: 0 <= i < |s| ==> lo <= s[i] < |up|
  }

  /** Recursive preorder: a node, then the subtrees of its children in turn. */
  function Subtree(up: Shape, i: nat): seq<nat>
    requires Topological(up) && i < |up|
    decreases |up| - i, 0, 0
  {
    [i] + Forest(up, i + 1, Kids(up, Some(i), |up|))
  }

  function Forest(up: Shape, lo: nat, kids: seq<nat>): seq<nat>
    requires Topological(up) && lo <= |up| && Within(up, lo, kids)
    decreases |up| - lo, 1, |kids|
  {
    if kids == [] then []
    else
      Subtree(up, kids[0]) + Forest(up, lo, kids[1..])
  }

  function Preorder(up: Shape): seq<nat>
    requires Topological(up)
  {
    Forest(up, 0, Kids(up, None, |up|))
  }

  lemma {:induction false} ForestFrom(up: Shape, a: nat, b: nat, kids: seq<nat>)
    requires Topological(up) && a <= b <= |up| && Within(up, b, kids)
    ensures Forest(up, a, kids) == Forest(up, b, kids)
    decreases |kids|
  {
    if kids != [] { ForestFrom(up, a, b, kids[1..]); }
  }

  lemma ForestCons(up: Shape, lo: nat, k: nat, rest: seq<nat>)
    requires Topological(up) && lo <= k < |up| && Within(up, lo, rest)
    ensures Within(up, lo, [k] + rest)
    ensures Forest(up, lo, [k] + rest) == Subtree(up, k) + Forest(up, lo, rest)
  {
    assert ([k] + rest)[1..] == rest;
  }

  lemma {:induction false} ForestConcat(up: Shape, lo: nat, a: seq<nat>, b: seq<nat>)
    requires Topological(up) && lo <= |up| && Within(up, lo, a) && Within(up, lo, b)
    ensures Within(up, lo, a + b)
    ensures Forest(up, lo, a + b) == Forest(up, lo, a) + Forest(up, lo, b)
    decreases |a|
  {
    if a == [] {
      assert a + b == b;
      Prefixed([], Forest(up, lo, b));
    } else {
      var k, rest := a[0], a[1..];
      ForestConcat(up, lo, rest, b);
      assert a == [k] + rest && a + b == [k] + (rest + b);
      ForestCons(up, lo, k, rest);
      ForestCons(up, lo, k, rest + b);
      Regroup(Subtree(up, k), Forest(up, lo, rest), Forest(up, lo, b));
    }
  }

  lemma Prefixed(none: seq<nat>, s: seq<nat>)
    requires none == []
    ensures none + s == s
  {}

  lemma Regroup(a: seq<nat>, b: seq<nat>, c: seq<nat>)
    ensures a + (b + c) == (a + b) + c
  {}

  // ----- ancestry -----

  /** j is i or lies below it. */
  predicate Under(up: Shape, i: nat, j: nat)
    requires Topological(up) && j < |up|
    decreases j
  {
    j == i || (up[j].Some? && Under(up, i, up[j].value))
  }

  lemma {:induction false} UnderOrder(up: Shape, i: nat, j: nat)
    requires Topological(up) && j < |up| && Under(up, i, j)
    ensures i <= j
    decreases j
  {
    if j != i { UnderOrder(up, i, up[j].value); }
  }

  /** Whatever lies strictly below i lies under one of its children. */
  lemma {:induction false} UnderKid(up: Shape, i: nat, j: nat) returns (k: nat)
    requires Topological(up) && j < |up| && Under(up, i, j) && j != i
    ensures k < |up| && up[k] == Some(i) && Under(up, k, j)
    decreases j
  {
    if up[j].value == i { k := j; } else { k := UnderKid(up, i, up[j].value); }
  }

  lemma {:induction false} KidUnder(up: Shape, i: nat, k: nat, j: nat)
    requires Topological(up) && j < |up| && k < |up| && up[k] == Some(i) && Under(up, k, j)
    ensures Under(up, i, j)
    decreases j
  {
    if j != k { KidUnder(up, i, k, up[j].value); }
  }

  lemma {:induction false} RootOf(up: Shape, j: nat) returns (k: nat)
    requires Topological(up) && j < |up|
    ensures k < |up| && up[k] == None && Under(up, k, j)
    decreases j
  {
    if up[j].None? { k := j; } else { k := RootOf(up, up[j].value); }
  }

  /** Two ancestors of one node are ancestors of each other. */
  lemma {:induction false} UnderLinear(up: Shape, a: nat, b: nat, j: nat)
    requires Topological(up) && j < |up| && a < |up| && b < |up| && Under(up, a, j) && Under(up, b, j)
    ensures Under(up, a, b) || Under(up, b, a)
    decreases j
  {
    if j != a && j != b { UnderLinear(up, a, b, up[j].value); }
  }

  /** Siblings have disjoint subtrees. */
  lemma SiblingsApart(up: Shape, a: nat, b: nat, j: nat)
    requires Topological(up) && j < |up| && a < |up| && b < |up| && up[a] == up[b] && Under(up, a, j) && Under(up, b, j)
    ensures a == b
  {
    UnderLinear(up, a, b, j);
    if a != b {
      if Under(up, a, b) { UnderOrder(up, a, up[b].value); } else { UnderOrder(up, b, up[a].value); }
    }
  }

  // ----- permutation -----

  lemma {:induction false} SubtreeMembers(up: Shape, i: nat, j: nat)
    requires Topological(up) && i < |up| && j < |up|
    ensures j in Subtree(up, i) <==> Under(up, i, j)
    decreases |up| - i, 0, 0
  {
    var kids := Kids(up, Some(i), |up|);
    ForestMembers(up, i + 1, kids, j);
    if j in Forest(up, i + 1, kids) {
      var k :| k in kids && Under(up, k, j);
      KidUnder(up, i, k, j);
    }
    if Under(up, i, j) && j != i {
      var k := UnderKid(up, i, j);
      assert k in kids;
    }
  }

  lemma {:induction false} ForestMembers(up: Shape, lo: nat, kids: seq<nat>, j: nat)
    requires Topological(up) && lo <= |up| && Within(up, lo, kids) && j < |up|
    ensures j in Forest(up, lo, kids) <==> exists k :: k in kids && Under(up, k, j)
    decreases |up| - lo, 1, |kids|
  {
    if kids != [] {
      assert kids[0] in kids;
      SubtreeMembers(up, kids[0], j);
      ForestMembers(up, lo, kids[1..], j);
      assert forall k :: k in kids <==> k == kids[0] || k in kids[1..];
    }
  }

  lemma DistinctConcat(a: seq<nat>, b: seq<nat>)
    requires Distinct(a) && Distinct(b) && forall x :: x in a ==> x !in b
    ensures Distinct(a + b)
  {
    forall i, k | 0 <= i < k < |a + b| ensures (a + b)[i] != (a + b)[k] {
      if i < |a| <= k { assert a[i] in a && b[k - |a|] in b; }
    }
  }

  lemma {:induction false} SubtreeWithin(up: Shape, i: nat)
    requires Topological(up) && i < |up|
    ensures Within(up, i, Subtree(up, i))
    decreases |up| - i, 0, 0
  {
    ForestWithin(up, i + 1, Kids(up, Some(i), |up|));
  }

  lemma {:induction false} ForestWithin(up: Shape, lo: nat, kids: seq<nat>)
    requires Topological(up) && lo <= |up| && Within(up, lo, kids)
    ensures Within(up, lo, Forest(up, lo, kids))
    decreases |up| - lo, 1, |kids|
  {
    if kids != [] {
      assert kids[0] in kids;
      SubtreeWithin(up, kids[0]);
      ForestWithin(up, lo, kids[1..]);
    }
  }

  lemma {:induction false} SubtreeDistinct(up: Shape, i: nat)
    requires Topological(up) && i < |up|
    ensures Distinct(Subtree(up, i))
    decreases |up| - i, 0, 0
  {
    var kids := Kids(up, Some(i), |up|);
    KidsAscend(up, Some(i), |up|);
    ForestDistinct(up, i + 1, kids, Some(i));
    ForestWithin(up, i + 1, kids);
    DistinctConcat([i], Forest(up, i + 1, kids));
  }

  lemma {:induction false} ForestDistinct(up: Shape, lo: nat, kids: seq<nat>, parent: Option<nat>)
    requires Topological(up) && lo <= |up| && Within(up, lo, kids) && Ascending(kids)
    requires forall i :: 0 <= i < |kids| ==> up[kids[i]] == parent
    ensures Distinct(Forest(up, lo, kids))
    decreases |up| - lo, 1, |kids|
  {
    if kids != [] {
      var first, rest := kids[0], kids[1..];
      assert first in kids;
      SubtreeDistinct(up, first);
      ForestDistinct(up, lo, rest, parent);
      SubtreeWithin(up, first);
      assert forall i :: 0 <= i < |rest| ==> rest[i] == kids[i + 1];
      forall x | x in Subtree(up, first) ensures x !in Forest(up, lo, rest) {
        SubtreeMembers(up, first, x);
        ForestMembers(up, lo, rest, x);
        forall k | k in rest ensures !Under(up, k, x) {
          if Under(up, k, x) { SiblingsApart(up, first, k, x); }
        }
      }
      DistinctConcat(Subtree(up, first), Forest(up, lo, rest));
    }
  }

  /** Preorder is a permutation of the declarations: each occurs, and only once. */
  lemma PreorderPermutes(up: Shape)
    requires Topological(up)
    ensures Distinct(Preorder(up)) && forall j :: j in Preorder(up) <==> 0 <= j < |up|
    ensures |Preorder(up)| == |up|
  {
    var roots := Kids(up, None, |up|);
    KidsAscend(up, None, |up|);
    ForestDistinct(up, 0, roots, None);
    ForestWithin(up, 0, roots);
    forall j: nat | j < |up| ensures j in Preorder(up) {
      var k := RootOf(up, j);
      assert k in roots;
      ForestMembers(up, 0, roots, j);
    }
    SameSize(Preorder(up), |up|);
  }

  lemma {:induction false} SameSize(s: seq<nat>, n: nat)
    requires Distinct(s) && forall j :: j in s <==> 0 <= j < n
    ensures |s| == n
    decreases n
  {
    if n == 0 {
      assert forall i :: 0 <= i < |s| ==> s[i] in s;
    } else {
      assert n - 1 in s;
      var p: nat :| p < |s| && s[p] == n - 1;
      var rest := s[..p] + s[p + 1..];
      forall i, k | 0 <= i < k < |rest| ensures rest[i] != rest[k] {
        var i', k' := if i < p then i else i + 1, if k < p then k else k + 1;
        assert rest[i] == s[i'] && rest[k] == s[k'];
      }
      forall j ensures j in rest <==> 0 <= j < n - 1 {
        if j in rest {
          var q: nat :| q < |rest| && rest[q] == j;
          var q' := if q < p then q else q + 1;
          assert rest[q] == s[q'] && s[q'] in s && s[q'] != s[p];
        }
        if 0 <= j < n - 1 {
          assert j in s;
          var q: nat :| q < |s| && s[q] == j;
          assert rest[if q < p then q else q - 1] == j;
        }
      }
      SameSize(rest, n - 1);
    }
  }

  // ----- parents first, siblings in order -----

  /** mid is a contiguous stretch of whole. */
  predicate Splits(whole: seq<nat>, x: seq<nat>, mid: seq<nat>, y: seq<nat>) {
    whole == x + mid + y
  }

  lemma SplitsNest(whole: seq<nat>, x: seq<nat>, mid: seq<nat>, y: seq<nat>, x': seq<nat>, inner: seq<nat>, y': seq<nat>)
    requires Splits(whole, x, mid, y) && Splits(mid, x', inner, y')
    ensures Splits(whole, x + x', inner, y' + y)
  {
    assert x + (x' + inner + y') + y == (x + x') + inner + (y' + y);
  }

  lemma ForestHas(up: Shape, lo: nat, kids: seq<nat>, n: nat) returns (x: seq<nat>, y: seq<nat>)
    requires Topological(up) && lo <= |up| && Within(up, lo, kids) && n < |kids|
    ensures y == Forest(up, lo, kids[n + 1..])
    ensures Splits(Forest(up, lo, kids), x, Subtree(up, kids[n]), y)
  {
    var tail := kids[n..];
    assert kids == kids[..n] + tail;
    ForestConcat(up, lo, kids[..n], tail);
    assert tail[1..] == kids[n + 1..];
    x, y := Forest(up, lo, kids[..n]), Forest(up, lo, kids[n + 1..]);
    assert Forest(up, lo, tail) == Subtree(up, kids[n]) + y;
  }

  /** The children of a node are a contiguous stretch of its subtree. */
  lemma SubtreeSplits(up: Shape, p: nat, whole: seq<nat>, x: seq<nat>, y: seq<nat>)
    requires Topological(up) && p < |up| && Splits(whole, x, Subtree(up, p), y)
    ensures Splits(whole, x + [p], Forest(up, p + 1, Kids(up, Some(p), |up|)), y)
  {
    HeadAndTail(whole, x, Subtree(up, p), y, p, Forest(up, p + 1, Kids(up, Some(p), |up|)));
  }

  lemma Whole(s: seq<nat>)
    ensures Splits(s, [], s, [])
  {}

  lemma HeadAndTail(whole: seq<nat>, x: seq<nat>, mid: seq<nat>, y: seq<nat>, p: nat, tail: seq<nat>)
    requires Splits(whole, x, mid, y) && mid == [p] + tail
    ensures Splits(whole, x + [p], tail, y)
  {
    assert x + ([p] + tail) + y == (x + [p]) + tail + y;
  }

  /** A tree is a contiguous stretch of the forest it stands in. */
  lemma TreeSplits(up: Shape, lo: nat, kids: seq<nat>, i: nat, whole: seq<nat>, x: seq<nat>, y: seq<nat>) returns (x': seq<nat>, y': seq<nat>)
    requires Topological(up) && lo <= |up| && Within(up, lo, kids) && i in kids
    requires Splits(whole, x, Forest(up, lo, kids), y)
    ensures Splits(whole, x', Subtree(up, i), y')
  {
    var n: nat :| n < |kids| && kids[n] == i;
    var x1, y1 := ForestHas(up, lo, kids, n);
    SplitsNest(whole, x, Forest(up, lo, kids), y, x1, Subtree(up, kids[n]), y1);
    x', y' := x + x1, y1 + y;
  }

  /** Every family of siblings is laid out in one contiguous stretch, and so is every subtree. */
  lemma {:induction false} FamilyContiguous(up: Shape, i: nat, whole: seq<nat>) returns (lo: nat, x: seq<nat>, y: seq<nat>)
    requires Topological(up) && i < |up| && whole == Preorder(up)
    ensures lo <= |up| && Within(up, lo, Kids(up, up[i], |up|))
    ensures Splits(whole, x, Forest(up, lo, Kids(up, up[i], |up|)), y)
    decreases i, 0
  {
    if up[i].None? {
      lo, x, y := 0, [], [];
      Whole(whole);
    } else {
      x, y := SubtreeContiguous(up, up[i].value, whole);
      SubtreeSplits(up, up[i].value, whole, x, y);
      lo, x := up[i].value + 1, x + [up[i].value];
    }
  }

  lemma {:induction false} SubtreeContiguous(up: Shape, i: nat, whole: seq<nat>) returns (x: seq<nat>, y: seq<nat>)
    requires Topological(up) && i < |up| && whole == Preorder(up)
    ensures Splits(whole, x, Subtree(up, i), y)
    decreases i, 1
  {
    var lo, x0, y0 := FamilyContiguous(up, i, whole);
    x, y := TreeSplits(up, lo, Kids(up, up[i], |up|), i, whole, x0, y0);
  }

  /** A parent stands before everything below it. */
  lemma ParentFirst(up: Shape, i: nat, j: nat) returns (p: nat, q: nat)
    requires Topological(up) && i < |up| && j < |up| && Under(up, i, j) && i != j
    ensures p < q < |Preorder(up)| && Preorder(up)[p] == i && Preorder(up)[q] == j
  {
    var x, y := SubtreeContiguous(up, i, Preorder(up));
    SubtreeMembers(up, i, j);
    var n: nat :| n < |Subtree(up, i)| && Subtree(up, i)[n] == j;
    p, q := |x|, |x| + n;
  }

  lemma FourParts(whole: seq<nat>, x: seq<nat>, a: seq<nat>, rest: seq<nat>, y: seq<nat>, b: seq<nat>, z: seq<nat>)
    requires Splits(whole, x, a, rest) && Splits(rest, y, b, z)
    ensures Splits(whole, x, a + y + b, z)
  {
    assert x + a + (y + b + z) == x + (a + y + b) + z;
  }

  /** Two trees of one forest, the earlier first. */
  lemma TwoInForest(up: Shape, lo: nat, kids: seq<nat>, m: nat, n: nat) returns (x: seq<nat>, y: seq<nat>, z: seq<nat>)
    requires Topological(up) && lo <= |up| && Within(up, lo, kids) && m < n < |kids|
    ensures Splits(Forest(up, lo, kids), x, Subtree(up, kids[m]) + y + Subtree(up, kids[n]), z)
  {
    hide Forest;
    hide Subtree;
    hide Splits;
    hide Topological;
    var tail;
    x, tail := ForestHas(up, lo, kids, m);
    var rest, k := kids[m + 1..], n - m - 1;
    Shifted(up, lo, kids, m, n);
    y, z := ForestHas(up, lo, rest, k);
    var b := rest[k];
    FourParts(Forest(up, lo, kids), x, Subtree(up, kids[m]), Forest(up, lo, rest), y, Subtree(up, b), z);
  }

  lemma Shifted(up: Shape, lo: nat, kids: seq<nat>, m: nat, n: nat)
    requires Within(up, lo, kids) && m < n < |kids|
    ensures Within(up, lo, kids[m + 1..]) && kids[m + 1..][n - m - 1] == kids[n]
  {}

  lemma Positions(kids: seq<nat>, a: nat, b: nat) returns (m: nat, n: nat)
    requires Ascending(kids) && a in kids && b in kids && a < b
    ensures m < n < |kids| && kids[m] == a && kids[n] == b
  {
    m :| m < |kids| && kids[m] == a;
    n :| n < |kids| && kids[n] == b;
  }

  /** Of two siblings the one declared first has its whole subtree first. */
  lemma SiblingsInOrder(up: Shape, a: nat, b: nat) returns (x: seq<nat>, y: seq<nat>, z: seq<nat>)
    requires Topological(up) && a < b < |up| && up[a] == up[b]
    ensures Splits(Preorder(up), x, Subtree(up, a) + y + Subtree(up, b), z)
  {
    var kids := Kids(up, up[a], |up|);
    KidsAscend(up, up[a], |up|);
    var m, n := Positions(kids, a, b);
    var lo, x0, z0 := FamilyContiguous(up, a, Preorder(up));
    var x1, z1;
    x1, y, z1 := TwoInForest(up, lo, kids, m, n);
    SplitsNest(Preorder(up), x0, Forest(up, lo, kids), z0, x1, Subtree(up, a) + y + Subtree(up, b), z1);
    x, z := x0 + x1, z1 + z0;
  }
}
