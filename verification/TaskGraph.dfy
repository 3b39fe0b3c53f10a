/**
 * The dependency-graph analyses of the team service: reachability by a worklist,
 * the pairwise file-conflict check, and the level of a task.
 */
module TaskGraph {
  import opened Prelude

  /** The k of a task id `task-k`. Ids are only ever compared for equality. */
  type Id = nat

  type File = string

  /** Dependencies by task id. A dependency may name a task that is not in the graph. */
  type Graph = map<Id, seq<Id>>

  function Deps(g: Graph, t: Id): seq<Id> {
    if t in g then g[t] else []
  }

  /** A walk along dependency edges. */
  ghost predicate IsPath(g: Graph, p: seq<Id>) {
    && p != []
    && forall i | 0 <= i < |p| - 1 :: p[i + 1] in Deps(g, p[i])
  }

  ghost predicate PathFromTo(g: Graph, p: seq<Id>, a: Id, b: Id) {
    IsPath(g, p) && p[0] == a && p[|p| - 1] == b
  }

  /** The reflexive transitive closure of the dependency edges. */
  ghost predicate Depends(g: Graph, a: Id, b: Id) {
    exists p :: PathFromTo(g, p, a, b)
  }

  lemma {:induction false} DependsRefl(g: Graph, a: Id)
    ensures Depends(g, a, a)
  {
    assert PathFromTo(g, [a], a, a);
  }

  lemma {:induction false} DependsStep(g: Graph, a: Id, b: Id, c: Id)
    requires Depends(g, a, b) && c in Deps(g, b)
    ensures Depends(g, a, c)
  {
    var p :| PathFromTo(g, p, a, b);
    assert PathFromTo(g, p + [c], a, c);
  }

  lemma {:induction false} PathTail(g: Graph, p: seq<Id>)
    requires IsPath(g, p) && |p| > 1
    ensures IsPath(g, p[1..]) && p[1] in Deps(g, p[0])
  {
    var q := p[1..];
    forall i | 0 <= i < |q| - 1 ensures q[i + 1] in Deps(g, q[i]) {
      assert p[i + 1 + 1] in Deps(g, p[i + 1]);
    }
    assert p[0 + 1] in Deps(g, p[0]);
  }

  /** One task depends on another when they are the same, or one that it lists depends on that. */
  lemma {:induction false} DependsIff(g: Graph, a: Id, b: Id)
    ensures Depends(g, a, b) <==> a == b || (a in g && exists d :: d in g[a] && Depends(g, d, b))
  {
    DependsRefl(g, a);
    if Depends(g, a, b) && a != b {
      var p :| PathFromTo(g, p, a, b);
      PathTail(g, p);
      assert PathFromTo(g, p[1..], p[1], b);
      assert p[1] in g[a] && Depends(g, p[1], b);
    }
    if a in g {
      if d :| d in g[a] && Depends(g, d, b) {
        var p :| PathFromTo(g, p, d, b);
        PathConcat(g, [a], p);
        assert PathFromTo(g, [a] + p, a, b);
      }
    }
  }

  ghost predicate DepsIn(g: Graph, t: Id, s: set<Id>) {
    forall d | d in Deps(g, t) :: d in s
  }

  /** A set closed under dependencies contains everything its members depend on. */
  lemma {:induction false} ClosedContains(g: Graph, s: set<Id>, p: seq<Id>)
    requires forall x | x in s :: DepsIn(g, x, s)
    requires IsPath(g, p) && p[0] in s
    ensures p[|p| - 1] in s
  {
    if |p| > 1 {
      PathTail(g, p);
      ClosedContains(g, s, p[1..]);
    }
  }

  lemma {:induction false} ClosedReach(g: Graph, s: set<Id>, a: Id, b: Id)
    requires forall x | x in s :: DepsIn(g, x, s)
    requires a in s && b !in s
    ensures !Depends(g, a, b)
  {
    if Depends(g, a, b) {
      var p :| PathFromTo(g, p, a, b);
      ClosedContains(g, s, p);
    }
  }

  /** Every id the search can meet. */
  ghost function Universe(g: Graph, from: Id): (u: set<Id>)
    ensures from in u
  {
    {from} + set k, i | k in g && 0 <= i < |g[k]| :: g[k][i]
  }

  lemma {:induction false} UniverseClosed(g: Graph, from: Id, x: Id)
    ensures DepsIn(g, x, Universe(g, from))
  {
  }

  /** Depth-first worklist search; terminates on cyclic graphs and on missing tasks. */
  method Reaches(g: Graph, from: Id, to: Id) returns (r: bool)
    ensures r <==> Depends(g, from, to)
  {
    hide Depends, Universe, Deps;
    ghost var universe, done := Universe(g, from), {};
    var seen, stack := {from}, [from];
    DependsRefl(g, from);
    while stack != []
      invariant from in seen && seen <= universe
      invariant forall x :: x in seen <==> x in done || x in stack
      invariant forall x | x in seen :: Depends(g, from, x)
      invariant to !in done
      invariant forall x | x in done :: DepsIn(g, x, seen)
      decreases |universe - seen|, |stack|
    {
      var current := stack[|stack| - 1];
      ghost var seen0, height := seen, |stack|;
      assert stack == stack[..|stack| - 1] + [current];
      stack := stack[..|stack| - 1];
      if current == to {
        return true;
      }
      done := done + {current};
      var deps := Deps(g, current);
      UniverseClosed(g, from, current);
      for i := 0 to |deps|
        invariant seen0 <= seen <= universe
        invariant forall x :: x in seen <==> x in done || x in stack
        invariant forall x | x in seen :: Depends(g, from, x)
        invariant forall k | 0 <= k < i :: deps[k] in seen
        invariant seen == seen0 ==> |stack| < height
      {
        if deps[i] !in seen {
          DependsStep(g, from, current, deps[i]);
          seen := seen + {deps[i]};
          stack := stack + [deps[i]];
        }
      }
      assert DepsIn(g, current, seen);
      UnseenShrinks(universe, seen0, seen);
    }
    ClosedReach(g, seen, from, to);
    return false;
  }

  lemma {:induction false} SubsetSmaller<T>(a: set<T>, b: set<T>)
    requires a < b
    ensures |a| < |b|
  {
    assert exists x :: x in b && x !in a;
    var x :| x in b && x !in a;
    assert a <= b - {x};
    SubsetCard(a, b - {x});
  }

  lemma {:induction false} UnseenShrinks(u: set<Id>, s: set<Id>, t: set<Id>)
    requires s <= t <= u
    ensures if s == t then |u - t| == |u - s| else |u - t| < |u - s|
  {
    if s != t {
      assert u - t <= u - s;
      assert exists x :: x in t && x !in s;
      SubsetSmaller(u - t, u - s);
    }
  }

  /** Two tasks are ordered when one transitively depends on the other. */
  ghost predicate Unordered(g: Graph, a: Id, b: Id) {
    !Depends(g, a, b) && !Depends(g, b, a)
  }

  method MayRunInParallel(g: Graph, a: Id, b: Id) returns (r: bool)
    ensures r <==> Unordered(g, a, b)
  {
    var ab := Reaches(g, a, b);
    if ab {
      return false;
    }
    var ba := Reaches(g, b, a);
    return !ba;
  }

  // ---- Static conflict check --------------------------------------------------

  /** Declared files: the map's keys in insertion order, and the file list of each key. */
  datatype Declared = Declared(ids: seq<Id>, files: map<Id, seq<File>>) {
    ghost predicate Valid() {
      Distinct(ids) && forall t :: t in ids <==> t in files
    }

    function Of(t: Id): seq<File> {
      if t in files then files[t] else []
    }
  }

  ghost predicate Shares(d: Declared, a: Id, b: Id) {
    exists f :: f in d.Of(a) && f in d.Of(b)
  }

  /** What the check is for: unordered tasks never claim a common file. */
  ghost predicate ConflictFree(g: Graph, d: Declared) {
    forall a, b | a in d.ids && b in d.ids && a != b && Unordered(g, a, b) :: !Shares(d, a, b)
  }

  /** In terms of the lists as they are declared. */
  lemma {:induction false} ConflictFreeIff(g: Graph, d: Declared)
    requires d.Valid()
    ensures ConflictFree(g, d) <==>
      forall a, b, f | a in d.files && b in d.files && a != b && f in d.files[a] && f in d.files[b] ::
        Depends(g, a, b) || Depends(g, b, a)
  {
    hide Depends;
    if ConflictFree(g, d) {
      forall a, b, f | a in d.files && b in d.files && a != b && f in d.files[a] && f in d.files[b]
        ensures Depends(g, a, b) || Depends(g, b, a)
      {
        assert f in d.Of(a) && f in d.Of(b);
        assert Shares(d, a, b);
      }
    }
    if forall a, b, f | a in d.files && b in d.files && a != b && f in d.files[a] && f in d.files[b] ::
        Depends(g, a, b) || Depends(g, b, a) {
      forall a, b | a in d.ids && b in d.ids && a != b && Unordered(g, a, b) ensures !Shares(d, a, b) {
        forall f | f in d.Of(a) ensures f !in d.Of(b) {
          assert f in d.files[a];
        }
      }
    }
  }

  datatype Conflict = Conflict(a: Id, b: Id, file: File)

  /** Positions `i < j` name an unordered pair that shares a file. */
  ghost predicate ClashAt(g: Graph, d: Declared, i: int, j: int) {
    0 <= i < j < |d.ids| && Unordered(g, d.ids[i], d.ids[j]) && Shares(d, d.ids[i], d.ids[j])
  }

  /** The lexicographically first clash, with the first shared file of the second task. */
  ghost predicate IsFirstConflict(g: Graph, d: Declared, c: Conflict, i: int, j: int) {
    && ClashAt(g, d, i, j) && c.a == d.ids[i] && c.b == d.ids[j]
    && (forall k, l | ClashAt(g, d, k, l) :: i < k || (i == k && j <= l))
    && c.file in d.Of(c.a)
    && exists n :: 0 <= n < |d.Of(c.b)| && d.Of(c.b)[n] == c.file && forall m | 0 <= m < n :: d.Of(c.b)[m] !in d.Of(c.a)
  }

  method FindParallelConflict(g: Graph, d: Declared) returns (r: Option<Conflict>)
    requires d.Valid()
    ensures r.None? <==> ConflictFree(g, d)
    ensures r.Some? ==> exists i, j :: IsFirstConflict(g, d, r.value, i, j)
  {
    hide Unordered;
    var n := |d.ids|;
    for i := 0 to n
      invariant forall k, l | ClashAt(g, d, k, l) :: i <= k
    {
      for j := i + 1 to n
        invariant forall k, l | ClashAt(g, d, k, l) :: i < k || (i == k && j <= l)
      {
        var a, b := d.ids[i], d.ids[j];
        var parallel := MayRunInParallel(g, a, b);
        if !parallel {
          continue;
        }
        var filesA, filesB := d.Of(a), d.Of(b);
        for m := 0 to |filesB|
          invariant forall x | 0 <= x < m :: filesB[x] !in filesA
        {
          if filesB[m] in filesA {
            assert Shares(d, a, b) && ClashAt(g, d, i, j);
            assert IsFirstConflict(g, d, Conflict(a, b, filesB[m]), i, j);
            return Some(Conflict(a, b, filesB[m]));
          }
        }
      }
    }
    NoClashIsFree(g, d);
    return None;
  }

  lemma {:induction false} NoClashIsFree(g: Graph, d: Declared)
    requires d.Valid() && forall k, l :: !ClashAt(g, d, k, l)
    ensures ConflictFree(g, d)
  {
    forall a, b | a in d.ids && b in d.ids && a != b && Unordered(g, a, b) ensures !Shares(d, a, b) {
      var i :| 0 <= i < |d.ids| && d.ids[i] == a;
      var j :| 0 <= j < |d.ids| && d.ids[j] == b;
      assert !ClashAt(g, d, i, j) && !ClashAt(g, d, j, i);
    }
  }

  // ---- Levels -----------------------------------------------------------------

  ghost predicate Acyclic(g: Graph) {
    forall p | IsPath(g, p) && |p| > 1 :: p[0] != p[|p| - 1]
  }

  /** The tasks strictly below `t`. */
  ghost function Below(g: Graph, t: Id): set<Id> {
    set x | x in Universe(g, t) && exists d :: d in Deps(g, t) && Depends(g, d, x)
  }

  /** `d` is the number of edges on the longest dependency chain from `t`. */
  ghost predicate IsLevel(g: Graph, t: Id, d: nat) {
    && (exists p :: IsPath(g, p) && p[0] == t && |p| == d + 1)
    && PathsWithin(g, t, d + 1)
  }

  ghost predicate PathsWithin(g: Graph, t: Id, n: nat) {
    forall p | IsPath(g, p) && p[0] == t :: |p| <= n
  }

  lemma {:induction false} PathConcat(g: Graph, p: seq<Id>, q: seq<Id>)
    requires IsPath(g, p) && IsPath(g, q) && q[0] in Deps(g, p[|p| - 1])
    ensures IsPath(g, p + q)
  {
    var r := p + q;
    forall i | 0 <= i < |r| - 1 ensures r[i + 1] in Deps(g, r[i]) {
      if i < |p| - 1 {
        assert r[i + 1] == p[i + 1];
      } else if i > |p| - 1 {
        assert r[i + 1] == q[i - |p| + 1] && r[i] == q[i - |p|];
      }
    }
  }

  lemma {:induction false} BelowShrinks(g: Graph, t: Id, d: Id)
    requires Acyclic(g) && d in Deps(g, t)
    ensures |Below(g, d)| < |Below(g, t)|
  {
    DependsRefl(g, d);
    assert d in Below(g, t);
    forall x | x in Below(g, d) ensures x in Below(g, t) && x != d {
      var e :| e in Deps(g, d) && Depends(g, e, x);
      var p :| PathFromTo(g, p, e, x);
      PathConcat(g, [d], p);
      assert PathFromTo(g, [d] + p, d, x);
      assert x in Universe(g, t);
    }
    SubsetSmaller(Below(g, d), Below(g, t));
  }

  /** Recursion over dependencies; the caller's graph has passed the cycle check. */
  method TaskLevel(g: Graph, t: Id) returns (depth: nat)
    requires Acyclic(g)
    ensures IsLevel(g, t, depth)
    decreases |Below(g, t)|
  {
    hide PathsWithin, Below;
    depth := 0;
    var deps := Deps(g, t);
    ghost var longest := [t];
    for i := 0 to |deps|
      invariant IsPath(g, longest) && longest[0] == t && |longest| == depth + 1
      invariant forall k | 0 <= k < i :: PathsWithin(g, deps[k], depth)
    {
      BelowShrinks(g, t, deps[i]);
      var below := TaskLevel(g, deps[i]);
      if below + 1 > depth {
        ghost var q :| IsPath(g, q) && q[0] == deps[i] && |q| == below + 1;
        PathConcat(g, [t], q);
        longest := [t] + q;
        forall k | 0 <= k < i ensures PathsWithin(g, deps[k], below + 1) {
          PathsWithinMono(g, deps[k], depth, below + 1);
        }
        depth := below + 1;
      } else {
        PathsWithinMono(g, deps[i], below + 1, depth);
      }
    }
    PathsWithinStep(g, t, depth);
  }

  lemma {:induction false} PathsWithinMono(g: Graph, t: Id, m: nat, n: nat)
    requires PathsWithin(g, t, m) && m <= n
    ensures PathsWithin(g, t, n)
  {}

  lemma {:induction false} PathsWithinStep(g: Graph, t: Id, n: nat)
    requires forall k | 0 <= k < |Deps(g, t)| :: PathsWithin(g, Deps(g, t)[k], n)
    ensures PathsWithin(g, t, n + 1)
  {
    forall p | IsPath(g, p) && p[0] == t ensures |p| <= n + 1 {
      if |p| > 1 {
        PathTail(g, p);
        var k :| 0 <= k < |Deps(g, t)| && Deps(g, t)[k] == p[1];
        assert PathsWithin(g, Deps(g, t)[k], n) && p[1..][0] == Deps(g, t)[k];
      }
    }
  }

  /** A task sits strictly above everything it depends on. */
  lemma {:induction false} DependsRaisesLevel(g: Graph, a: Id, b: Id, la: nat, lb: nat)
    requires IsLevel(g, a, la) && IsLevel(g, b, lb)
    requires Depends(g, a, b) && a != b
    ensures la > lb
  {
    var p :| PathFromTo(g, p, a, b);
    var q :| IsPath(g, q) && q[0] == b && |q| == lb + 1;
    var init := p[..|p| - 1];
    assert IsPath(g, init) && p[|p| - 1] in Deps(g, init[|init| - 1]);
    PathConcat(g, init, q);
    assert IsPath(g, init + q) && (init + q)[0] == a;
  }

  /** Distinct tasks drawn on one level may always run in parallel. */
  lemma {:induction false} SameLevelUnordered(g: Graph, a: Id, b: Id, l: nat)
    requires IsLevel(g, a, l) && IsLevel(g, b, l) && a != b
    ensures Unordered(g, a, b)
  {
    if Depends(g, a, b) {
      DependsRaisesLevel(g, a, b, l, l);
    }
    if Depends(g, b, a) {
      DependsRaisesLevel(g, b, a, l, l);
    }
  }
}
