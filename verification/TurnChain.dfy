/** The chain of recent per-turn tasks: a bounded recency list. */
module TurnChain {
  import opened Prelude

  type TaskId = string

  const MAX_TURN_CHAIN_TASKS: nat := 10

  /** `s` without its first occurrence of `x`. */
  function Without(s: seq<TaskId>, x: TaskId): seq<TaskId> {
    if s == [] then [] else if s[0] == x then s[1..] else [s[0]] + Without(s[1..], x)
  }

  class Chain {
    var turnChain: seq<TaskId>
    var dropped: nat
    ghost var history: seq<TaskId>

    ghost predicate Valid()
      reads this
    {
      turnChain == ChainAfter(history) && |turnChain| + dropped == Misses(history)
    }

    constructor ()
      ensures Valid() && history == []
    {
      turnChain, dropped, history := [], 0, [];
    }

    method IndexOf(x: TaskId) returns (at: int)
      ensures -1 <= at < |turnChain|
      ensures at >= 0 ==> turnChain[at] == x && x !in turnChain[..at]
      ensures at == -1 ==> x !in turnChain
    {
      for i := 0 to |turnChain|
        invariant x !in turnChain[..i]
      {
        if turnChain[i] == x {
          return i;
        }
      }
      return -1;
    }

    /** Appends a task, deduplicated and capped; `history` is every task tracked since the last reset. */
    method Track(x: TaskId)
      requires Valid()
      modifies this
      ensures Valid() && history == old(history) + [x]
    {
      hide Without, ChainAfter, Misses, LastN;
      TrackedOnce(history, x);
      var at := IndexOf(x);
      if at >= 0 {
        WithoutAt(turnChain, x, at);
        turnChain := turnChain[..at] + turnChain[at + 1..];
      } else {
        WithoutAbsent(turnChain, x);
      }
      turnChain := turnChain + [x];
      ghost var full := turnChain;
      LastNIs(full, MAX_TURN_CHAIN_TASKS);
      while |turnChain| > MAX_TURN_CHAIN_TASKS
        invariant history == old(history) && |turnChain| + dropped == |full| + old(dropped)
        invariant |turnChain| <= |full| && turnChain == full[|full| - |turnChain|..]
        invariant |turnChain| >= Min(|full|, MAX_TURN_CHAIN_TASKS)
      {
        turnChain := turnChain[1..];
        dropped := dropped + 1;
      }
      history := history + [x];
    }

    method Reset()
      modifies this
      ensures Valid() && history == []
    {
      turnChain, dropped, history := [], 0, [];
    }
  }

  lemma {:induction false} WithoutAt(s: seq<TaskId>, x: TaskId, at: nat)
    requires at < |s| && s[at] == x && x !in s[..at]
    ensures Without(s, x) == s[..at] + s[at + 1..]
  {
    if at > 0 {
      assert s[..at][0] == s[0] && s[1..][..at - 1] == s[..at][1..];
      WithoutAt(s[1..], x, at - 1);
    }
  }

  lemma {:induction false} WithoutAbsent(s: seq<TaskId>, x: TaskId)
    requires x !in s
    ensures Without(s, x) == s
  {
    if s != [] {
      WithoutAbsent(s[1..], x);
    }
  }

  /** What the tracking steps leave in the chain. */
  function ChainAfter(history: seq<TaskId>): seq<TaskId> {
    if history == [] then []
    else LastN(Without(ChainAfter(history[..|history| - 1]), history[|history| - 1]) + [history[|history| - 1]],
               MAX_TURN_CHAIN_TASKS)
  }

  /** How many of the tracks found their task not in the chain. */
  function Misses(history: seq<TaskId>): nat {
    if history == [] then 0
    else
      var init, x := history[..|history| - 1], history[|history| - 1];
      Misses(init) + if x in ChainAfter(init) then 0 else 1
  }

  lemma {:induction false} TrackedOnce(history: seq<TaskId>, x: TaskId)
    ensures ChainAfter(history + [x]) == LastN(Without(ChainAfter(history), x) + [x], MAX_TURN_CHAIN_TASKS)
    ensures Misses(history + [x]) == Misses(history) + if x in ChainAfter(history) then 0 else 1
  {
    assert (history + [x])[..|history|] == history;
  }

  lemma {:induction false} LastNIs(s: seq<TaskId>, n: nat)
    ensures LastN(s, n) == s[|s| - Min(|s|, n)..]
  {
  }

  // ---- Specification over the whole history ------------------------------------------------

  /** `i` is the last position of `x` in `h`. */
  ghost predicate LastAt(h: seq<TaskId>, x: TaskId, i: int) {
    0 <= i < |h| && h[i] == x && x !in h[i + 1..]
  }

  /** `r` lists the distinct tasks of `h` by their last occurrence, oldest first. */
  ghost predicate IsRecency(h: seq<TaskId>, r: seq<TaskId>) {
    && Distinct(r)
    && (forall x :: x in r <==> x in h)
    && forall a, b, i, j | 0 <= a < b < |r| && LastAt(h, r[a], i) && LastAt(h, r[b], j) :: i < j
  }

  /** The unbounded list that the chain is the end of. */
  function Recency(h: seq<TaskId>): seq<TaskId> {
    if h == [] then [] else Without(Recency(h[..|h| - 1]), h[|h| - 1]) + [h[|h| - 1]]
  }

  lemma {:induction false} WithoutDistinct(s: seq<TaskId>, x: TaskId)
    requires Distinct(s)
    ensures Distinct(Without(s, x))
    ensures forall y :: y in Without(s, x) <==> y in s && y != x
    ensures |Without(s, x)| == |s| - if x in s then 1 else 0
  {
    if s != [] {
      assert forall k | 0 <= k < |s| - 1 :: s[1..][k] == s[k + 1];
      WithoutDistinct(s[1..], x);
      assert s[0] !in s[1..];
      if s[0] == x {
        forall k | 0 <= k < |s| - 1 ensures s[1..][k] != x {
          assert s[0] != s[k + 1];
        }
      }
    }
  }

  /** Removing an element keeps the order of the others. */
  lemma {:induction false} WithoutOrder(s: seq<TaskId>, x: TaskId, a: nat, b: nat) returns (c: nat, d: nat)
    requires a < b < |Without(s, x)|
    ensures c < d < |s| && s[c] == Without(s, x)[a] && s[d] == Without(s, x)[b]
  {
    if s[0] == x {
      c, d := a + 1, b + 1;
    } else if a > 0 {
      c, d := WithoutOrder(s[1..], x, a - 1, b - 1);
      c, d := c + 1, d + 1;
    } else {
      c := 0;
      d := WithoutIndex(s[1..], x, b - 1);
      d := d + 1;
    }
  }

  lemma {:induction false} WithoutIndex(s: seq<TaskId>, x: TaskId, b: nat) returns (d: nat)
    requires b < |Without(s, x)|
    ensures d < |s| && s[d] == Without(s, x)[b]
  {
    if s[0] == x {
      d := b + 1;
    } else if b == 0 {
      d := 0;
    } else {
      d := WithoutIndex(s[1..], x, b - 1);
      d := d + 1;
    }
  }

  lemma {:induction false} RecencyMeans(h: seq<TaskId>)
    ensures IsRecency(h, Recency(h))
  {
    if h != [] {
      var init, x := h[..|h| - 1], h[|h| - 1];
      var r0 := Recency(init);
      var r := Recency(h);
      RecencyMeans(init);
      WithoutDistinct(r0, x);
      assert h == init + [x];
      forall a, b, i, j | 0 <= a < b < |r| && LastAt(h, r[a], i) && LastAt(h, r[b], j) ensures i < j {
        assert i == |h| - 1 || h[i + 1..] == init[i + 1..] + [x];
        assert j == |h| - 1 || h[j + 1..] == init[j + 1..] + [x];
        if b == |r| - 1 {
          assert r[a] != x;
        } else {
          var c, d := WithoutOrder(r0, x, a, b);
          assert r[a] != x && r[b] != x;
          assert LastAt(init, r0[c], i) && LastAt(init, r0[d], j);
        }
      }
    }
  }

  lemma {:induction false} LastExists(h: seq<TaskId>, x: TaskId) returns (i: nat)
    requires x in h
    ensures LastAt(h, x, i)
  {
    i := |h| - 1;
    while h[i] != x
      invariant 0 <= i < |h|
      invariant x !in h[i + 1..]
      invariant x in h[..i + 1]
      decreases i
    {
      assert h[i..] == [h[i]] + h[i + 1..];
      assert h[..i + 1] == h[..i] + [h[i]];
      i := i - 1;
    }
  }

  lemma {:induction false} Regroup(a: seq<TaskId>, b: seq<TaskId>, c: seq<TaskId>)
    ensures a + (b + c) == (a + b) + c
  {
  }

  lemma {:induction false} WithoutPrefix(a: seq<TaskId>, b: seq<TaskId>, x: TaskId)
    ensures x !in a ==> Without(a + b, x) == a + Without(b, x)
    ensures x in a ==> Without(a + b, x) == Without(a, x) + b
  {
    if a == [] {
      assert a + b == b;
    } else {
      assert (a + b)[0] == a[0] && (a + b)[1..] == a[1..] + b;
      WithoutPrefix(a[1..], b, x);
      assert a == [a[0]] + a[1..];
      Regroup([a[0]], a[1..], Without(b, x));
      Regroup([a[0]], Without(a[1..], x), b);
    }
  }

  lemma {:induction false} LastNOfConcat(a: seq<TaskId>, b: seq<TaskId>, n: nat)
    requires a == [] || |b| >= n
    ensures LastN(a + b, n) == LastN(b, n)
  {
    if a == [] {
      assert a + b == b;
    }
  }

  lemma {:induction false} DistinctParts(a: seq<TaskId>, b: seq<TaskId>)
    requires Distinct(a + b)
    ensures Distinct(a) && Distinct(b) && forall x | x in a :: x !in b
  {
    var c := a + b;
    forall i, j | 0 <= i < j < |b| ensures b[i] != b[j] {
      assert c[|a| + i] != c[|a| + j];
    }
    forall i, j | 0 <= i < j < |a| ensures a[i] != a[j] {
      assert c[i] != c[j];
    }
    forall i, j | 0 <= i < |a| && 0 <= j < |b| ensures a[i] != b[j] {
      assert c[i] != c[|a| + j];
    }
  }

  /** Tracking commutes with forgetting all but the most recent tasks. */
  lemma {:induction false} TrackTruncated(r: seq<TaskId>, x: TaskId, n: nat)
    requires Distinct(r) && n > 0
    ensures LastN(Without(LastN(r, n), x) + [x], n) == LastN(Without(r, x) + [x], n)
  {
    hide Distinct, Without;
    var tail := LastN(r, n);
    var head := r[..|r| - |tail|];
    assert r == head + tail;
    DistinctParts(head, tail);
    WithoutPrefix(head, tail, x);
    WithoutDistinct(tail, x);
    if x in head {
      WithoutAbsent(tail, x);
      assert Without(r, x) + [x] == Without(head, x) + (tail + [x]);
      LastNOfConcat(Without(head, x), tail + [x], n);
    } else {
      if x !in tail {
        WithoutAbsent(tail, x);
      }
      assert Without(r, x) + [x] == head + (Without(tail, x) + [x]);
      LastNOfConcat(head, Without(tail, x) + [x], n);
    }
  }

  /**
   * Refinement. After any tracks since the last reset the chain is the end of every list of
   * the distinct tracked tasks by last occurrence (`RecencyUnique`: there is one such list).
   */
  lemma {:induction false} ChainRefinesHistory(h: seq<TaskId>)
    ensures IsRecency(h, Recency(h)) && ChainAfter(h) == LastN(Recency(h), MAX_TURN_CHAIN_TASKS)
    ensures Distinct(ChainAfter(h)) && |ChainAfter(h)| <= 10
  {
    RecencyMeans(h);
    if h != [] {
      var init, x := h[..|h| - 1], h[|h| - 1];
      RecencyMeans(init);
      ChainRefinesHistory(init);
      TrackTruncated(Recency(init), x, MAX_TURN_CHAIN_TASKS);
    }
    var r := Recency(h);
    var c := LastN(r, MAX_TURN_CHAIN_TASKS);
    forall i, j | 0 <= i < j < |c| ensures c[i] != c[j] {
      assert r[|r| - |c| + i] != r[|r| - |c| + j];
    }
  }

  ghost predicate SameOrder(r: seq<TaskId>, s: seq<TaskId>) {
    forall a, b, c, d | 0 <= a < b < |r| && 0 <= c < |s| && 0 <= d < |s| && r[a] == s[c] && r[b] == s[d] :: c < d
  }

  lemma {:induction false} SameLast(r: seq<TaskId>, s: seq<TaskId>)
    requires Distinct(r) && Distinct(s) && (forall x :: x in r <==> x in s) && SameOrder(r, s)
    requires r != [] && s != []
    ensures r[|r| - 1] == s[|s| - 1]
  {
    var m, n := |r| - 1, |s| - 1;
    assert r[m] in s && s[n] in r;
    var d :| 0 <= d <= n && s[d] == r[m];
    var b :| 0 <= b <= m && r[b] == s[n];
  }

  lemma {:induction false} InitElements(r: seq<TaskId>)
    requires r != [] && Distinct(r)
    ensures Distinct(r[..|r| - 1]) && forall x :: x in r[..|r| - 1] <==> x in r && x != r[|r| - 1]
  {
    assert r == r[..|r| - 1] + [r[|r| - 1]];
    DistinctParts(r[..|r| - 1], [r[|r| - 1]]);
  }

  lemma {:induction false} EmptyTogether(r: seq<TaskId>, s: seq<TaskId>)
    requires forall x :: x in r <==> x in s
    ensures r == [] <==> s == []
  {
    if r != [] {
      assert r[0] in r;
    }
    if s != [] {
      assert s[0] in s;
    }
  }

  lemma {:induction false} SameOrderEqual(r: seq<TaskId>, s: seq<TaskId>)
    requires Distinct(r) && Distinct(s) && (forall x :: x in r <==> x in s) && SameOrder(r, s)
    ensures r == s
  {
    hide Distinct;
    EmptyTogether(r, s);
    if r != [] {
      SameLast(r, s);
      InitElements(r);
      InitElements(s);
      var r', s' := r[..|r| - 1], s[..|s| - 1];
      assert SameOrder(r', s');
      forall x ensures x in r' <==> x in s' {
        assert x in r <==> x in s;
      }
      SameOrderEqual(r', s');
      assert r == r' + [r[|r| - 1]] && s == s' + [s[|s| - 1]];
    }
  }

  lemma {:induction false} RecencyUnique(h: seq<TaskId>, r: seq<TaskId>, s: seq<TaskId>)
    requires IsRecency(h, r) && IsRecency(h, s)
    ensures r == s
  {
    forall a, b, c, d | 0 <= a < b < |r| && 0 <= c < |s| && 0 <= d < |s| && r[a] == s[c] && r[b] == s[d] ensures c < d {
      assert r[a] in h && r[b] in h;
      var i := LastExists(h, r[a]);
      var j := LastExists(h, r[b]);
      assert i < j && r[a] != r[b];
      assert LastAt(h, s[d], j) && LastAt(h, s[c], i);
    }
    SameOrderEqual(r, s);
  }

  /** The distinct tasks tracked after position `i`. */
  function Since(h: seq<TaskId>, i: nat): set<TaskId>
    requires i < |h|
  {
    Elements(h[i + 1..])
  }

  function Elements(s: seq<TaskId>): set<TaskId> { set y | y in s }

  /** A task is in the chain exactly when fewer than ten others were tracked after it was last. */
  lemma {:induction false} InChainIff(h: seq<TaskId>, x: TaskId)
    ensures x in ChainAfter(h) <==> exists i :: LastAt(h, x, i) && |Since(h, i)| < 10
  {
    hide ChainAfter, Recency;
    ChainRefinesHistory(h);
    var r := Recency(h);
    if x in h {
      var i := LastExists(h, x);
      var a :| 0 <= a < |r| && r[a] == x;
      AfterInRecency(h, r, a, i);
      assert x in LastN(r, 10) <==> |r| - 1 - a < 10 by {
        InLast(r, a, 10);
      }
      forall j | LastAt(h, x, j) ensures j == i {
        LastIsOne(h, x, i, j);
      }
    } else {
      assert x !in r;
    }
  }

  lemma {:induction false} NotAfter(h: seq<TaskId>, x: TaskId, i: int)
    requires LastAt(h, x, i)
    ensures forall k | i < k < |h| :: h[k] != x
  {
    forall k | i < k < |h| ensures h[k] != x {
      assert h[i + 1..][k - i - 1] == h[k];
    }
  }

  lemma {:induction false} LastIsOne(h: seq<TaskId>, x: TaskId, i: int, j: int)
    requires LastAt(h, x, i) && LastAt(h, x, j)
    ensures i == j
  {
    NotAfter(h, x, i);
    NotAfter(h, x, j);
  }

  lemma {:induction false} InLast(r: seq<TaskId>, a: nat, n: nat)
    requires Distinct(r) && a < |r|
    ensures r[a] in LastN(r, n) <==> |r| - 1 - a < n
  {
    if |r| > n && a >= |r| - n {
      assert LastN(r, n)[a - (|r| - n)] == r[a];
    }
  }

  /** What stands after a task in the list is what was tracked after it. */
  lemma {:induction false} AfterInRecency(h: seq<TaskId>, r: seq<TaskId>, a: nat, i: nat)
    requires IsRecency(h, r) && a < |r| && LastAt(h, r[a], i)
    ensures |Since(h, i)| == |r| - 1 - a
  {
    var after := r[a + 1..];
    forall y ensures y in after <==> y in Since(h, i) {
      if y in after {
        var b :| 0 <= b < |after| && after[b] == y;
        assert r[a + 1 + b] == y && y in h;
        var j := LastExists(h, y);
        assert i < j && h[i + 1..][j - i - 1] == y;
      }
      if y in Since(h, i) {
        var k :| 0 <= k < |h[i + 1..]| && h[i + 1..][k] == y;
        assert h[i + 1 + k] == y && y in r;
        var j := LastExists(h, y);
        NotAfter(h, y, j);
        var b :| 0 <= b < |r| && r[b] == y;
        assert y != r[a];
        assert b > a;
        assert after[b - a - 1] == y;
      }
    }
    assert Since(h, i) == Elements(after);
    DistinctTail(r, a + 1);
    DistinctSize(after);
  }

  lemma {:induction false} DistinctTail(r: seq<TaskId>, k: nat)
    requires Distinct(r) && k <= |r|
    ensures Distinct(r[k..])
  {
  }

  lemma {:induction false} DistinctSize(s: seq<TaskId>)
    requires Distinct(s)
    ensures |Elements(s)| == |s|
  {
    if s != [] {
      var init, x := s[..|s| - 1], s[|s| - 1];
      InitElements(s);
      DistinctSize(init);
      assert Elements(s) == Elements(init) + {x};
    }
  }

  // ---- The drop counter ------------------------------------------------------------------------

  lemma {:induction false} MissesCount(h: seq<TaskId>)
    ensures Misses(h) >= |Recency(h)|
    ensures |Recency(h)| <= MAX_TURN_CHAIN_TASKS ==> Misses(h) == |Recency(h)|
  {
    if h != [] {
      var init := h[..|h| - 1];
      MissesCount(init);
      ChainRefinesHistory(init);
      WithoutDistinct(Recency(init), h[|h| - 1]);
    }
  }

  /** A miss is a track whose task was never tracked, or not since ten others were. */
  lemma {:induction false} MissesAre(h: seq<TaskId>, x: TaskId)
    ensures Misses([]) == 0
    ensures Misses(h + [x]) == Misses(h) + if exists i :: LastAt(h, x, i) && |Since(h, i)| < 10 then 0 else 1
  {
    hide ChainAfter;
    TrackedOnce(h, x);
    InChainIff(h, x);
  }

  /** The chain reports dropped turns if and only if some tracked task is no longer in it. */
  lemma {:induction false} DroppedIffForgotten(h: seq<TaskId>)
    ensures Misses(h) > |ChainAfter(h)| <==> exists x :: x in h && x !in ChainAfter(h)
  {
    MissesCount(h);
    ChainRefinesHistory(h);
    var r, c := Recency(h), ChainAfter(h);
    if |r| > MAX_TURN_CHAIN_TASKS {
      assert r == r[..|r| - |c|] + c;
      DistinctParts(r[..|r| - |c|], c);
      assert r[0] in r[..|r| - |c|] && r[0] in r;
      assert r[0] in h && r[0] !in c;
    }
  }
}
