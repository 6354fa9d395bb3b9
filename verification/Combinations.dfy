/**
 `itertools.combinations`: the loop that steps from one list of indices to the next,
 against the set of all strictly increasing choices of `r` indices out of `n`.
 */
module Combinations {
  import opened Common

  ghost predicate Choice(a: seq<int>, n: nat, r: nat) {
    && |a| == r
    && (forall k :: 0 <= k < r ==> 0 <= a[k] < n)
    && (forall j, k :: 0 <= j < k < r ==> a[j] < a[k])
  }

  /** `a` comes before `b`: they first differ at `k`, where `a` is smaller. */
  ghost predicate LessAt(a: seq<int>, b: seq<int>, k: nat) {
    k < |a| && k < |b| && a[k] < b[k] && forall j :: 0 <= j < k ==> a[j] == b[j]
  }

  ghost predicate Less(a: seq<int>, b: seq<int>) { exists k: nat :: LessAt(a, b, k) }

  /** The smallest choice starts at 0, the largest ends at `n - 1`. */
  lemma {:induction false} Spread(a: seq<int>, n: nat, r: nat, k: nat)
    requires Choice(a, n, r) && k < r
    ensures k <= a[k] <= k + n - r
    decreases r - k
  {
    FromBelow(a, n, r, k);
    if k + 1 < r { Spread(a, n, r, k + 1); }
  }

  lemma {:induction false} FromBelow(a: seq<int>, n: nat, r: nat, k: nat)
    requires Choice(a, n, r) && k < r
    ensures k <= a[k]
  {
    if k > 0 { FromBelow(a, n, r, k - 1); }
  }

  lemma {:induction false} Total(a: seq<int>, b: seq<int>, j: nat)
    requires |a| == |b| && j <= |a| && forall i :: 0 <= i < j ==> a[i] == b[i]
    ensures a == b || Less(a, b) || Less(b, a)
    decreases |a| - j
  {
    if j < |a| {
      if a[j] < b[j] { assert LessAt(a, b, j); }
      else if b[j] < a[j] { assert LessAt(b, a, j); }
      else { Total(a, b, j + 1); }
    }
  }

  // ---- the step ----

  /** `b` is `a` with the rightmost index that can grow, `k`, grown, and everything
      after it right behind. */
  ghost predicate Stepped(a: seq<int>, b: seq<int>, n: nat, r: nat, k: nat) {
    && k < r && |a| == r && |b| == r
    && a[k] != k + n - r && (forall j :: k < j < r ==> a[j] == j + n - r)
    && (forall j :: 0 <= j < k ==> b[j] == a[j])
    && (forall j :: k <= j < r ==> b[j] == a[k] + 1 + (j - k))
  }

  /** The step leads to a choice, and to the very next one. */
  lemma {:induction false} Successor(a: seq<int>, b: seq<int>, n: nat, r: nat, k: nat)
    requires Choice(a, n, r) && Stepped(a, b, n, r, k)
    ensures Choice(b, n, r) && LessAt(a, b, k)
    ensures forall c :: Choice(c, n, r) && Less(a, c) ==> c == b || Less(b, c)
  {
    Spread(a, n, r, k);
    forall c | Choice(c, n, r) && Less(a, c) ensures c == b || Less(b, c) {
      var j: nat :| LessAt(a, c, j);
      Spread(c, n, r, j);
      if j < k {
        assert LessAt(b, c, j);
      } else {
        assert j == k;
        if c[k] > b[k] { assert LessAt(b, c, k); } else { Behind(b, c, n, r, k, k); }
      }
    }
  }

  /** From `k` on `b` runs as close together as it can, so `c` is not before it. */
  lemma {:induction false} Behind(b: seq<int>, c: seq<int>, n: nat, r: nat, k: nat, j: nat)
    requires |b| == r && Choice(c, n, r) && k <= j < r && (forall i :: 0 <= i <= j ==> b[i] == c[i])
    requires forall i :: k <= i < r ==> b[i] == b[k] + (i - k)
    ensures c == b || Less(b, c)
    decreases r - j
  {
    if j + 1 < r {
      assert c[j] < c[j + 1];
      if c[j + 1] > b[j + 1] { assert LessAt(b, c, j + 1); } else { Behind(b, c, n, r, k, j + 1); }
    }
  }

  // ---- progress ----

  /** A choice read as a number in base `n + 1`; it only grows. */
  ghost function Value(a: seq<int>, n: nat): int {
    if a == [] then 0 else Value(a[..|a| - 1], n) * (n + 1) + a[|a| - 1]
  }

  ghost function Power(b: nat, e: nat): nat { if e == 0 then 1 else Power(b, e - 1) * b }

  lemma {:induction false} ValueBound(a: seq<int>, n: nat)
    requires forall k :: 0 <= k < |a| ==> 0 <= a[k] < n
    ensures 0 <= Value(a, n) < Power(n + 1, |a|)
  {
    if a != [] {
      ValueBound(a[..|a| - 1], n);
      var v, p, last := Value(a[..|a| - 1], n), Power(n + 1, |a| - 1), a[|a| - 1];
      Carry(v, p, n + 1);
      NotNegative(v, n + 1);
      assert Value(a, n) == v * (n + 1) + last && Power(n + 1, |a|) == p * (n + 1);
    }
  }

  lemma NotNegative(v: nat, b: nat)
    ensures v * b >= 0
  {
  }

  lemma Carry(v: int, p: int, b: nat)
    requires v + 1 <= p
    ensures v * b + b <= p * b
  {
    var d := p - (v + 1);
    NotNegative(d, b);
    Distributes(v + 1, d, b);
    Distributes(v, 1, b);
  }

  lemma Distributes(x: int, y: int, z: int)
    ensures (x + y) * z == x * z + y * z
  {
  }

  lemma {:induction false} ValueGrows(a: seq<int>, b: seq<int>, n: nat, k: nat)
    requires |a| == |b| && LessAt(a, b, k)
    requires forall i :: 0 <= i < |a| ==> 0 <= a[i] < n && 0 <= b[i] < n
    ensures Value(a, n) < Value(b, n)
    decreases |a|
  {
    var x, y := a[..|a| - 1], b[..|b| - 1];
    if k < |x| {
      ValueGrows(x, y, n, k);
      Carry(Value(x, n), Value(y, n), n + 1);
    } else {
      assert x == y;
    }
  }

  // ---- the generator ----

  ghost predicate InOrder(done: seq<seq<int>>) {
    forall i :: 0 <= i < |done| - 1 ==> Less(done[i], done[i + 1])
  }

  /** The list the code builds for one choice of indices. */
  function Pick<T>(xs: seq<T>, a: seq<int>): (p: seq<T>)
    requires forall k :: 0 <= k < |a| ==> 0 <= a[k] < |xs|
    ensures |p| == |a| && forall k :: 0 <= k < |a| ==> p[k] == xs[a[k]]
  {
    seq(|a|, k requires 0 <= k < |a| => xs[a[k]])
  }

  ghost predicate Yielded<T>(xs: seq<T>, out: seq<seq<T>>, done: seq<seq<int>>, r: nat) {
    && |out| == |done| && InOrder(done)
    && (forall i :: 0 <= i < |done| ==> Choice(done[i], |xs|, r) && |out[i]| == r)
    && (forall i, k :: 0 <= i < |done| && 0 <= k < r ==> out[i][k] == xs[done[i][k]])
  }

  /** All values yielded, in order, and the index lists behind them. `ok` is false
      where the library raises ValueError. */
  method Run<T>(xs: seq<T>, r: int) returns (ok: bool, out: seq<seq<T>>, ghost done: seq<seq<int>>)
    ensures ok <==> r >= 0
    ensures !ok || r > |xs| ==> out == []
    ensures ok ==> Yielded(xs, out, done, r)
    ensures ok ==> forall a :: Choice(a, |xs|, r) ==> a in done
  {
    hide Pick, Less, Value, Power;
    out, done := [], [];
    var n := |xs|;
    if r < 0 { return false, [], []; }
    if r > n {
      forall a ensures !Choice(a, n, r) { if Choice(a, n, r) && r > 0 { Spread(a, n, r, 0); } }
      return true, [], [];
    }
    var indices := FirstChoice(r);
    out, done := [Pick(xs, indices)], [indices];
    NoneBefore(indices, n, r);
    if r == 0 { return true, out, done; }
    while true
      invariant Choice(indices, n, r) && Yielded(xs, out, done, r) && |done| > 0 && done[|done| - 1] == indices
      invariant forall a :: Choice(a, n, r) ==> a in done || Less(indices, a)
      decreases Power(n + 1, r) - Value(indices, n)
    {
      var k := r - 1;
      while k >= 0 && indices[k] == k + n - r
        invariant -1 <= k < r && forall j :: k < j < r ==> indices[j] == j + n - r
      {
        k := k - 1;
      }
      if k < 0 {
        NoneAfter(indices, n, r);
        return true, out, done;
      }
      ghost var last := indices;
      indices := indices[k := indices[k] + 1];
      var m := k + 1;
      while m < r
        invariant k < m <= r && |indices| == r
        invariant forall j :: 0 <= j < k ==> indices[j] == last[j]
        invariant forall j :: k <= j < m ==> indices[j] == last[k] + 1 + (j - k)
      {
        indices := indices[m := indices[m - 1] + 1];
        m := m + 1;
      }
      Successor(last, indices, n, r, k);
      ValueGrows(last, indices, n, k);
      ValueBound(indices, n);
      assert Less(last, indices) by { LessIs(last, indices, k); }
      out, done := out + [Pick(xs, indices)], done + [indices];
    }
  }

  lemma LessTrans(a: seq<int>, b: seq<int>, c: seq<int>)
    requires Less(a, b) && Less(b, c)
    ensures Less(a, c)
  {
    var j: nat :| LessAt(a, b, j);
    var k: nat :| LessAt(b, c, k);
    assert LessAt(a, c, if j < k then j else k);
  }

  /** Nothing is yielded twice, and what comes later is greater. */
  lemma {:induction false} Ascending(done: seq<seq<int>>, i: nat, j: nat)
    requires InOrder(done) && i < j < |done|
    ensures Less(done[i], done[j]) && done[i] != done[j]
    decreases j
  {
    if i < j - 1 {
      Ascending(done, i, j - 1);
      LessTrans(done[i], done[j - 1], done[j]);
    }
    var k: nat :| LessAt(done[i], done[j], k);
  }

  lemma LessIs(a: seq<int>, b: seq<int>, k: nat)
    requires LessAt(a, b, k)
    ensures Less(a, b)
  {
  }

  method FirstChoice(r: nat) returns (indices: seq<int>)
    ensures |indices| == r && forall k :: 0 <= k < r ==> indices[k] == k
  {
    indices := [];
    var i := 0;
    while i < r
      invariant 0 <= i <= r && |indices| == i && forall k :: 0 <= k < i ==> indices[k] == k
    {
      indices := indices + [i];
      i := i + 1;
    }
  }

  lemma NoneBefore(first: seq<int>, n: nat, r: nat)
    requires r <= n && |first| == r && forall k :: 0 <= k < r ==> first[k] == k
    ensures Choice(first, n, r) && forall a :: Choice(a, n, r) ==> a in [first] || Less(first, a)
  {
    forall a | Choice(a, n, r) ensures a == first || Less(first, a) {
      Total(first, a, 0);
      if Less(a, first) {
        var k: nat :| LessAt(a, first, k);
        Spread(a, n, r, k);
        assert false;
      }
    }
  }

  lemma NoneAfter(last: seq<int>, n: nat, r: nat)
    requires Choice(last, n, r) && forall k :: 0 <= k < r ==> last[k] == k + n - r
    ensures forall a :: Choice(a, n, r) ==> !Less(last, a)
  {
    forall a | Choice(a, n, r) ensures !Less(last, a) {
      if Less(last, a) {
        var k: nat :| LessAt(last, a, k);
        Spread(a, n, r, k);
      }
    }
  }
}
