/**
 Slices of strings and lists: the runtime's index arithmetic in 64 bits, against
 what `s[low:high:step]` selects.
 */
module Slicing {
  import opened Common

  const MAX := 0x7fff_ffff_ffff_ffff
  const MIN := -MAX - 1

  predicate Int64(x: int): (r: bool)
    ensures r <==> -9223372036854775808 <= x <= 9223372036854775807
  {
    MIN <= x <= MAX
  }

  predicate Int64Opt(x: Option<int>) { x.Some? ==> Int64(x.value) }

  /** A sum or difference of two 64-bit numbers, wrapped. */
  function Wrap(x: int): int {
    if x > MAX then x - 2 * (MAX + 1) else if x < MIN then x + 2 * (MAX + 1) else x
  }

  function Abs(x: int): nat { if x < 0 then -x else x }

  /** Division as C does it, towards zero. */
  function CDiv(a: int, b: int): int
    requires b != 0
  {
    if (a >= 0) == (b > 0) then Abs(a) / Abs(b) else -(Abs(a) / Abs(b))
  }

  // ---- what a slice selects ----

  /** The index a slice starts from. */
  function Start(length: nat, low: Option<int>, step: int): int
    requires step != 0
  {
    if low.None? then (if step > 0 then 0 else length - 1)
    else if low.value < 0 then
      var x := length + low.value;
      if step > 0 && x < 0 then 0 else x
    else if step < 0 && low.value >= length then length - 1
    else low.value
  }

  /** Whether `x` is before the far end of the slice. */
  predicate Before(length: nat, high: Option<int>, step: int, x: int)
    requires step != 0
  {
    high.Some? ==>
      var end := if high.value < 0 then length + high.value else high.value;
      if step > 0 then x < end else x > end
  }

  /** The indices of a slice: on the progression from its start, inside the sequence,
      before the far end. */
  predicate Selected(length: nat, low: Option<int>, high: Option<int>, step: int, x: int)
    requires step != 0
  {
    && 0 <= x < length && Before(length, high, step, x)
    && (if step > 0 then x >= Start(length, low, step) else x <= Start(length, low, step))
    && Abs(x - Start(length, low, step)) % Abs(step) == 0
  }

  // ---- what the runtime computes ----

  datatype Range = Range(lo: int, hi: int, count: int)

  function Clamp(length: nat, bound: int, step: int): int {
    var x := if bound < 0 then bound + length else bound;
    if step > 0 then (if x < 0 then 0 else if x > length then length else x)
    else (if x < 0 then -1 else if x >= length then length - 1 else x)
  }

  function Resolve(length: nat, low: Option<int>, high: Option<int>, step: int): Range
    requires step != 0 && Int64(step)
  {
    var lo := if low.Some? then Clamp(length, low.value, step) else if step > 0 then 0 else length - 1;
    var hi := if high.Some? then Clamp(length, high.value, step) else if step > 0 then length else -1;
    var count :=
      if step > 0 then (if hi > lo then CDiv(Wrap(Wrap(hi - lo + step) - 1), step) else 0)
      else
        var pos := Wrap(-step);
        if lo > hi then CDiv(Wrap(Wrap(lo - hi + pos) - 1), pos) else 0;
    Range(lo, hi, count)
  }

  function Gap(r: Range, step: int): int { if step > 0 then r.hi - r.lo else r.lo - r.hi }

  /** The true number of elements. */
  function Size(r: Range, step: int): nat
    requires step != 0
  {
    if Gap(r, step) <= 0 then 0 else Rounds(Gap(r, step), Abs(step))
  }

  /** How many steps of `p` it takes to cover `d`. */
  function Rounds(d: nat, p: nat): (r: nat)
    requires d > 0 && p > 0
    ensures r > 0
  {
    (d - 1) / p + 1
  }

  // ---- arithmetic ----

  lemma MulLe(a: int, b: int, p: nat)
    requires a <= b
    ensures a * p <= b * p
  {
  }

  lemma UpTo(d: nat, p: nat, j: nat)
    requires d > 0 && p > 0
    ensures j < (d - 1) / p + 1 <==> j * p < d
  {
    var q := (d - 1) / p;
    if j <= q { MulLe(j, q, p); } else { MulLe(q + 1, j, p); }
  }

  lemma DivIs(x: int, p: nat, q: int)
    requires p > 0 && q * p <= x < (q + 1) * p
    ensures x / p == q && x % p == x - q * p
  {
    var d := x / p;
    assert x == p * d + x % p;
    if d < q { MulLe(d + 1, q, p); } else if d > q { MulLe(q + 1, d, p); }
  }

  lemma RoundUp(d: nat, p: nat)
    requires d > 0 && p > 0
    ensures (d + p - 1) / p == (d - 1) / p + 1
  {
    var q := (d - 1) / p;
    assert d - 1 == p * q + (d - 1) % p;
    assert (q + 1) * p == q * p + p && (q + 2) * p == q * p + 2 * p;
    DivIs(d + p - 1, p, q + 1);
  }

  lemma Signed(j: int, step: int)
    ensures j * step == if step > 0 then j * Abs(step) else -(j * Abs(step))
  {
  }

  /** The computed size is the true one exactly when its sum stays in 64 bits; when it
      does not, the slice comes out empty. */
  lemma SizeExact(length: nat, low: Option<int>, high: Option<int>, step: int)
    requires length <= MAX && Int64Opt(low) && Int64Opt(high) && Int64(step) && step != 0 && step != MIN
    ensures var r := Resolve(length, low, high, step);
      r.count == Size(r, step) <==> Gap(r, step) <= 0 || Gap(r, step) + Abs(step) - 1 <= MAX
    ensures var r := Resolve(length, low, high, step);
      r.count != Size(r, step) ==> r.count <= 0 < Size(r, step)
  {
    hide Resolve, CDiv, Wrap, Rounds;
    var r := Resolve(length, low, high, step);
    var d, p := Gap(r, step), Abs(step);
    CountOf(length, low, high, step);
    GapInside(length, low, high, step);
    if d > 0 { CountIs(d, p); }
  }

  /** The count in terms of the gap and the size of the step. */
  lemma CountOf(length: nat, low: Option<int>, high: Option<int>, step: int)
    requires Int64(step) && step != 0 && step != MIN
    ensures var r := Resolve(length, low, high, step);
      r.count == if Gap(r, step) > 0 then CDiv(Wrap(Wrap(Gap(r, step) + Abs(step)) - 1), Abs(step)) else 0
  {
    hide CDiv, Clamp;
    assert step < 0 ==> Wrap(-step) == Abs(step);
  }

  lemma GapInside(length: nat, low: Option<int>, high: Option<int>, step: int)
    requires step != 0 && Int64(step)
    ensures Gap(Resolve(length, low, high, step), step) <= length
  {
    hide CDiv, Wrap;
  }

  /** MIN has no opposite in 64 bits: its slices are right up to a gap of one. */
  lemma SizeAtMin(length: nat, low: Option<int>, high: Option<int>)
    requires length <= MAX && Int64Opt(low) && Int64Opt(high)
    ensures var r := Resolve(length, low, high, MIN);
      (r.count == Size(r, MIN) <==> Gap(r, MIN) <= 1) && (r.count != Size(r, MIN) ==> r.count <= 0 < Size(r, MIN))
  {
    var r := Resolve(length, low, high, MIN);
    var d := Gap(r, MIN);
    GapInside(length, low, high, MIN);
    if d > 0 {
      DivIs(d - 1, Abs(MIN), 0);
      assert Wrap(Wrap(d + MIN) - 1) == d + MIN - 1;
      if d == 1 { DivIs(Abs(MIN), Abs(MIN), 1); } else { DivIs(Abs(d + MIN - 1), Abs(MIN), 0); }
    }
  }

  lemma CountIs(d: int, p: int)
    requires 0 < d <= MAX && 0 < p <= MAX
    ensures var c := CDiv(Wrap(Wrap(d + p) - 1), p);
      if d + p - 1 <= MAX then c == Rounds(d, p) else c <= 0
  {
    if d + p - 1 <= MAX {
      RoundUp(d, p);
      assert Wrap(Wrap(d + p) - 1) == d + p - 1;
    } else {
      var x := Wrap(Wrap(d + p) - 1);
      assert x < 0;
      assert Abs(x) / Abs(p) >= 0;
    }
  }

  /** The index range selects exactly the indices of the slice, in the order of the
      progression, and reads only inside the sequence. */
  lemma SliceSelects(length: nat, low: Option<int>, high: Option<int>, step: int, x: int)
    requires step != 0 && Int64(step)
    ensures var r := Resolve(length, low, high, step);
      Selected(length, low, high, step, x) <==>
        exists j {:trigger r.lo + j * step} :: 0 <= j < Size(r, step) && x == r.lo + j * step
  {
    hide Resolve, Selected, Size;
    var r := Resolve(length, low, high, step);
    if Selected(length, low, high, step, x) {
      var j := SelectedAt(length, low, high, step, x);
      assert x == r.lo + j * step;
    }
    if j :| 0 <= j < Size(r, step) && x == r.lo + j * step {
      AtSelected(length, low, high, step, j);
    }
  }

  lemma SelectedAt(length: nat, low: Option<int>, high: Option<int>, step: int, x: int) returns (j: nat)
    requires step != 0 && Int64(step) && Selected(length, low, high, step, x)
    ensures var r := Resolve(length, low, high, step); j < Size(r, step) && x == r.lo + j * step
  {
    hide Resolve, Start, Before;
    StartIsLo(length, low, high, step, x);
    var r := Resolve(length, low, high, step);
    j := OnProgression(r.lo, x, step);
    UpTo(Gap(r, step), Abs(step), j);
  }

  lemma OnProgression(lo: int, x: int, step: int) returns (j: nat)
    requires step != 0 && Abs(x - lo) % Abs(step) == 0 && (if step > 0 then x >= lo else x <= lo)
    ensures x == lo + j * step && j * Abs(step) == Abs(x - lo)
  {
    var y, p := Abs(x - lo), Abs(step);
    j := y / p;
    assert y == p * j + y % p;
    Signed(j, step);
  }

  lemma AtSelected(length: nat, low: Option<int>, high: Option<int>, step: int, j: nat)
    requires step != 0 && Int64(step) && j < Size(Resolve(length, low, high, step), step)
    ensures Selected(length, low, high, step, Resolve(length, low, high, step).lo + j * step)
  {
    var r, p := Resolve(length, low, high, step), Abs(step);
    Signed(j, step);
    UpTo(Gap(r, step), p, j);
    MulLe(0, j, p);
    assert (j + 1) * p == j * p + p;
    DivIs(j * p, p, j);
    InGap(length, low, high, step, j * p);
  }

  lemma InGap(length: nat, low: Option<int>, high: Option<int>, step: int, y: nat)
    requires step != 0 && Int64(step) && y < Gap(Resolve(length, low, high, step), step) && y % Abs(step) == 0
    ensures var lo := Resolve(length, low, high, step).lo;
      Selected(length, low, high, step, if step > 0 then lo + y else lo - y)
  {
  }

  lemma StartIsLo(length: nat, low: Option<int>, high: Option<int>, step: int, x: int)
    requires step != 0 && Int64(step) && Selected(length, low, high, step, x)
    ensures var r := Resolve(length, low, high, step);
      Start(length, low, step) == r.lo && Abs(x - r.lo) < Gap(r, step) && (if step > 0 then x >= r.lo else x <= r.lo)
  {
  }

  // ---- the slice itself ----

  /** The elements at `lo`, `lo + step`, and so on, `n` of them. */
  ghost function Progression<T>(s: seq<T>, lo: int, step: int, n: nat): seq<T>
    requires forall j :: 0 <= j < n ==> 0 <= lo + j * step < |s|
  {
    seq(n, j requires 0 <= j < n => s[lo + j * step])
  }

  lemma Inside(length: nat, low: Option<int>, high: Option<int>, step: int)
    requires step != 0 && Int64(step)
    ensures var r := Resolve(length, low, high, step);
      forall j :: 0 <= j < Size(r, step) ==> 0 <= r.lo + j * step < length
  {
    hide Resolve, Size;
    var r := Resolve(length, low, high, step);
    forall j | 0 <= j < Size(r, step) ensures 0 <= r.lo + j * step < length {
      AtSelected(length, low, high, step, j);
      SelectedInside(length, low, high, step, r.lo + j * step);
    }
  }

  lemma SelectedInside(length: nat, low: Option<int>, high: Option<int>, step: int, x: int)
    requires step != 0 && Selected(length, low, high, step, x)
    ensures 0 <= x < length
  {
  }

  /** When the computed size is the true one. */
  predicate SumFits(r: Range, step: int) {
    Gap(r, step) <= 0 || Gap(r, step) + Abs(step) - 1 <= MAX || (step == MIN && Gap(r, step) == 1)
  }

  /** A bound of a plain slice: from the end when negative, and never outside. */
  function Bound(length: int, bound: Option<int>, missing: int): (r: int)
    requires 0 <= missing <= length
    ensures 0 <= r <= length
  {
    match bound
    case None => missing
    case Some(x) => if x >= length then length else if x >= 0 then x else if x >= -length then length + x else 0
  }

  lemma OneStep(length: nat, low: Option<int>, high: Option<int>)
    requires length <= MAX
    ensures var r := Resolve(length, low, high, 1);
      var a, b := Bound(length, low, 0), Bound(length, high, length);
      (a < b ==> r.lo == a) && Size(r, 1) == (if a < b then b - a else 0) && SumFits(r, 1)
  {
    hide CDiv, Wrap;
    assert forall d: nat :: d > 0 ==> Rounds(d, 1) == d;
  }

  /** Without a step, what is selected is one stretch of the sequence. */
  lemma Contiguous<T>(s: seq<T>, low: Option<int>, high: Option<int>)
    requires |s| <= MAX
    ensures var r := Resolve(|s|, low, high, 1);
      && SumFits(r, 1) && (forall j :: 0 <= j < Size(r, 1) ==> 0 <= r.lo + j * 1 < |s|)
      && var a, b := Bound(|s|, low, 0), Bound(|s|, high, |s|);
         Progression(s, r.lo, 1, Size(r, 1)) == if a < b then s[a..b] else []
  {
    hide Resolve, Size, SumFits, Bound;
    Inside(|s|, low, high, 1);
    OneStep(|s|, low, high);
  }

  /** `s[-k:]` is the last `k` elements, and `s[:-k]` the others. */
  lemma LastOnes<T>(s: seq<T>, k: int)
    requires 0 < k <= |s| <= MAX
    ensures var r := Resolve(|s|, Some(-k), None, 1);
      && (forall j :: 0 <= j < Size(r, 1) ==> 0 <= r.lo + j * 1 < |s|)
      && Progression(s, r.lo, 1, Size(r, 1)) == s[|s| - k..]
    ensures var r := Resolve(|s|, None, Some(-k), 1);
      && (forall j :: 0 <= j < Size(r, 1) ==> 0 <= r.lo + j * 1 < |s|)
      && Progression(s, r.lo, 1, Size(r, 1)) == s[..|s| - k]
  {
    hide Resolve, Size, Progression, Bound, SumFits;
    var n := |s|;
    Contiguous(s, Some(-k), None);
    Contiguous(s, None, Some(-k));
    Ends(n, k);
    assert s[n - k..n] == s[n - k..] && s[0..n - k] == s[..n - k];
    if k == n { assert s[..0] == []; }
  }

  lemma Ends(n: int, k: int)
    requires 0 < k <= n
    ensures Bound(n, Some(-k), 0) == Bound(n, Some(-k), n) == n - k && Bound(n, None, 0) == 0 && Bound(n, None, n) == n
  {
  }

  /** None where the runtime stops the program: a step of zero. */
  method Slice<T>(s: seq<T>, low: Option<int>, high: Option<int>, step: Option<int>) returns (out: Option<seq<T>>)
    requires |s| <= MAX && Int64Opt(low) && Int64Opt(high) && Int64Opt(step)
    ensures out.None? <==> step == Some(0)
    ensures step != Some(0) ==>
      var st := if step.Some? then step.value else 1;
      var r := Resolve(|s|, low, high, st);
      && (forall j :: 0 <= j < Size(r, st) ==> 0 <= r.lo + j * st < |s|)
      && (out.value == Progression(s, r.lo, st, Size(r, st)) <==> SumFits(r, st))
      && (!SumFits(r, st) ==> out.value == [])
    ensures step == None || step == Some(1) ==>
      var a, b := Bound(|s|, low, 0), Bound(|s|, high, |s|);
      out.value == if a < b then s[a..b] else []
  {
    hide Resolve, Size, Bound;
    var st := if step.Some? then step.value else 1;
    if st == 0 { return None; }
    var r := Resolve(|s|, low, high, st);
    if st == MIN { SizeAtMin(|s|, low, high); } else { SizeExact(|s|, low, high, st); }
    Inside(|s|, low, high, st);
    if st == 1 { Contiguous(s, low, high); }
    if r.count <= 0 { return Some([]); }
    if st == 1 {
      FastPath(s, r.lo, r.count);
      return Some(s[r.lo..r.lo + r.count]);
    }
    var buf: seq<T> := [];
    var i, j := r.lo, 0;
    while j < r.count
      invariant 0 <= j <= r.count == Size(r, st) && |buf| == j
      invariant j < r.count ==> i == r.lo + j * st
      invariant forall k :: 0 <= k < j ==> buf[k] == s[r.lo + k * st]
    {
      assert 0 <= i < |s|;
      buf := buf + [s[i]];
      NextIndex(r.lo, j, st);
      i := Wrap(i + st);
      j := j + 1;
    }
    assert buf == Progression(s, r.lo, st, r.count);
    return Some(buf);
  }

  lemma NextIndex(lo: int, j: int, st: int)
    ensures lo + (j + 1) * st == lo + j * st + st
  {
  }

  lemma FastPath<T>(s: seq<T>, lo: int, n: nat)
    requires n > 0 && forall j :: 0 <= j < n ==> 0 <= lo + j * 1 < |s|
    ensures 0 <= lo && lo + n <= |s| && s[lo..lo + n] == Progression(s, lo, 1, n)
  {
    assert lo + 0 * 1 >= 0 && lo + (n - 1) * 1 < |s|;
  }

  /** `s[::-1]` takes every element, last first, and doing it twice gives `s` back. */
  lemma ReverseTwice<T>(s: seq<T>)
    ensures var r := Resolve(|s|, None, None, -1); r.lo == |s| - 1 && Size(r, -1) == |s|
    ensures Progression(Progression(s, |s| - 1, -1, |s|), |s| - 1, -1, |s|) == s
  {
    var t := Progression(s, |s| - 1, -1, |s|);
    assert forall j :: 0 <= j < |s| ==> t[j] == s[|s| - 1 - j];
    var u := Progression(t, |t| - 1, -1, |t|);
    forall j | 0 <= j < |s| ensures u[j] == s[j] {
      assert u[j] == t[|s| - 1 + j * -1];
    }
  }
}
