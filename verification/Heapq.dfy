/**
 The binary heap of the standard library: a list whose elements the sift routines
 move by carrying a hole up or down.
 */
module Heapq {
  import opened Common

  function Parent(i: nat): nat
    requires i > 0
    ensures Parent(i) < i
  {
    (i - 1) / 2
  }

  /** `i` is in the subtree rooted at `r`. */
  predicate Below(r: nat, i: nat) { i == r || (i > r && Below(r, Parent(i))) }

  /** The subtree rooted at `r` is a heap. */
  ghost predicate HeapAt(s: seq<int>, r: nat) {
    forall i {:trigger Parent(i)} :: 0 < i < |s| && Below(r, Parent(i)) ==> s[Parent(i)] <= s[i]
  }

  /** The subtrees of the children of `r` are heaps. */
  ghost predicate HeapUnder(s: seq<int>, r: nat) {
    forall i {:trigger Parent(i)} :: 0 < i < |s| && Below(r, Parent(i)) && Parent(i) != r ==> s[Parent(i)] <= s[i]
  }

  ghost predicate IsHeap(s: seq<int>) {
    forall i {:trigger Parent(i)} :: 0 < i < |s| ==> s[Parent(i)] <= s[i]
  }

  ghost predicate Minimum(x: int, s: seq<int>) { forall i :: 0 <= i < |s| ==> x <= s[i] }

  /** Only the subtree rooted at `r` was touched. */
  ghost predicate Outside(s: seq<int>, t: seq<int>, r: nat) {
    |s| == |t| && forall i :: 0 <= i < |s| && !Below(r, i) ==> t[i] == s[i]
  }

  // ---- trees ----

  lemma {:induction false} AllBelowRoot(i: nat)
    ensures Below(0, i)
  {
    if i > 0 { AllBelowRoot(Parent(i)); }
  }

  lemma RootHeap(s: seq<int>)
    ensures HeapAt(s, 0) <==> IsHeap(s)
  {
    forall i | 0 < i < |s| ensures Below(0, Parent(i)) { AllBelowRoot(Parent(i)); }
  }

  lemma {:induction false} RootIsLeast(s: seq<int>, i: nat)
    requires IsHeap(s) && i < |s|
    ensures s[0] <= s[i]
  {
    if i > 0 { RootIsLeast(s, Parent(i)); }
  }

  lemma RootIsMinimum(s: seq<int>)
    requires IsHeap(s) && s != []
    ensures Minimum(s[0], s)
  {
    forall i | 0 <= i < |s| ensures s[0] <= s[i] { RootIsLeast(s, i); }
  }

  // ---- a heap with a hole ----

  /** Below `r` everything is in order but for the hole at `p`, whose value does not
      count; what hangs under the hole is not less than what is above it. */
  ghost predicate Holed(s: seq<int>, r: nat, p: nat) {
    && Below(r, p) && p < |s|
    && (forall i {:trigger Parent(i)} :: 0 < i < |s| && Below(r, Parent(i)) && i != p && Parent(i) != p ==>
        s[Parent(i)] <= s[i])
    && (p != r ==> p > r && forall c {:trigger Parent(c)} :: 0 < c < |s| && Parent(c) == p ==> s[Parent(p)] <= s[c])
  }

  ghost predicate FitsOver(s: seq<int>, p: nat, x: int) {
    forall c {:trigger Parent(c)} :: 0 < c < |s| && Parent(c) == p ==> x <= s[c]
  }

  lemma HoleDown(s: seq<int>, r: nat, p: nat, c: nat)
    requires Holed(s, r, p) && 0 < c < |s| && Parent(c) == p
    requires forall d {:trigger Parent(d)} :: 0 < d < |s| && Parent(d) == p ==> s[c] <= s[d]
    ensures Holed(s[p := s[c]], r, c)
  {
  }

  lemma HoleUp(s: seq<int>, r: nat, p: nat, x: int)
    requires Holed(s, r, p) && p > r && FitsOver(s, p, x) && x < s[Parent(p)]
    ensures Holed(s[p := s[Parent(p)]], r, Parent(p)) && FitsOver(s[p := s[Parent(p)]], Parent(p), x)
  {
  }

  lemma HoleFilled(s: seq<int>, r: nat, p: nat, x: int)
    requires Holed(s, r, p) && FitsOver(s, p, x) && (p != r ==> s[Parent(p)] <= x)
    ensures HeapAt(s[p := x], r)
  {
  }

  lemma HoleAbove(s: seq<int>, r: nat, p: nat)
    requires Holed(s, r, p)
    ensures r <= p < |s| && Below(r, p)
  {
  }

  lemma NothingOutside(s: seq<int>, r: nat)
    ensures Outside(s, s, r)
  {
  }

  /** Moving the hole keeps the elements, the carried one included. */
  lemma SameElements(s: seq<int>, p: nat, c: nat, x: int)
    requires p < |s| && c < |s| && p != c
    ensures multiset(s[p := s[c]][c := x]) == multiset(s[p := x])
  {
  }

  class Heap {
    var items: seq<int>

    constructor (items: seq<int>)
      ensures this.items == items
    {
      this.items := items;
    }

    /** Carries the element at `pos` up, no higher than `startpos`. */
    method SiftDown(startpos: nat, pos: nat)
      requires pos < |items| && Holed(items, startpos, pos) && FitsOver(items, pos, items[pos])
      modifies this
      ensures HeapAt(items, startpos) && Outside(old(items), items, startpos)
      ensures multiset(items) == multiset(old(items))
    {
      hide Holed, HeapAt, Outside, Below, FitsOver;
      var newitem, p := items[pos], pos;
      assert items[p := newitem] == items;
      HoleAbove(items, startpos, p);
      NothingOutside(items, startpos);
      while p > startpos
        invariant startpos <= p < |items| && Holed(items, startpos, p) && FitsOver(items, p, newitem)
        invariant Outside(old(items), items, startpos)
        invariant multiset(items[p := newitem]) == multiset(old(items))
      {
        var parentpos := (p - 1) / 2;
        var parent := items[parentpos];
        if newitem < parent {
          HoleUp(items, startpos, p, newitem);
          SameElements(items, p, parentpos, newitem);
          Untouched(old(items), items, startpos, p, parent);
          items := items[p := parent];
          p := parentpos;
          HoleAbove(items, startpos, p);
        } else {
          break;
        }
      }
      HoleFilled(items, startpos, p, newitem);
      Untouched(old(items), items, startpos, p, newitem);
      items := items[p := newitem];
    }

    /** Carries a hole from `pos` down along the smaller children to a leaf, puts the
        element there and carries it back up as far as it has to go. */
    method SiftUp(pos: nat)
      requires pos < |items| && HeapUnder(items, pos)
      modifies this
      ensures HeapAt(items, pos) && Outside(old(items), items, pos)
      ensures multiset(items) == multiset(old(items))
    {
      hide Holed, HeapUnder, HeapAt, Outside, Below, FitsOver;
      HoleAtRoot(items, pos);
      var endpos, startpos, newitem := |items|, pos, items[pos];
      var childpos, p := 2 * pos + 1, pos;
      assert items[p := newitem] == items;
      while childpos < endpos
        invariant childpos == 2 * p + 1 && |items| == endpos && p < endpos
        invariant Holed(items, startpos, p) && Outside(old(items), items, startpos)
        invariant multiset(items[p := newitem]) == multiset(old(items))
        decreases endpos - p
      {
        var rightpos := childpos + 1;
        if rightpos < endpos {
          if !(items[childpos] < items[rightpos]) { childpos := rightpos; }
        }
        SmallerChild(items, p, childpos);
        HoleDown(items, startpos, p, childpos);
        Untouched(old(items), items, startpos, p, items[childpos]);
        SameElements(items, p, childpos, newitem);
        items := items[p := items[childpos]];
        p := childpos;
        childpos := 2 * p + 1;
      }
      PutInHole(items, startpos, p, newitem);
      Untouched(old(items), items, startpos, p, newitem);
      items := items[p := newitem];
      ghost var mid := items;
      SiftDown(startpos, p);
      OutsideTwice(old(items), mid, items, startpos);
    }

    method HeapPush(item: int)
      requires IsHeap(items)
      modifies this
      ensures IsHeap(items) && multiset(items) == multiset(old(items)) + multiset{item}
    {
      items := items + [item];
      PushedHole(old(items), item);
      SiftDown(0, |items| - 1);
      RootHeap(items);
    }

    /** None where the library raises IndexError. */
    method HeapPop() returns (r: Option<int>)
      requires IsHeap(items)
      modifies this
      ensures r.None? <==> old(items) == []
      ensures r.None? ==> items == old(items)
      ensures r.Some? ==> Minimum(r.value, old(items)) && IsHeap(items)
      ensures r.Some? ==> multiset(old(items)) == multiset(items) + multiset{r.value}
    {
      if |items| == 0 { return None; }
      var lastelt := items[|items| - 1];
      RootIsMinimum(items);
      assert items == items[..|items| - 1] + [lastelt];
      items := items[..|items| - 1];
      if |items| == 0 { return Some(lastelt); }
      var returnitem := items[0];
      ReplacedRoot(items, lastelt);
      items := items[0 := lastelt];
      SiftUp(0);
      RootHeap(items);
      return Some(returnitem);
    }

    method HeapReplace(item: int) returns (r: Option<int>)
      requires IsHeap(items)
      modifies this
      ensures r.None? <==> old(items) == []
      ensures r.None? ==> items == old(items)
      ensures r.Some? ==> Minimum(r.value, old(items)) && IsHeap(items)
      ensures r.Some? ==> multiset(old(items)) + multiset{item} == multiset(items) + multiset{r.value}
    {
      if |items| == 0 { return None; }
      RootIsMinimum(items);
      var returnitem := items[0];
      ReplacedRoot(items, item);
      items := items[0 := item];
      SiftUp(0);
      RootHeap(items);
      return Some(returnitem);
    }

    method HeapPushPop(item: int) returns (r: int)
      requires IsHeap(items)
      modifies this
      ensures IsHeap(items) && multiset(old(items)) + multiset{item} == multiset(items) + multiset{r}
      ensures Minimum(r, old(items)) && r <= item
    {
      r := item;
      if |items| > 0 {
        RootIsMinimum(items);
        if items[0] < item {
          r := items[0];
          ReplacedRoot(items, item);
          items := items[0 := item];
          SiftUp(0);
          RootHeap(items);
        }
      }
    }

    method Heapify()
      modifies this
      ensures IsHeap(items) && multiset(items) == multiset(old(items))
    {
      var n := |items|;
      var i := n / 2 - 1;
      while i >= 0
        invariant -1 <= i < n && |items| == n && OrderedFrom(items, i + 1)
        invariant multiset(items) == multiset(old(items))
      {
        ghost var before := items;
        SiftUp(i);
        OneMore(before, items, i);
        i := i - 1;
      }
    }
  }

  /** All parents from `lo` on are in order with their children. */
  ghost predicate OrderedFrom(s: seq<int>, lo: int) {
    forall i {:trigger Parent(i)} :: 0 < i < |s| && Parent(i) >= lo ==> s[Parent(i)] <= s[i]
  }

  lemma HoleAtRoot(s: seq<int>, r: nat)
    requires r < |s| && HeapUnder(s, r)
    ensures Holed(s, r, r) && Outside(s, s, r)
  {
  }

  lemma SmallerChild(s: seq<int>, p: nat, c: nat)
    requires c < |s| && (c == 2 * p + 1 || c == 2 * p + 2)
    requires forall d :: 2 * p + 1 <= d <= 2 * p + 2 && d < |s| ==> s[c] <= s[d]
    ensures Parent(c) == p && forall d {:trigger Parent(d)} :: 0 < d < |s| && Parent(d) == p ==> s[c] <= s[d]
  {
  }

  lemma Untouched(s: seq<int>, t: seq<int>, r: nat, p: nat, x: int)
    requires Outside(s, t, r) && Holed(t, r, p)
    ensures Outside(s, t[p := x], r)
  {
  }

  lemma OutsideTwice(s: seq<int>, t: seq<int>, u: seq<int>, r: nat)
    requires Outside(s, t, r) && Outside(t, u, r)
    ensures Outside(s, u, r)
  {
  }

  lemma PutInHole(s: seq<int>, r: nat, p: nat, x: int)
    requires Holed(s, r, p) && 2 * p + 1 >= |s|
    ensures Holed(s[p := x], r, p) && FitsOver(s[p := x], p, x)
  {
  }

  lemma PushedHole(s: seq<int>, item: int)
    requires IsHeap(s)
    ensures Holed(s + [item], 0, |s|) && FitsOver(s + [item], |s|, item)
  {
    AllBelowRoot(|s|);
  }

  lemma ReplacedRoot(s: seq<int>, x: int)
    requires IsHeap(s) && s != []
    ensures HeapUnder(s[0 := x], 0)
  {
  }

  lemma OneMore(s: seq<int>, t: seq<int>, r: nat)
    requires OrderedFrom(s, r + 1) && HeapAt(t, r) && Outside(s, t, r)
    ensures OrderedFrom(t, r)
  {
  }
}
