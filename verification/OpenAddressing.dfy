/**
 Open addressing with linear probing, on plain sequences: what makes a table
 searchable, and why emptying a slot and putting the rest of its run back in keeps
 it so. The hash is any function of the key; equal keys have equal hashes.
 */
module OpenAddressing {
  datatype Slot<K, V> = Free | Used(key: K, val: V)

  /** Steps forward from slot `a` to slot `b`, going round the end. */
  function Dist(cap: nat, a: nat, b: nat): nat
    requires a < cap && b < cap
  {
    if a <= b then b - a else b - a + cap
  }

  lemma SlotAt(cap: nat, h: nat, i: nat)
    requires h < cap && i < cap
    ensures 0 <= (h + i) % cap < cap && Dist(cap, h, (h + i) % cap) == i
  {
    assert (h + i) % cap == if h + i < cap then h + i else h + i - cap by {
      if h + i >= cap { ModOnce(h + i - cap, cap); }
    }
  }

  lemma ModOnce(x: nat, cap: nat)
    requires x < cap
    ensures (x + cap) % cap == x
  {
    assert (x + cap) / cap == 1;
  }

  function Home<K>(hash: K -> nat, k: K, cap: nat): nat
    requires cap > 0
    ensures Home(hash, k, cap) < cap
  {
    hash(k) % cap
  }

  ghost predicate Unique<K, V>(s: seq<Slot<K, V>>) {
    forall i, j :: 0 <= i < j < |s| && s[i].Used? && s[j].Used? ==> s[i].key != s[j].key
  }

  /** Every slot from `h` up to but not including `i` is used. */
  ghost predicate Run<K, V>(s: seq<Slot<K, V>>, h: nat, i: nat)
    requires h < |s| && i < |s|
  {
    forall x :: 0 <= x < |s| && Dist(|s|, h, x) < Dist(|s|, h, i) ==> s[x].Used?
  }

  ghost predicate Reached<K, V>(s: seq<Slot<K, V>>, hash: K -> nat, i: nat)
    requires i < |s|
  {
    s[i].Used? ==> Run(s, Home(hash, s[i].key, |s|), i)
  }

  /** Each key is found by going forward from its home slot over used slots. */
  ghost predicate Linked<K, V>(s: seq<Slot<K, V>>, hash: K -> nat) {
    forall i :: 0 <= i < |s| ==> Reached(s, hash, i)
  }

  ghost function Keys<K, V>(s: seq<Slot<K, V>>): set<K> {
    set i | 0 <= i < |s| && s[i].Used? :: s[i].key
  }

  /** What the table holds, as a finite map. */
  ghost function Contents<K, V>(s: seq<Slot<K, V>>): map<K, V>
    requires Unique(s)
  {
    map i | 0 <= i < |s| && s[i].Used? :: s[i].key := s[i].val
  }

  function Count<K, V>(s: seq<Slot<K, V>>): nat {
    if s == [] then 0 else (if s[0].Used? then 1 else 0) + Count(s[1..])
  }

  // ---- counting ----

  lemma {:induction false} CountUpdate<K, V>(s: seq<Slot<K, V>>, i: nat, e: Slot<K, V>)
    requires i < |s|
    ensures Count(s[i := e]) == Count(s) - (if s[i].Used? then 1 else 0) + (if e.Used? then 1 else 0)
  {
    if i > 0 {
      CountUpdate(s[1..], i - 1, e);
      assert s[i := e][1..] == s[1..][i - 1 := e];
    } else {
      assert s[i := e][1..] == s[1..];
    }
  }

  lemma {:induction false} CountFree<K, V>(s: seq<Slot<K, V>>)
    requires forall i :: 0 <= i < |s| ==> s[i].Free?
    ensures Count(s) == 0
  {
    if s != [] { CountFree(s[1..]); }
  }

  /** A table that is not full has a free slot. */
  lemma {:induction false} SomeFree<K, V>(s: seq<Slot<K, V>>) returns (i: nat)
    requires Count(s) < |s|
    ensures i < |s| && s[i].Free?
  {
    if s[0].Free? {
      i := 0;
    } else {
      i := SomeFree(s[1..]);
      i := i + 1;
    }
  }

  /** The number of used slots is the number of keys. */
  lemma {:induction false} CountKeys<K, V>(s: seq<Slot<K, V>>)
    requires Unique(s)
    ensures |Keys(s)| == Count(s) && Contents(s).Keys == Keys(s) && |Contents(s)| == Count(s)
  {
    if s != [] {
      CountKeys(s[1..]);
      KeysFirst(s);
    }
    assert Contents(s).Keys == Keys(s);
    assert |Contents(s)| == |Contents(s).Keys|;
  }

  lemma KeysFirst<K, V>(s: seq<Slot<K, V>>)
    requires Unique(s) && s != []
    ensures Unique(s[1..])
    ensures s[0].Free? ==> Keys(s) == Keys(s[1..])
    ensures s[0].Used? ==> s[0].key !in Keys(s[1..]) && Keys(s) == Keys(s[1..]) + {s[0].key}
  {
    var tail := s[1..];
    assert forall i :: 0 <= i < |tail| ==> tail[i] == s[i + 1];
    forall k ensures k in Keys(s) <==> k in Keys(tail) || (s[0].Used? && k == s[0].key) {
      if k in Keys(s) {
        var i :| 0 <= i < |s| && s[i].Used? && s[i].key == k;
        if i > 0 { assert tail[i - 1].key == k; }
      }
    }
  }

  // ---- searching ----

  /** Probing from the home of `k` over other keys to a free slot: `k` is not there. */
  lemma NotThere<K, V>(s: seq<Slot<K, V>>, hash: K -> nat, k: K, t: nat)
    requires t < |s| && Linked(s, hash) && s[t].Free?
    requires forall x :: 0 <= x < |s| && Dist(|s|, Home(hash, k, |s|), x) < Dist(|s|, Home(hash, k, |s|), t) ==>
      s[x].Used? && s[x].key != k
    ensures k !in Keys(s)
  {
    forall i | 0 <= i < |s| && s[i].Used? ensures s[i].key != k {
      assert Reached(s, hash, i);
    }
  }

  /** A new key in the first free slot from its home. */
  lemma Placed<K, V>(s: seq<Slot<K, V>>, hash: K -> nat, k: K, v: V, t: nat)
    requires Unique(s) && t < |s| && s[t].Free? && k !in Keys(s)
    ensures Unique(s[t := Used(k, v)])
    ensures Keys(s[t := Used(k, v)]) == Keys(s) + {k} && Contents(s[t := Used(k, v)]) == Contents(s)[k := v]
    ensures Count(s[t := Used(k, v)]) == Count(s) + 1
    ensures Linked(s, hash) && Run(s, Home(hash, k, |s|), t) ==> Linked(s[t := Used(k, v)], hash)
  {
    var s2 := s[t := Used(k, v)];
    CountUpdate(s, t, Used(k, v));
    assert forall i :: 0 <= i < |s| && s[i].Used? ==> s[i].key in Keys(s);
    forall x ensures x in Keys(s2) <==> x in Keys(s) + {k} {
      if x in Keys(s) {
        var i :| 0 <= i < |s| && s[i].Used? && s[i].key == x;
        assert s2[i].key == x;
      }
      if x == k { assert s2[t].key == k; }
    }
    ContentsPlaced(s, k, v, t);
    if Linked(s, hash) && Run(s, Home(hash, k, |s|), t) {
      forall i | 0 <= i < |s| ensures Reached(s2, hash, i) {
        assert Reached(s, hash, i);
      }
    }
  }

  lemma ContentsPlaced<K, V>(s: seq<Slot<K, V>>, k: K, v: V, t: nat)
    requires Unique(s) && t < |s| && s[t].Free? && Unique(s[t := Used(k, v)])
    ensures Contents(s[t := Used(k, v)]) == Contents(s)[k := v]
  {
    var s2 := s[t := Used(k, v)];
    assert forall i :: 0 <= i < |s| && i != t ==> s2[i] == s[i];
    assert s2[t] == Used(k, v);
    forall x ensures x in Contents(s2) <==> x in Contents(s)[k := v] {
      if x in Contents(s) {
        var i :| 0 <= i < |s| && s[i].Used? && s[i].key == x;
        assert s2[i].key == x;
      }
    }
  }

  /** A new value for a key that is there. */
  lemma Overwritten<K, V>(s: seq<Slot<K, V>>, hash: K -> nat, t: nat, v: V)
    requires Unique(s) && t < |s| && s[t].Used?
    ensures var s2 := s[t := Used(s[t].key, v)];
      && Unique(s2) && Contents(s2) == Contents(s)[s[t].key := v] && Count(s2) == Count(s)
      && (Linked(s, hash) ==> Linked(s2, hash))
  {
    var k := s[t].key;
    var s2 := s[t := Used(k, v)];
    CountUpdate(s, t, Used(k, v));
    assert forall i :: 0 <= i < |s| ==> (s2[i].Used? <==> s[i].Used?) && (s[i].Used? ==> s2[i].key == s[i].key);
    assert s2[t] == Used(k, v);
    forall x ensures x in Contents(s2) <==> x in Contents(s)[k := v] {
      if x in Contents(s) {
        var i :| 0 <= i < |s| && s[i].Used? && s[i].key == x;
        assert s2[i].key == x;
      }
    }
    if Linked(s, hash) {
      forall i | 0 <= i < |s| ensures Reached(s2, hash, i) {
        assert Reached(s, hash, i);
      }
    }
  }

  // ---- removing ----

  /** The first free slot at or after `p`. */
  lemma {:induction false} FirstFree<K, V>(s: seq<Slot<K, V>>, p: nat, d: nat) returns (q: nat)
    requires p < |s| && d < |s| && s[(p + d) % |s|].Free?
    ensures q < |s| && s[q].Free? && Run(s, p, q)
    decreases d
  {
    SlotAt(|s|, p, d);
    q := (p + d) % |s|;
    if x :| 0 <= x < |s| && Dist(|s|, p, x) < d && s[x].Free? {
      SlotAt(|s|, p, Dist(|s|, p, x));
      SameDist(|s|, p, x, (p + Dist(|s|, p, x)) % |s|);
      q := FirstFree(s, p, Dist(|s|, p, x));
    }
  }

  lemma SameDist(cap: nat, p: nat, x: nat, y: nat)
    requires p < cap && x < cap && y < cap && Dist(cap, p, x) == Dist(cap, p, y)
    ensures x == y
  {
  }

  /** Slots are emptied in the run that starts at `p` and ends at the free slot `q`; a
      key outside the part still to be put back is reached without the slot `x`. */
  lemma Avoids(cap: nat, p: nat, q: nat, x: nat, h: nat, i: nat)
    requires p < cap && q < cap && x < cap && h < cap && i < cap && i != q
    requires Dist(cap, p, x) < Dist(cap, p, q)
    requires Dist(cap, p, i) <= Dist(cap, p, x) || Dist(cap, p, i) >= Dist(cap, p, q)
    requires Dist(cap, h, q) >= Dist(cap, h, i)
    ensures Dist(cap, h, x) >= Dist(cap, h, i)
  {
  }

  /** Mid-removal: `s0` is the table before; the slots from offset `j` on are as they
      were, the removed key is gone, and what is not waiting to be put back is reached. */
  ghost predicate Relinking<K, V>(s0: seq<Slot<K, V>>, s: seq<Slot<K, V>>, hash: K -> nat, p: nat, q: nat, j: nat)
    requires p < |s0| && q < |s0|
  {
    && |s| == |s0| && s0[p].Used? && s0[q].Free? && Run(s0, p, q)
    && 1 <= j <= Dist(|s|, p, q)
    && (forall x :: 0 <= x < |s| && Dist(|s|, p, x) >= j ==> s[x] == s0[x])
    && Unique(s) && Keys(s) == Keys(s0) - {s0[p].key} && Count(s) == Count(s0) - 1
    && (forall i :: 0 <= i < |s| && (Dist(|s|, p, i) < j || Dist(|s|, p, i) >= Dist(|s|, p, q)) ==> Reached(s, hash, i))
  }

  lemma KeysWithout<K, V>(s: seq<Slot<K, V>>, p: nat)
    requires Unique(s) && p < |s| && s[p].Used?
    ensures Unique(s[p := Free]) && Keys(s[p := Free]) == Keys(s) - {s[p].key}
    ensures Count(s[p := Free]) == Count(s) - 1
  {
    var s2 := s[p := Free];
    CountUpdate(s, p, Free);
    forall k ensures k in Keys(s2) <==> k in Keys(s) - {s[p].key} {
      if k in Keys(s) && k != s[p].key {
        var i :| 0 <= i < |s| && s[i].Used? && s[i].key == k;
        assert s2[i] == s[i];
      }
    }
  }

  lemma StartRelinking<K, V>(s0: seq<Slot<K, V>>, hash: K -> nat, p: nat, q: nat)
    requires Unique(s0) && Linked(s0, hash) && p < |s0| && q < |s0| && s0[p].Used? && s0[q].Free? && Run(s0, p, q)
    ensures Relinking(s0, s0[p := Free], hash, p, q, 1)
  {
    var s, cap := s0[p := Free], |s0|;
    KeysWithout(s0, p);
    forall i | 0 <= i < cap && (Dist(cap, p, i) < 1 || Dist(cap, p, i) >= Dist(cap, p, q)) ensures Reached(s, hash, i) {
      if s[i].Used? {
        assert Reached(s0, hash, i);
        Avoids(cap, p, q, p, Home(hash, s0[i].key, cap), i);
      }
    }
  }

  /** One more entry of the run, the one in slot `x`, goes to the first free slot from
      its home. */
  lemma KeepRelinking<K, V>(s0: seq<Slot<K, V>>, s: seq<Slot<K, V>>,
                            hash: K -> nat, p: nat, q: nat, j: nat, x: nat, t: nat)
    requires p < |s0| && q < |s0| && x < |s0| && t < |s0| && Linked(s0, hash) && Relinking(s0, s, hash, p, q, j)
    requires Dist(|s|, p, x) == j < Dist(|s|, p, q)
    requires var s1 := s[x := Free]; s[x].Used? && s1[t].Free? && Run(s1, Home(hash, s[x].key, |s|), t)
    ensures Relinking(s0, s[x := Free][t := s[x]], hash, p, q, j + 1)
  {
    hide Keys, Unique, Count, Run, Reached, Linked;
    var cap, s1, h := |s|, s[x := Free], Home(hash, s[x].key, |s|);
    var s2 := s1[t := s[x]];
    KeysWithout(s, x);
    Placed(s1, hash, s[x].key, s[x].val, t);
    PutBack(s, s1, s2, x);
    BackBefore(s0, s, hash, p, q, j, x, t);
    forall i | 0 <= i < cap && (Dist(cap, p, i) < j + 1 || Dist(cap, p, i) >= Dist(cap, p, q))
      ensures Reached(s2, hash, i) {
      StillReached(s0, s, hash, p, q, j, x, t, i);
    }
  }

  lemma StillReached<K, V>(s0: seq<Slot<K, V>>, s: seq<Slot<K, V>>,
                           hash: K -> nat, p: nat, q: nat, j: nat, x: nat, t: nat, i: nat)
    requires p < |s0| && q < |s0| && x < |s0| && t < |s0| && Relinking(s0, s, hash, p, q, j)
    requires Dist(|s|, p, x) == j < Dist(|s|, p, q)
    requires var s1 := s[x := Free]; s[x].Used? && s1[t].Free? && Run(s1, Home(hash, s[x].key, |s|), t)
    requires i < |s| && (Dist(|s|, p, i) < j + 1 || Dist(|s|, p, i) >= Dist(|s|, p, q))
    ensures Reached(s[x := Free][t := s[x]], hash, i)
  {
    hide Keys, Unique, Count;
    var cap, s2 := |s|, s[x := Free][t := s[x]];
    if i != t && s2[i].Used? {
      assert i != x && s2[i] == s[i];
      if Dist(cap, p, i) == j {
        SameDist(cap, p, i, x);
      } else {
        assert Reached(s, hash, i);
        Avoids(cap, p, q, x, Home(hash, s[i].key, cap), i);
      }
    }
  }

  lemma PutBack<K, V>(s: seq<Slot<K, V>>, s1: seq<Slot<K, V>>, s2: seq<Slot<K, V>>, x: nat)
    requires x < |s| && s[x].Used? && Keys(s1) == Keys(s) - {s[x].key} && Keys(s2) == Keys(s1) + {s[x].key}
    ensures Keys(s2) == Keys(s)
  {
    assert s[x].key in Keys(s);
  }

  /** The entry goes no further than where it was. */
  lemma BackBefore<K, V>(s0: seq<Slot<K, V>>, s: seq<Slot<K, V>>,
                         hash: K -> nat, p: nat, q: nat, j: nat, x: nat, t: nat)
    requires p < |s0| && q < |s0| && x < |s0| && t < |s0| && Linked(s0, hash) && Relinking(s0, s, hash, p, q, j)
    requires Dist(|s|, p, x) == j < Dist(|s|, p, q)
    requires var s1 := s[x := Free]; s[x].Used? && s1[t].Free? && Run(s1, Home(hash, s[x].key, |s|), t)
    ensures Dist(|s|, p, t) <= j
  {
    hide Keys, Unique, Count;
    var cap, h := |s|, Home(hash, s[x].key, |s|);
    assert s[x] == s0[x] && Reached(s0, hash, x);
    assert t != x ==> Dist(cap, h, t) < Dist(cap, h, x);
    assert t != x ==> s0[t].Used?;
  }

  lemma RelinkingDone<K, V>(s0: seq<Slot<K, V>>, s: seq<Slot<K, V>>, hash: K -> nat, p: nat, q: nat)
    requires p < |s0| && q < |s0| && Relinking(s0, s, hash, p, q, Dist(|s0|, p, q))
    ensures Linked(s, hash)
  {
    hide Keys, Unique, Count, Run, Reached;
    var end := Dist(|s0|, p, q);
    assert forall i :: 0 <= i < |s| ==> Dist(|s|, p, i) < end || Dist(|s|, p, i) >= end;
  }
}
