/**
 The runtime's map and set. Both grow in place by doubling; the set also removes,
 without tombstones.
 */
module HashTables {
  import opened Common
  import opened OpenAddressing

  const INIT_CAP := 16

  /** Capacities are 16 times a power of two, so the load test is exact in doubles. */
  predicate Doubling(cap: nat) {
    cap == INIT_CAP || (cap > INIT_CAP && cap % 2 == 0 && Doubling(cap / 2))
  }

  /** One more entry would make the table more than three quarters full. */
  predicate Crowded(len: nat, cap: nat) { 4 * (len + 1) > 3 * cap }

  class HashMap<K(==), V> {
    const hash: K -> nat
    var len: nat
    var cap: nat
    var entries: array<Slot<K, V>>

    ghost predicate Valid() reads this, entries {
      && cap == entries.Length && Doubling(cap) && cap >= INIT_CAP && 4 * len <= 3 * cap
      && len == Count(entries[..]) && Unique(entries[..]) && Linked(entries[..], hash)
    }

    ghost function View(): map<K, V> reads this, entries requires Valid() { Contents(entries[..]) }

    constructor (hash: K -> nat)
      ensures Valid() && fresh(entries) && View() == map[] && this.hash == hash && cap == 16 && len == 0
    {
      this.hash, len, cap := hash, 0, INIT_CAP;
      entries := new Slot<K, V>[INIT_CAP](_ => Free);
      new;
      CountFree(entries[..]);
    }

    /** Where probing for `key` stops: at its slot, or at the free slot that ends its run. */
    method Probe(key: K) returns (idx: nat)
      requires Valid()
      ensures idx < cap && Run(entries[..], Home(hash, key, cap), idx)
      ensures entries[idx].Used? ==> entries[idx].key == key
      ensures entries[idx].Free? <==> key !in View()
    {
      hide Unique, Linked, Count, Doubling;
      var h := hash(key) % cap;
      var i := 0;
      CountKeys(entries[..]);
      ghost var f := SomeFree(entries[..]);
      while i < cap
        invariant 0 <= i <= Dist(cap, h, f)
        invariant forall x :: 0 <= x < cap && Dist(cap, h, x) < i ==> entries[x].Used? && entries[x].key != key
      {
        idx := (h + i) % cap;
        SlotAt(cap, h, i);
        if entries[idx].Free? {
          NotThere(entries[..], hash, key, idx);
          return;
        }
        if entries[idx].key == key {
          assert entries[..][idx].key == key;
          return;
        }
        forall x | 0 <= x < cap && Dist(cap, h, x) < i + 1 ensures entries[x].Used? && entries[x].key != key {
          if Dist(cap, h, x) == i { SameDist(cap, h, x, idx); }
        }
        i := i + 1;
      }
      assert false;
    }

    method Set(key: K, val: V)
      requires Valid()
      modifies this, entries
      ensures Valid() && View() == old(View())[key := val]
      ensures entries == old(entries) || fresh(entries)
      ensures cap == if old(4 * (len + 1) > 3 * cap) then 2 * old(cap) else old(cap)
      ensures len == old(len) + (if key in old(View()) then 0 else 1)
      decreases if Crowded(len, cap) then 2 else 0
    {
      hide Unique, Linked, Count, Doubling, Contents, Run;
      if Crowded(len, cap) { Resize(); }
      var idx := Probe(key);
      ghost var s := entries[..];
      if entries[idx].Free? {
        CountKeys(s);
        Placed(s, hash, key, val, idx);
        entries[idx] := Used(key, val);
        len := len + 1;
        assert entries[..] == s[idx := Used(key, val)];
      } else {
        Overwritten(s, hash, idx, val);
        entries[idx] := Used(key, val);
        assert entries[..] == s[idx := Used(key, val)];
      }
    }

    method Resize()
      requires Valid()
      modifies this, entries
      ensures Valid() && View() == old(View()) && cap == 2 * old(cap) && len == old(len)
      ensures fresh(entries)
      decreases 1
    {
      hide Unique, Linked, Contents, Run, Count;
      var oldCap, oldEntries := cap, entries;
      ghost var s := oldEntries[..];
      cap := cap * 2;
      entries := new Slot<K, V>[cap](_ => Free);
      len := 0;
      EmptyTable(entries[..], hash);
      NothingYet(s);
      var i := 0;
      while i < oldCap
        invariant 0 <= i <= oldCap && oldEntries[..] == s && entries != oldEntries && fresh(entries)
        invariant Valid() && cap == 2 * oldCap && len <= i && len == Count(s[..i])
        invariant Unique(s[..i]) && View() == Contents(s[..i])
      {
        NextSlot(s, i);
        if oldEntries[i].Used? {
          Set(oldEntries[i].key, oldEntries[i].val);
          CountKeys(entries[..]);
          CountKeys(s[..i + 1]);
        }
        i := i + 1;
      }
      assert s[..oldCap] == s;
    }

    /** None where the runtime stops the program with "key not found". */
    method Get(key: K) returns (r: Option<V>)
      requires Valid()
      ensures r == if key in View() then Some(View()[key]) else None
    {
      var idx := Probe(key);
      assert entries[..][idx] == entries[idx];
      if entries[idx].Free? { return None; }
      return Some(entries[idx].val);
    }

    method GetOr(key: K, def: V) returns (v: V)
      requires Valid()
      ensures v == if key in View() then View()[key] else def
    {
      var idx := Probe(key);
      assert entries[..][idx] == entries[idx];
      if entries[idx].Free? { return def; }
      return entries[idx].val;
    }

    method Contains(key: K) returns (r: bool)
      requires Valid()
      ensures r <==> key in View()
    {
      var idx := Probe(key);
      return entries[idx].Used?;
    }

    method Len() returns (n: nat)
      requires Valid()
      ensures n == |View()|
    {
      CountKeys(entries[..]);
      return len;
    }

    /** The next used slot after `prev`, or -1. */
    method Next(prev: int) returns (i: int)
      requires Valid() && -1 <= prev < cap
      ensures i == -1 || (prev < i < cap && entries[i].Used?)
      ensures forall x :: prev < x < (if i == -1 then cap else i) ==> entries[x].Free?
    {
      i := prev + 1;
      while i < cap
        invariant prev < i <= cap && forall x :: prev < x < i ==> entries[x].Free?
      {
        if entries[i].Used? { return; }
        i := i + 1;
      }
      return -1;
    }

    /** The walk that `for k in m` compiles to: every key once, with its value. */
    method Walk() returns (ks: seq<K>, vs: seq<V>)
      requires Valid()
      ensures |ks| == |vs| == |View()| && (set k | k in ks) == View().Keys
      ensures forall i, j :: 0 <= i < j < |ks| ==> ks[i] != ks[j]
      ensures forall i :: 0 <= i < |ks| ==> ks[i] in View() && View()[ks[i]] == vs[i]
    {
      hide Linked, Doubling, Unique, Contents, Keys, Count;
      ks, vs := [], [];
      ghost var s := entries[..];
      NothingYet(s);
      NoneListed(s);
      CountKeys(s);
      var i := Next(-1);
      ghost var done := 0;
      while i != -1
        invariant -1 <= i < cap && (i != -1 ==> entries[i].Used?)
        invariant 0 <= done <= cap && (i == -1 ==> forall x :: done <= x < cap ==> s[x].Free?)
        invariant i != -1 ==> done <= i && forall x :: done <= x < i ==> s[x].Free?
        invariant Unique(s[..done]) && Listed(s[..done], ks, vs)
        decreases if i == -1 then 0 else cap - i
      {
        SkipFree(s, done, i);
        NextSlot(s, i);
        ListOne(s[..done], s[..i], s[..i + 1], s[i], ks, vs);
        ks, vs := ks + [entries[i].key], vs + [entries[i].val];
        done := i + 1;
        i := Next(i);
      }
      SkipFree(s, done, cap);
      assert s[..cap] == s;
      AllListed(s, ks, vs);
    }

    /** A map may be extended with itself: that changes no binding, though the table may
        grow under the walk. */
    method Extend(src: HashMap<K, V>)
      requires Valid() && src.Valid() && (src == this || src.entries != entries) && src.hash == hash
      modifies this, entries
      ensures Valid() && View() == old(View()) + old(src.View())
      ensures src != this ==> src.entries[..] == old(src.entries[..])
      ensures entries == old(entries) || fresh(entries)
    {
      hide Linked, Doubling, Contents, Unique;
      ghost var s := src.entries[..];
      var i := 0;
      NothingYet(s);
      while i < src.cap
        invariant 0 <= i <= src.cap && Valid() && src.Valid() && (entries == old(entries) || fresh(entries))
        invariant src == this ==> View() == old(View())
        invariant src != this ==>
          && src.entries == old(src.entries) && src.cap == old(src.cap) && src.entries[..] == s
          && entries != src.entries
          && i <= |s| && Unique(s[..i]) && View() == old(View()) + Contents(s[..i])
        decreases src == this && Crowded(len, cap), src.cap - i
      {
        if src != this { NextSlot(s, i); }
        if src.entries[i].Used? {
          if src == this { Bound(i); }
          Set(src.entries[i].key, src.entries[i].val);
        }
        i := i + 1;
      }
      if src != this { assert s[..src.cap] == s; }
    }

    lemma Bound(i: nat)
      requires Valid() && i < cap && entries[i].Used?
      ensures entries[i].key in View() && View()[entries[i].key] == entries[i].val
    {
      assert entries[..][i] == entries[i];
    }

    method Clear()
      requires Valid()
      modifies this, entries
      ensures Valid() && View() == map[] && cap == old(cap)
    {
      var i := 0;
      while i < cap
        invariant 0 <= i <= cap == entries.Length && cap == old(cap) && entries == old(entries)
        invariant forall x :: 0 <= x < i ==> entries[x].Free?
      {
        entries[i] := Free;
        i := i + 1;
      }
      len := 0;
      CountFree(entries[..]);
    }
  }

  class HashSet<K(==)> {
    const hash: K -> nat
    var len: nat
    var cap: nat
    var entries: array<Slot<K, ()>>

    /** All of the invariant but reachability, which a removal breaks on the way. */
    ghost predicate Sized() reads this, entries {
      && cap == entries.Length && Doubling(cap) && cap >= INIT_CAP && 4 * len <= 3 * cap
      && len == Count(entries[..]) && Unique(entries[..])
    }

    ghost predicate Valid() reads this, entries { Sized() && Linked(entries[..], hash) }

    ghost function View(): set<K> reads this, entries { Keys(entries[..]) }

    constructor (hash: K -> nat)
      ensures Valid() && fresh(entries) && View() == {} && this.hash == hash && cap == 16 && len == 0
    {
      this.hash, len, cap := hash, 0, INIT_CAP;
      entries := new Slot<K, ()>[INIT_CAP](_ => Free);
      new;
      CountFree(entries[..]);
    }

    method Probe(key: K) returns (idx: nat)
      requires Sized() && (Valid() || key !in View())
      ensures idx < cap && Run(entries[..], Home(hash, key, cap), idx)
      ensures entries[idx].Used? ==> entries[idx].key == key
      ensures entries[idx].Free? <==> key !in View()
    {
      hide Unique, Linked, Count, Doubling;
      var h := hash(key) % cap;
      var i := 0;
      ghost var f := SomeFree(entries[..]);
      while i < cap
        invariant 0 <= i <= Dist(cap, h, f)
        invariant forall x :: 0 <= x < cap && Dist(cap, h, x) < i ==> entries[x].Used? && entries[x].key != key
      {
        idx := (h + i) % cap;
        SlotAt(cap, h, i);
        if entries[idx].Free? {
          if Valid() { NotThere(entries[..], hash, key, idx); }
          return;
        }
        if entries[idx].key == key {
          assert entries[..][idx].key == key;
          return;
        }
        forall x | 0 <= x < cap && Dist(cap, h, x) < i + 1 ensures entries[x].Used? && entries[x].key != key {
          if Dist(cap, h, x) == i { SameDist(cap, h, x, idx); }
        }
        i := i + 1;
      }
      assert false;
    }

    /** Also used in the middle of a removal, on a table where some keys are not
        reachable; then there is room, and `key` goes to the first free slot. */
    method Add(key: K)
      requires Sized() && (Valid() || (key !in View() && !Crowded(len, cap)))
      modifies this, entries
      ensures Sized() && View() == old(View()) + {key} && (old(Valid()) ==> Valid())
      ensures entries == old(entries) || fresh(entries)
      ensures cap == if old(4 * (len + 1) > 3 * cap) then 2 * old(cap) else old(cap)
      ensures len == old(len) + if key in old(View()) then 0 else 1
      ensures key !in old(View()) && !old(4 * (len + 1) > 3 * cap) ==> entries == old(entries)
      ensures key !in old(View()) && !old(4 * (len + 1) > 3 * cap) ==>
        exists t: nat :: t < cap && old(entries[..])[t].Free? && Run(old(entries[..]), Home(hash, key, cap), t)
                         && entries[..] == old(entries[..])[t := Used(key, ())]
      decreases if Crowded(len, cap) then 2 else 0
    {
      hide Unique, Linked, Count, Doubling, Keys, Run;
      if Crowded(len, cap) { Resize(); }
      var idx := Probe(key);
      ghost var s := entries[..];
      if entries[idx].Free? {
        Placed(s, hash, key, (), idx);
        entries[idx] := Used(key, ());
        len := len + 1;
        assert entries[..] == s[idx := Used(key, ())];
      }
    }

    method Resize()
      requires Valid()
      modifies this, entries
      ensures Valid() && View() == old(View()) && cap == 2 * old(cap) && len == old(len)
      ensures fresh(entries)
      decreases 1
    {
      hide Unique, Linked, Run, Count, Keys;
      var oldCap, oldEntries := cap, entries;
      ghost var s := oldEntries[..];
      cap := cap * 2;
      entries := new Slot<K, ()>[cap](_ => Free);
      len := 0;
      EmptyTable(entries[..], hash);
      NoKeys(entries[..], s);
      var i := 0;
      while i < oldCap
        invariant 0 <= i <= oldCap && oldEntries[..] == s && entries != oldEntries && fresh(entries)
        invariant Valid() && cap == 2 * oldCap && len <= i && len == Count(s[..i]) && View() == Keys(s[..i])
      {
        NextSlot(s, i);
        if oldEntries[i].Used? { Add(oldEntries[i].key); }
        i := i + 1;
      }
      assert s[..oldCap] == s;
    }

    method Contains(key: K) returns (r: bool)
      requires Valid()
      ensures r <==> key in View()
    {
      var idx := Probe(key);
      return entries[idx].Used?;
    }

    method Len() returns (n: nat)
      requires Valid()
      ensures n == |View()|
    {
      CountKeys(entries[..]);
      return len;
    }

    /** Removes `key`: its slot is emptied, and every entry up to the next free slot is
        taken out and added again. The table never grows on the way. */
    method Discard(key: K)
      requires Valid()
      modifies this, entries
      ensures Valid() && View() == old(View()) - {key}
      ensures cap == old(cap) && entries == old(entries)
      ensures len == old(len) - if key in old(View()) then 1 else 0
    {
      hide Unique, Linked, Count, Doubling, Keys, Run, Reached;
      var h := hash(key) % cap;
      var idx := Probe(key);
      var i := Dist(cap, h, idx);
      DistSlot(cap, h, idx);
      if entries[idx].Free? { return; }
      ghost var s0, p := entries[..], idx;
      ghost var f := SomeFree(s0);
      DistSlot(cap, p, f);
      ghost var q := FirstFree(s0, p, Dist(cap, p, f));
      ghost var end := Dist(cap, p, q);
      HereInKeys(s0, p);
      BeyondRun(s0, h, p, q);
      StartRelinking(s0, hash, p, q);
      entries[idx] := Free;
      len := len - 1;
      assert entries[..] == s0[p := Free];
      RelinkingCount(s0, entries[..], hash, p, q, 1);
      Relink(h, i, s0, p, q);
    }

    /** The second half of a removal, from the slot after the emptied one. */
    method Relink(h: nat, i: nat, ghost s0: seq<Slot<K, ()>>, ghost p: nat, ghost q: nat)
      requires Sized() && |s0| == cap && h < cap && p < cap && q < cap && 4 * (len + 1) <= 3 * cap
      requires Linked(s0, hash) && Relinking(s0, entries[..], hash, p, q, 1)
      requires Dist(cap, h, p) == i && i + Dist(cap, p, q) < cap
      modifies this, entries
      ensures Valid() && View() == old(View())
      ensures cap == old(cap) && entries == old(entries) && len == old(len)
    {
      hide Unique, Linked, Count, Doubling, Keys, Run, Reached, Relinking;
      ghost var end := Dist(cap, p, q);
      RelinkingCount(s0, entries[..], hash, p, q, 1);
      var j := i + 1;
      while j < cap
        invariant i + 1 <= j <= i + end && cap == old(cap) && entries == old(entries)
        invariant Sized() && len == old(len) && View() == old(View())
        invariant Relinking(s0, entries[..], hash, p, q, j - i)
        decreases cap - j
      {
        var x := (h + j) % cap;
        SlotAt(cap, h, j);
        DistFrom(cap, h, p, x, i, j);
        AtSlot(s0, entries[..], hash, p, q, j - i, x);
        if entries[x].Free? {
          RelinkingDone(s0, entries[..], hash, p, q);
          return;
        }
        PutBack(x, s0, p, q, j - i);
        j := j + 1;
      }
      assert false;
    }

    /** Takes the entry out of slot `x` and adds it again. */
    method PutBack(x: nat, ghost s0: seq<Slot<K, ()>>, ghost p: nat, ghost q: nat, ghost j: nat)
      requires Sized() && |s0| == cap && x < cap && p < cap && q < cap && entries[x].Used? && 4 * (len + 1) <= 3 * cap
      requires Linked(s0, hash) && Relinking(s0, entries[..], hash, p, q, j) && Dist(cap, p, x) == j < Dist(cap, p, q)
      modifies this, entries
      ensures Sized() && View() == old(View()) && cap == old(cap) && entries == old(entries) && len == old(len)
      ensures Relinking(s0, entries[..], hash, p, q, j + 1)
    {
      hide Unique, Linked, Count, Doubling, Keys, Run, Reached, Relinking;
      ghost var s := entries[..];
      HereInKeys(s, x);
      var rk := entries[x].key;
      KeysWithout(s, x);
      entries[x] := Free;
      len := len - 1;
      assert entries[..] == s[x := Free];
      HasEntry(s, x);
      Add(rk);
      ghost var t: nat :| t < cap && s[x := Free][t].Free? && Run(s[x := Free], Home(hash, rk, cap), t)
                          && entries[..] == s[x := Free][t := Used(rk, ())];
      KeepRelinking(s0, s, hash, p, q, j, x, t);
    }

    /** The next used slot at or after `start`, or -1. */
    method Next(start: nat) returns (i: int)
      requires Valid() && start <= cap
      ensures i == -1 || (start <= i < cap && entries[i].Used?)
      ensures forall x :: start <= x < (if i == -1 then cap else i) ==> entries[x].Free?
    {
      i := start;
      while i < cap
        invariant start <= i <= cap && forall x :: start <= x < i ==> entries[x].Free?
      {
        if entries[i].Used? { return; }
        i := i + 1;
      }
      return -1;
    }

    /** The walk that `for k in s` compiles to: every key once. */
    method Walk() returns (ks: seq<K>)
      requires Valid()
      ensures |ks| == |View()| && (set k | k in ks) == View()
      ensures forall i, j :: 0 <= i < j < |ks| ==> ks[i] != ks[j]
    {
      hide Linked, Doubling, Unique, Contents, Keys, Count;
      ks := [];
      ghost var vs: seq<()> := [];
      ghost var s := entries[..];
      NothingYet(s);
      NoneListed(s);
      CountKeys(s);
      ghost var done := 0;
      var i := Next(0);
      while i != -1
        invariant -1 <= i < cap && (i != -1 ==> entries[i].Used?)
        invariant 0 <= done <= cap && (i == -1 ==> forall x :: done <= x < cap ==> s[x].Free?)
        invariant i != -1 ==> done <= i && forall x :: done <= x < i ==> s[x].Free?
        invariant Unique(s[..done]) && Listed(s[..done], ks, vs)
        decreases if i == -1 then 0 else cap - i
      {
        SkipFree(s, done, i);
        NextSlot(s, i);
        ListOne(s[..done], s[..i], s[..i + 1], s[i], ks, vs);
        ks, vs := ks + [entries[i].key], vs + [entries[i].val];
        done := i + 1;
        i := Next(i + 1);
      }
      SkipFree(s, done, cap);
      assert s[..cap] == s;
      AllListed(s, ks, vs);
    }
  }

  lemma NoKeys<K, V>(s: seq<Slot<K, V>>, t: seq<Slot<K, V>>)
    requires forall i :: 0 <= i < |s| ==> s[i].Free?
    ensures Keys(s) == {} && Keys(t[..0]) == {} && Count(t[..0]) == 0
  {
  }

  lemma DistSlot(cap: nat, h: nat, x: nat)
    requires h < cap && x < cap
    ensures (h + Dist(cap, h, x)) % cap == x
  {
    SlotAt(cap, h, Dist(cap, h, x));
    SameDist(cap, h, x, (h + Dist(cap, h, x)) % cap);
  }

  lemma DistFrom(cap: nat, h: nat, p: nat, x: nat, i: nat, j: nat)
    requires h < cap && p < cap && x < cap && Dist(cap, h, p) == i && Dist(cap, h, x) == j && i <= j
    ensures Dist(cap, p, x) == j - i
  {
  }

  lemma HasEntry<K>(s: seq<Slot<K, ()>>, x: nat)
    requires x < |s| && s[x].Used?
    ensures s[x] == Used(s[x].key, ()) && Count(s) > 0
  {
    CountUpdate(s, x, Free);
    match s[x].val
    case () =>
  }

  lemma HereInKeys<K, V>(s: seq<Slot<K, V>>, p: nat)
    requires p < |s| && s[p].Used?
    ensures s[p].key in Keys(s)
  {
  }

  /** The run that starts at `p` ends before the probe comes round again. */
  lemma BeyondRun<K, V>(s: seq<Slot<K, V>>, h: nat, p: nat, q: nat)
    requires h < |s| && p < |s| && q < |s| && s[p].Used? && s[q].Free? && Run(s, h, p)
    ensures Dist(|s|, p, q) >= 1 && Dist(|s|, h, p) + Dist(|s|, p, q) == Dist(|s|, h, q)
  {
  }

  lemma RelinkingCount<K, V>(s0: seq<Slot<K, V>>, s: seq<Slot<K, V>>, hash: K -> nat, p: nat, q: nat, j: nat)
    requires p < |s0| && q < |s0| && Relinking(s0, s, hash, p, q, j)
    ensures 1 <= j <= Dist(|s0|, p, q) && |s| == |s0| && Unique(s) && Keys(s) == Keys(s0) - {s0[p].key}
    ensures Count(s) == Count(s0) - 1
  {
  }

  /** The slot at offset `j` is still as it was: free only at the end of the run. */
  lemma AtSlot<K, V>(s0: seq<Slot<K, V>>, s: seq<Slot<K, V>>, hash: K -> nat, p: nat, q: nat, j: nat, x: nat)
    requires p < |s0| && q < |s0| && x < |s0| && Relinking(s0, s, hash, p, q, j) && Dist(|s0|, p, x) == j
    ensures s[x].Free? <==> j == Dist(|s0|, p, q)
    ensures s[x].Used? ==> s[x].key in Keys(s)
  {
    hide Unique, Count;
    assert s[x] == s0[x];
    if j == Dist(|s0|, p, q) { SameDist(|s0|, p, x, q); }
  }

  /** The keys and values of a table, each once. */
  ghost predicate Listed<K, V>(s: seq<Slot<K, V>>, ks: seq<K>, vs: seq<V>)
    requires Unique(s)
  {
    && |ks| == |vs| == Count(s)
    && (forall i, j :: 0 <= i < j < |ks| ==> ks[i] != ks[j])
    && (forall k :: k in Contents(s).Keys ==> k in ks)
    && (forall i :: 0 <= i < |ks| ==> ks[i] in Contents(s) && Contents(s)[ks[i]] == vs[i])
  }

  lemma NoneListed<K, V>(s: seq<Slot<K, V>>)
    ensures Unique(s[..0]) && Listed(s[..0], [], [])
  {
  }

  lemma ListOne<K, V>(s: seq<Slot<K, V>>, s1: seq<Slot<K, V>>, s2: seq<Slot<K, V>>, e: Slot<K, V>, ks: seq<K>,
                      vs: seq<V>)
    requires Unique(s) && Unique(s1) && Unique(s2) && Listed(s, ks, vs) && e.Used?
    requires Contents(s1) == Contents(s) && Count(s1) == Count(s) && e.key !in Keys(s1)
    requires Contents(s2) == Contents(s1)[e.key := e.val] && Count(s2) == Count(s1) + 1
    ensures Listed(s2, ks + [e.key], vs + [e.val])
  {
    CountKeys(s1);
    hide Contents, Count, Unique, Keys;
    assert e.key !in Contents(s);
  }

  lemma AllListed<K, V>(s: seq<Slot<K, V>>, ks: seq<K>, vs: seq<V>)
    requires Unique(s) && Listed(s, ks, vs)
    ensures |ks| == |Contents(s)| && (set k | k in ks) == Contents(s).Keys
  {
    CountKeys(s);
  }

  // ---- prefixes of a table, for the loops that go over all slots ----

  lemma NothingYet<K, V>(s: seq<Slot<K, V>>)
    ensures Unique(s[..0]) && Contents(s[..0]) == map[] && Count(s[..0]) == 0
  {
  }

  lemma EmptyTable<K, V>(s: seq<Slot<K, V>>, hash: K -> nat)
    requires forall i :: 0 <= i < |s| ==> s[i].Free?
    ensures Unique(s) && Linked(s, hash) && Contents(s) == map[] && Count(s) == 0
  {
    CountFree(s);
  }

  lemma NextSlot<K, V>(s: seq<Slot<K, V>>, i: nat)
    requires i < |s| && Unique(s)
    ensures Unique(s[..i]) && Unique(s[..i + 1])
    ensures Count(s[..i + 1]) == Count(s[..i]) + (if s[i].Used? then 1 else 0)
    ensures s[i].Used? ==> s[i].key !in Keys(s[..i]) && Keys(s[..i + 1]) == Keys(s[..i]) + {s[i].key}
    ensures s[i].Used? ==> Contents(s[..i + 1]) == Contents(s[..i])[s[i].key := s[i].val]
    ensures s[i].Free? ==> Keys(s[..i + 1]) == Keys(s[..i]) && Contents(s[..i + 1]) == Contents(s[..i])
  {
    CountAppend(s[..i], s[i]);
    assert s[..i + 1] == s[..i] + [s[i]];
    AppendSlot(s[..i], s[i]);
  }

  lemma {:induction false} CountAppend<K, V>(s: seq<Slot<K, V>>, e: Slot<K, V>)
    ensures Count(s + [e]) == Count(s) + (if e.Used? then 1 else 0)
  {
    if s == [] {
      assert s + [e] == [e];
    } else {
      CountAppend(s[1..], e);
      assert (s + [e])[1..] == s[1..] + [e];
    }
  }

  lemma AppendSlot<K, V>(s: seq<Slot<K, V>>, e: Slot<K, V>)
    requires Unique(s + [e])
    ensures Unique(s)
    ensures e.Used? ==> e.key !in Keys(s) && Keys(s + [e]) == Keys(s) + {e.key}
    ensures e.Used? ==> Contents(s + [e]) == Contents(s)[e.key := e.val]
    ensures e.Free? ==> Keys(s + [e]) == Keys(s) && Contents(s + [e]) == Contents(s)
  {
    hide Contents, Count;
    var t := s + [e];
    AppendKey(s, e);
    CountKeys(s);
    var m := if e.Used? then Contents(s)[e.key := e.val] else Contents(s);
    forall i | 0 <= i < |t| && t[i].Used? ensures t[i].key in m && m[t[i].key] == t[i].val {
      if i < |s| {
        assert t[i] == s[i] && s[i].key in Keys(s);
        ContentsAt(s, i);
      }
    }
    ContentsAre(t, m);
  }

  lemma ContentsAt<K, V>(s: seq<Slot<K, V>>, i: nat)
    requires Unique(s) && i < |s| && s[i].Used?
    ensures s[i].key in Contents(s) && Contents(s)[s[i].key] == s[i].val
  {
  }

  lemma ContentsAre<K, V>(s: seq<Slot<K, V>>, m: map<K, V>)
    requires Unique(s) && m.Keys == Keys(s)
    requires forall i :: 0 <= i < |s| && s[i].Used? ==> s[i].key in m && m[s[i].key] == s[i].val
    ensures Contents(s) == m
  {
    CountKeys(s);
  }

  lemma AppendKey<K, V>(s: seq<Slot<K, V>>, e: Slot<K, V>)
    requires Unique(s + [e])
    ensures Unique(s)
    ensures if e.Used? then e.key !in Keys(s) && Keys(s + [e]) == Keys(s) + {e.key} else Keys(s + [e]) == Keys(s)
  {
    var t := s + [e];
    assert forall i :: 0 <= i < |s| ==> t[i] == s[i];
    assert t[|s|] == e;
    forall k ensures k in Keys(t) <==> k in Keys(s) || (e.Used? && k == e.key) {
      if k in Keys(s) {
        var i :| 0 <= i < |s| && s[i].Used? && s[i].key == k;
        assert t[i].key == k;
      }
    }
  }

  lemma {:induction false} SkipFree<K, V>(s: seq<Slot<K, V>>, a: nat, b: nat)
    requires a <= b <= |s| && Unique(s) && forall x :: a <= x < b ==> s[x].Free?
    ensures Unique(s[..a]) && Unique(s[..b]) && Count(s[..b]) == Count(s[..a]) && Contents(s[..b]) == Contents(s[..a])
    decreases b - a
  {
    hide Contents, Count, Keys;
    if a < b {
      NextSlot(s, a);
      SkipFree(s, a + 1, b);
    }
  }
}
