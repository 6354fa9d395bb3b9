/**
 Classes: the method slots of their vtables, the order of their fields, and the walk
 that answers isinstance. Classes are numbered so that a base comes before the
 classes built on it.
 */
module ClassLayout {
  import opened Common

  /** `methods` and `assigns` in source order: the methods defined, and the fields that
      `__init__` assigns. */
  datatype ClassDecl = ClassDecl(base: Option<nat>, methods: seq<string>, assigns: seq<string>, id: int)

  type Forest = seq<ClassDecl>

  predicate BaseFirst(cs: Forest) {
    forall c :: 0 <= c < |cs| && cs[c].base.Some? ==> cs[c].base.value < c
  }

  const INIT := "__init__"
  const STR := "__str__"
  const REPR := "__repr__"

  // ---- the hierarchy ----

  function IsSubclassOf(cs: Forest, c: nat, a: nat): bool
    requires BaseFirst(cs) && c < |cs|
  {
    c == a || (cs[c].base.Some? && IsSubclassOf(cs, cs[c].base.value, a))
  }

  function Root(cs: Forest, c: nat): (r: nat)
    requires BaseFirst(cs) && c < |cs|
    ensures r <= c
  {
    if cs[c].base.None? then c else Root(cs, cs[c].base.value)
  }

  /** The nearest class at or above `c` that defines `m`. */
  function Nearest(cs: Forest, c: nat, m: string): (r: Option<nat>)
    requires BaseFirst(cs) && c < |cs|
    ensures r.Some? ==> r.value <= c && m in cs[r.value].methods
  {
    if m in cs[c].methods then Some(c)
    else if cs[c].base.None? then None
    else Nearest(cs, cs[c].base.value, m)
  }

  /** What a call of `m` on an instance of `c` runs; a `__str__` or `__repr__` that
      nobody defines is the one made up for the root. */
  function Target(cs: Forest, c: nat, m: string): nat
    requires BaseFirst(cs) && c < |cs|
  {
    if Nearest(cs, c, m).Some? then Nearest(cs, c, m).value else Root(cs, c)
  }

  predicate Callable(cs: Forest, c: nat, m: string)
    requires BaseFirst(cs) && c < |cs|
  {
    m == "__str__" || m == "__repr__" || (m != "__init__" && Nearest(cs, c, m).Some?)
  }

  // ---- vtables ----

  datatype Table = Table(order: seq<string>, owners: seq<nat>, slots: map<string, nat>)

  /** `slots` finds each name of `names` at its one position. */
  ghost predicate Indexed(names: seq<string>, slots: map<string, nat>) {
    && (forall i :: 0 <= i < |names| ==> names[i] in slots && slots[names[i]] == i)
    && (forall m :: m in slots ==> slots[m] < |names| && names[slots[m]] == m)
  }

  /** One slot for every method that can be called on `c`, filled with what it runs. */
  ghost predicate RightTable(cs: Forest, c: nat, t: Table)
    requires BaseFirst(cs) && c < |cs|
  {
    && |t.owners| == |t.order| && Indexed(t.order, t.slots)
    && (forall m :: m in t.slots <==> Callable(cs, c, m))
    && (forall i :: 0 <= i < |t.order| ==> t.owners[i] == Target(cs, c, t.order[i]))
  }

  class Layout {
    const cs: Forest
    var tables: map<nat, Table>
    var fields: map<nat, seq<string>>
    var fieldIdx: map<nat, map<string, nat>>

    constructor (cs: Forest)
      ensures this.cs == cs && tables == map[] && fields == map[] && fieldIdx == map[]
    {
      this.cs := cs;
      tables, fields, fieldIdx := map[], map[], map[];
    }

    /** The classes below `n` are laid out, each extending its base. */
    ghost predicate Done(n: nat) reads this
      requires BaseFirst(cs) && n <= |cs|
    {
      && (forall c :: 0 <= c < n ==> c in tables && RightTable(cs, c, tables[c]))
      && (forall c :: 0 <= c < n && cs[c].base.Some? ==> tables[cs[c].base.value].order <= tables[c].order)
    }

    /** Inherited slots first; a method defined again keeps its slot and changes its
        owner; then `__str__` and `__repr__` if still missing. */
    method ComputeSlots(c: nat)
      requires BaseFirst(cs) && c < |cs| && Done(c)
      modifies this`tables
      ensures Done(c + 1)
      ensures forall d :: d in old(tables) && d != c ==> d in tables && tables[d] == old(tables[d])
    {
      hide RightTable, Indexed;
      var t := Table([], [], map[]);
      if cs[c].base.Some? { t := tables[cs[c].base.value]; }
      ghost var inherited := t.order;
      StartTable(cs, c, t);
      var ms := cs[c].methods;
      for i := 0 to |ms|
        invariant tables == old(tables) && Partial(cs, c, t, ms[..i]) && inherited <= t.order
      {
        var m := ms[i];
        assert ms[..i + 1] == ms[..i] + [m];
        if m == INIT {
          SkipInit(cs, c, t, ms[..i]);
          continue;
        }
        AddStep(cs, c, t, ms[..i], m);
        t := AddMethod(t, m, c);
      }
      assert ms[..|ms|] == ms;
      FinishMethods(cs, c, t);
      if STR !in t.slots { t := AddMethod(t, STR, c); }
      if REPR !in t.slots { t := AddMethod(t, REPR, c); }
      tables := tables[c := t];
    }

    /** The new fields of a class behind those of its base. */
    method InferFields(c: nat)
      requires BaseFirst(cs) && c < |cs|
      requires forall d :: 0 <= d < c ==> d in fields && d in fieldIdx && Indexed(fields[d], fieldIdx[d])
      modifies this`fields, this`fieldIdx
      ensures c in fields && c in fieldIdx && Indexed(fields[c], fieldIdx[c])
      ensures cs[c].base.Some? ==> old(fields)[cs[c].base.value] <= fields[c]
      ensures forall f :: f in fieldIdx[c] <==>
        f in cs[c].assigns || (cs[c].base.Some? && f in old(fieldIdx)[cs[c].base.value])
      ensures forall d :: d != c && d in old(fields) ==> d in fields && fields[d] == old(fields)[d]
      ensures forall d :: d != c && d in old(fieldIdx) ==> d in fieldIdx && fieldIdx[d] == old(fieldIdx)[d]
    {
      var fs: seq<string>, idx: map<string, nat> := [], map[];
      if cs[c].base.Some? {
        var base := fields[cs[c].base.value];
        var i := 0;
        while i < |base|
          invariant 0 <= i <= |base| && fs == base[..i] && Indexed(fs, idx)
        {
          assert base[i] !in base[..i];
          assert base[..i + 1] == base[..i] + [base[i]];
          idx := idx[base[i] := |fs|];
          fs := fs + [base[i]];
          i := i + 1;
        }
        assert base[..|base|] == base;
        SameNames(base, fieldIdx[cs[c].base.value], idx);
      }
      ghost var inherited := fs;
      ghost var known := idx;
      for i := 0 to |cs[c].assigns|
        invariant Indexed(fs, idx) && inherited <= fs
        invariant forall f :: f in idx <==> f in known || f in cs[c].assigns[..i]
      {
        var f := cs[c].assigns[i];
        assert cs[c].assigns[..i + 1] == cs[c].assigns[..i] + [f];
        if f !in idx {
          idx := idx[f := |fs|];
          fs := fs + [f];
        }
      }
      assert cs[c].assigns[..|cs[c].assigns|] == cs[c].assigns;
      fields, fieldIdx := fields[c := fs], fieldIdx[c := idx];
    }
  }

  /** A name that has a slot changes its owner; another gets a slot at the end. */
  function AddMethod(t: Table, m: string, c: nat): (r: Table)
    requires |t.owners| == |t.order| && (m in t.slots ==> t.slots[m] < |t.owners|)
    ensures |r.owners| == |r.order| && t.order <= r.order
  {
    if m in t.slots then t.(owners := t.owners[t.slots[m] := c])
    else Table(t.order + [m], t.owners + [c], t.slots[m := |t.order|])
  }

  lemma SameNames(names: seq<string>, a: map<string, nat>, b: map<string, nat>)
    requires Indexed(names, a) && Indexed(names, b)
    ensures forall f :: f in a <==> f in b
  {
  }

  // ---- building one table ----

  /** What a slot holds when the methods in `seen` have been gone through. */
  ghost function SoFar(cs: Forest, c: nat, seen: seq<string>, m: string): nat
    requires BaseFirst(cs) && c < |cs|
  {
    if m in seen || cs[c].base.None? then c else Target(cs, cs[c].base.value, m)
  }

  ghost predicate Partial(cs: Forest, c: nat, t: Table, seen: seq<string>)
    requires BaseFirst(cs) && c < |cs|
  {
    && |t.owners| == |t.order| && Indexed(t.order, t.slots)
    && (forall m :: m in t.slots <==>
                      (m in seen && m != INIT) || (cs[c].base.Some? && Callable(cs, cs[c].base.value, m)))
    && (forall i :: 0 <= i < |t.order| ==> t.owners[i] == SoFar(cs, c, seen, t.order[i]))
    && (forall m :: m in t.slots ==> t.slots[m] < |t.owners|)
  }

  lemma StartTable(cs: Forest, c: nat, t: Table)
    requires BaseFirst(cs) && c < |cs|
    requires if cs[c].base.Some? then RightTable(cs, cs[c].base.value, t) else t == Table([], [], map[])
    ensures Partial(cs, c, t, cs[c].methods[..0])
  {
  }

  lemma SkipInit(cs: Forest, c: nat, t: Table, seen: seq<string>)
    requires BaseFirst(cs) && c < |cs| && Partial(cs, c, t, seen)
    ensures Partial(cs, c, t, seen + [INIT])
  {
    forall i | 0 <= i < |t.order| ensures SoFar(cs, c, seen + [INIT], t.order[i]) == SoFar(cs, c, seen, t.order[i]) {
      assert t.order[i] in t.slots;
    }
  }

  lemma AddStep(cs: Forest, c: nat, t: Table, seen: seq<string>, m: string)
    requires BaseFirst(cs) && c < |cs| && Partial(cs, c, t, seen) && m != INIT
    ensures m in t.slots ==> t.slots[m] < |t.owners|
    ensures |t.owners| == |t.order| && Partial(cs, c, AddMethod(t, m, c), seen + [m])
  {
    hide Target, Callable;
    var r := AddMethod(t, m, c);
    assert forall x :: x in seen + [m] <==> x in seen || x == m;
  }

  ghost predicate Owned(cs: Forest, c: nat, t: Table)
    requires BaseFirst(cs) && c < |cs|
  {
    && |t.owners| == |t.order| && Indexed(t.order, t.slots) && (forall m :: m in t.slots ==> t.slots[m] < |t.owners|)
    && (forall i :: 0 <= i < |t.order| ==> t.owners[i] == Target(cs, c, t.order[i]))
  }

  lemma AllSeen(cs: Forest, c: nat, t: Table)
    requires BaseFirst(cs) && c < |cs| && Partial(cs, c, t, cs[c].methods)
    ensures Owned(cs, c, t)
    ensures forall m :: m != STR && m != REPR ==> (m in t.slots <==> Callable(cs, c, m))
    ensures forall m :: m == STR || m == REPR ==> m in t.slots || (cs[c].base.None? && Target(cs, c, m) == c)
  {
  }

  lemma AddMade(cs: Forest, c: nat, t: Table, m: string)
    requires BaseFirst(cs) && c < |cs| && Owned(cs, c, t) && m !in t.slots && Target(cs, c, m) == c
    ensures Owned(cs, c, AddMethod(t, m, c))
  {
    hide Target;
  }

  /** With all methods gone through, only the made-up ones can be missing. */
  lemma FinishMethods(cs: Forest, c: nat, t: Table)
    requires BaseFirst(cs) && c < |cs| && Partial(cs, c, t, cs[c].methods)
    ensures |t.owners| == |t.order| && (forall m :: m in t.slots ==> t.slots[m] < |t.owners|)
    ensures var t1 := if STR in t.slots then t else AddMethod(t, STR, c);
      && |t1.owners| == |t1.order| && (forall m :: m in t1.slots ==> t1.slots[m] < |t1.owners|)
      && RightTable(cs, c, if REPR in t1.slots then t1 else AddMethod(t1, REPR, c))
  {
    hide Target, Nearest, Partial, Indexed;
    AllSeen(cs, c, t);
    if STR !in t.slots { AddMade(cs, c, t, STR); }
    var t1 := if STR in t.slots then t else AddMethod(t, STR, c);
    if REPR !in t1.slots { AddMade(cs, c, t1, REPR); }
    assert REPR != STR;
  }

  // ---- across classes ----

  ghost predicate AllRight(cs: Forest, tables: map<nat, Table>) {
    && BaseFirst(cs)
    && (forall c :: 0 <= c < |cs| ==> c in tables && RightTable(cs, c, tables[c]))
    && (forall c :: 0 <= c < |cs| && cs[c].base.Some? ==> tables[cs[c].base.value].order <= tables[c].order)
  }

  lemma {:induction false} SubclassExtends(cs: Forest, tables: map<nat, Table>, d: nat, a: nat)
    requires AllRight(cs, tables) && d < |cs| && IsSubclassOf(cs, d, a)
    ensures a <= d && tables[a].order <= tables[d].order
  {
    hide RightTable;
    if d != a { SubclassExtends(cs, tables, cs[d].base.value, a); }
  }

  /** A call through the slot that the static class `a` gives to `m` runs, on an instance
      of `d`, the nearest definition at or above `d`. */
  lemma Dispatch(cs: Forest, tables: map<nat, Table>, d: nat, a: nat, m: string)
    requires AllRight(cs, tables) && d < |cs| && IsSubclassOf(cs, d, a) && a < |cs| && Callable(cs, a, m)
    ensures m in tables[a].slots
    ensures var i := tables[a].slots[m];
      i < |tables[d].owners| && i < |tables[d].order| && tables[d].order[i] == m
        && tables[d].owners[i] == Target(cs, d, m)
  {
    hide Target, Callable;
    SubclassExtends(cs, tables, d, a);
    assert RightTable(cs, a, tables[a]) && RightTable(cs, d, tables[d]);
  }

  /** Lays out every class. */
  method LayOutAll(cs: Forest) returns (l: Layout)
    requires BaseFirst(cs)
    ensures AllRight(cs, l.tables)
    ensures FieldsExtend(cs, l.fields, l.fieldIdx)
  {
    hide RightTable, Indexed, IsSubclassOf;
    l := new Layout(cs);
    for c := 0 to |cs|
      invariant fresh(l) && l.cs == cs && l.Done(c) && FieldsUpTo(cs, l.fields, l.fieldIdx, c)
    {
      l.ComputeSlots(c);
      l.InferFields(c);
    }
  }

  // ---- fields ----

  ghost predicate FieldsUpTo(cs: Forest, fields: map<nat, seq<string>>, idx: map<nat, map<string, nat>>, n: nat) {
    && BaseFirst(cs) && n <= |cs|
    && (forall c :: 0 <= c < n ==> c in fields && c in idx && Indexed(fields[c], idx[c]))
    && (forall c :: 0 <= c < n && cs[c].base.Some? ==> fields[cs[c].base.value] <= fields[c])
  }

  ghost predicate FieldsExtend(cs: Forest, fields: map<nat, seq<string>>, idx: map<nat, map<string, nat>>) {
    FieldsUpTo(cs, fields, idx, |cs|)
  }

  /** A field keeps its index when an instance is seen as one of a base class. */
  lemma {:induction false} FieldIndexAgrees(cs: Forest, fields: map<nat, seq<string>>,
                                            idx: map<nat, map<string, nat>>, d: nat, a: nat, f: string)
    requires FieldsExtend(cs, fields, idx) && d < |cs| && a < |cs| && IsSubclassOf(cs, d, a) && f in idx[a]
    ensures f in idx[d] && idx[d][f] == idx[a][f]
  {
    if d != a {
      var b := cs[d].base.value;
      FieldIndexAgrees(cs, fields, idx, b, a, f);
      assert fields[b] <= fields[d] && Indexed(fields[b], idx[b]) && Indexed(fields[d], idx[d]);
      assert fields[d][idx[b][f]] == fields[b][idx[b][f]];
    }
  }

  // ---- isinstance ----

  ghost predicate WalkFinds(cs: Forest, c: nat, id: int)
    requires BaseFirst(cs) && c < |cs|
  {
    exists a :: 0 <= a < |cs| && IsSubclassOf(cs, c, a) && cs[a].id == id
  }

  /** The chain of vtables from the class of an object upwards, compared by id. */
  method IsInstance(cs: Forest, c: nat, id: int) returns (r: bool)
    requires BaseFirst(cs) && c < |cs|
    ensures r <==> WalkFinds(cs, c, id)
  {
    var cur: Option<nat> := Some(c);
    while cur.Some?
      invariant cur.Some? ==> cur.value < |cs| && IsSubclassOf(cs, c, cur.value)
      invariant forall a ::
        0 <= a < |cs| && IsSubclassOf(cs, c, a) && (cur.Some? ==> !IsSubclassOf(cs, cur.value, a)) ==> cs[a].id != id
      decreases if cur.Some? then cur.value + 1 else 0
    {
      if cs[cur.value].id == id { return true; }
      if cs[cur.value].base.Some? { SubclassTrans(cs, c, cur.value, cs[cur.value].base.value); }
      cur := cs[cur.value].base;
    }
    return false;
  }

  lemma {:induction false} SubclassTrans(cs: Forest, a: nat, b: nat, c: nat)
    requires BaseFirst(cs) && a < |cs| && b < |cs| && c < |cs| && IsSubclassOf(cs, a, b) && IsSubclassOf(cs, b, c)
    ensures IsSubclassOf(cs, a, c)
  {
    if a != b { SubclassTrans(cs, cs[a].base.value, b, c); }
  }

  /** The walk for the id of `t` answers IsSubclassOf for every class exactly when all
      classes with that id are below `t`, as they are when ids are distinct. */
  lemma WalkIsSubclass(cs: Forest, t: nat)
    requires BaseFirst(cs) && t < |cs|
    ensures (forall c :: 0 <= c < |cs| ==> (WalkFinds(cs, c, cs[t].id) <==> IsSubclassOf(cs, c, t)))
       <==> (forall a :: 0 <= a < |cs| && cs[a].id == cs[t].id ==> IsSubclassOf(cs, a, t))
  {
    if forall a :: 0 <= a < |cs| && cs[a].id == cs[t].id ==> IsSubclassOf(cs, a, t) {
      forall c | 0 <= c < |cs| ensures WalkFinds(cs, c, cs[t].id) <==> IsSubclassOf(cs, c, t) {
        if WalkFinds(cs, c, cs[t].id) {
          var a :| 0 <= a < |cs| && IsSubclassOf(cs, c, a) && cs[a].id == cs[t].id;
          SubclassTrans(cs, c, a, t);
        }
      }
    } else {
      var a :| 0 <= a < |cs| && cs[a].id == cs[t].id && !IsSubclassOf(cs, a, t);
      assert IsSubclassOf(cs, a, a) && WalkFinds(cs, a, cs[t].id);
    }
  }
}
