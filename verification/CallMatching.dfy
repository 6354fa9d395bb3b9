/**
 Two passes look at a call: the checker decides whether its arguments fit the callee's
 signature, and the code generator later puts each argument in its place. They share
 no code; here they are shown to agree.
 */
module CallMatching {
  import opened Common

  datatype Ty = StrType | ListType(elem: Ty) | MapType(key: Ty, val: Ty) | Other(n: int)

  /** `names` and `defaults` may be shorter than `params`. */
  datatype Sig = Sig(params: seq<Ty>, names: seq<string>, kwOnlyStart: int, varArgs: Option<Ty>, kwargs: Option<Ty>,
                     defaults: seq<Option<int>>)

  /** An argument with the value it evaluates to; `star` marks `*expr`, `dstar` `**expr`. */
  datatype Arg = Arg(val: int, ty: Ty, star: bool)
  datatype Kw = Kw(name: string, val: int, ty: Ty, dstar: bool)

  type Assignable = (Ty, Ty) -> bool

  /** Where the keyword-only parameters begin. */
  function KwOnly(s: Sig): (r: nat)
    ensures r <= |s.params|
  {
    if s.varArgs.None? || s.kwOnlyStart < 0 || s.kwOnlyStart > |s.params| then |s.params| else s.kwOnlyStart
  }

  // ---- what goes where ----

  /** How many plain positional arguments there are. */
  function Plains(args: seq<Arg>): nat {
    if args == [] then 0 else Plains(args[..|args| - 1]) + (if args[|args| - 1].star then 0 else 1)
  }

  /** The parameters that plain positionals fill. */
  function Filled(s: Sig, args: seq<Arg>): (r: nat)
    ensures r <= KwOnly(s) <= |s.params|
  {
    if Plains(args) < KwOnly(s) then Plains(args) else KwOnly(s)
  }

  /** The first parameter of that name. */
  function SlotOf(s: Sig, name: string, from: nat): (r: Option<nat>)
    ensures r.Some? ==> from <= r.value < |s.params| && r.value < |s.names| && s.names[r.value] == name
    ensures r.Some? ==> forall i :: from <= i < r.value && i < |s.names| ==> s.names[i] != name
    ensures r.None? ==> forall i :: from <= i < |s.params| && i < |s.names| ==> s.names[i] != name
    decreases |s.params| - from
  {
    if from >= |s.params| then None
    else if from < |s.names| && s.names[from] == name then Some(from)
    else SlotOf(s, name, from + 1)
  }

  predicate Binds(s: Sig, kw: Kw, i: nat) { !kw.dstar && SlotOf(s, kw.name, 0) == Some(i) }

  /** The first keyword argument for parameter `i`. */
  function KwFor(s: Sig, kws: seq<Kw>, i: nat): (r: Option<nat>)
    ensures r.Some? ==> r.value < |kws| && Binds(s, kws[r.value], i)
    ensures r.Some? ==> forall q :: 0 <= q < r.value ==> !Binds(s, kws[q], i)
    ensures r.None? ==> forall q :: 0 <= q < |kws| ==> !Binds(s, kws[q], i)
  {
    if kws == [] then None
    else
      var r := KwFor(s, kws[..|kws| - 1], i);
      if r.Some? then r else if Binds(s, kws[|kws| - 1], i) then Some((|kws| - 1) as nat) else None
  }

  predicate HasDefault(s: Sig, i: nat) { i < |s.defaults| && s.defaults[i].Some? }

  /** The positionals that no parameter takes, in source order. */
  function Overflow(s: Sig, args: seq<Arg>): seq<Arg> {
    if args == [] then []
    else
      var front, a := args[..|args| - 1], args[|args| - 1];
      Overflow(s, front) + (if a.star || Plains(front) >= KwOnly(s) then [a] else [])
  }

  /** The keywords that no parameter takes, in source order. */
  function Leftover(s: Sig, kws: seq<Kw>): seq<Kw> {
    if kws == [] then []
    else
      var k := kws[|kws| - 1];
      Leftover(s, kws[..|kws| - 1]) + (if k.dstar || SlotOf(s, k.name, 0).None? then [k] else [])
  }

  /** The `j`-th plain positional. */
  function PlainAt(args: seq<Arg>, j: nat): Arg
    requires j < Plains(args)
  {
    var front, a := args[..|args| - 1], args[|args| - 1];
    if j < Plains(front) then PlainAt(front, j) else a
  }

  // ---- acceptance ----

  /** Positional `k` fits the place it takes. */
  predicate ArgFits(s: Sig, ok: Assignable, args: seq<Arg>, k: nat)
    requires k < |args|
  {
    var a, j := args[k], Plains(args[..k]);
    if a.star then
      a.ty.ListType? && s.varArgs.Some? && j >= KwOnly(s) && ok(a.ty.elem, s.varArgs.value)
    else if j < KwOnly(s) then ok(a.ty, s.params[j])
    else s.varArgs.Some? && ok(a.ty, s.varArgs.value)
  }

  /** Keyword `q` fits, and its parameter is not taken by then. */
  predicate KwFits(s: Sig, ok: Assignable, filled: nat, kws: seq<Kw>, q: nat)
    requires q < |kws|
  {
    var k := kws[q];
    var i := SlotOf(s, k.name, 0);
    if k.dstar then
      k.ty.MapType? && k.ty.key == StrType && s.kwargs.Some? && ok(k.ty.val, s.kwargs.value)
    else if i.Some? then
      i.value >= filled && KwFor(s, kws[..q], i.value).None? && ok(k.ty, s.params[i.value])
    else s.kwargs.Some? && ok(k.ty, s.kwargs.value)
  }

  predicate Accepted(s: Sig, ok: Assignable, args: seq<Arg>, kws: seq<Kw>) {
    && (forall k :: 0 <= k < |args| ==> ArgFits(s, ok, args, k))
    && (forall q :: 0 <= q < |kws| ==> KwFits(s, ok, Filled(s, args), kws, q))
    && (forall i :: 0 <= i < |s.params| ==> i < Filled(s, args) || KwFor(s, kws, i).Some? || HasDefault(s, i))
  }

  // ---- the checker ----

  method MatchCallArgs(s: Sig, ok: Assignable, args: seq<Arg>, kws: seq<Kw>) returns (accepted: bool)
    ensures accepted <==> Accepted(s, ok, args, kws)
    ensures accepted && NoStars(args) ==> forall k :: 0 <= k < |args| ==>
      if k < Reach(s, args) then ok(args[k].ty, s.params[k]) else s.varArgs.Some? && ok(args[k].ty, s.varArgs.value)
  {
    hide Plains, SlotOf, KwFor, Reach;
    if NoStars(args) { forall k | 0 <= k < |args| { PlainFits(s, ok, args, k); } }
    var n, kwOnly := |s.params|, KwOnly(s);
    var filled := new bool[n](_ => false);
    var posIdx := 0;
    NoPlains();
    for i := 0 to |args|
      invariant posIdx == Plains(args[..i])
      invariant forall k :: 0 <= k < i ==> ArgFits(s, ok, args, k)
      invariant forall j :: 0 <= j < n ==> (filled[j] <==> j < posIdx && j < kwOnly)
    {
      OnePlain(args, i);
      var a := args[i];
      if a.star {
        if !a.ty.ListType? || s.varArgs.None? || posIdx < kwOnly || !ok(a.ty.elem, s.varArgs.value) {
          assert !ArgFits(s, ok, args, i);
          return false;
        }
        continue;
      }
      if posIdx < kwOnly {
        if !ok(a.ty, s.params[posIdx]) {
          assert !ArgFits(s, ok, args, i);
          return false;
        }
        filled[posIdx] := true;
        posIdx := posIdx + 1;
      } else if s.varArgs.Some? {
        if !ok(a.ty, s.varArgs.value) {
          assert !ArgFits(s, ok, args, i);
          return false;
        }
        posIdx := posIdx + 1;
      } else {
        assert !ArgFits(s, ok, args, i);
        return false;
      }
    }
    assert args[..|args|] == args;
    accepted := MatchKeywords(s, ok, args, kws, filled);
    if !accepted { return; }
    for i := 0 to n
      invariant forall j :: 0 <= j < i ==> j < Filled(s, args) || KwFor(s, kws, j).Some? || HasDefault(s, j)
    {
      if filled[i] { continue; }
      if i < |s.defaults| && s.defaults[i].Some? { continue; }
      return false;
    }
  }

  method MatchKeywords(s: Sig, ok: Assignable, args: seq<Arg>, kws: seq<Kw>, filled: array<bool>)
    returns (accepted: bool)
    requires filled.Length == |s.params| && forall j :: 0 <= j < |s.params| ==> (filled[j] <==> j < Filled(s, args))
    modifies filled
    ensures accepted <==> forall q :: 0 <= q < |kws| ==> KwFits(s, ok, Filled(s, args), kws, q)
    ensures accepted ==> forall j :: 0 <= j < |s.params| ==>
      (filled[j] <==> j < Filled(s, args) || KwFor(s, kws, j).Some?)
  {
    hide Filled, SlotOf, KwFor;
    var n := |s.params|;
    NoKws(s);
    for q := 0 to |kws|
      invariant forall k :: 0 <= k < q ==> KwFits(s, ok, Filled(s, args), kws, k)
      invariant forall j :: 0 <= j < n ==> (filled[j] <==> j < Filled(s, args) || KwFor(s, kws[..q], j).Some?)
    {
      OneKw(s, kws, q);
      var k := kws[q];
      if k.dstar {
        if !k.ty.MapType? || k.ty.key != StrType || s.kwargs.None? || !ok(k.ty.val, s.kwargs.value) {
          assert !KwFits(s, ok, Filled(s, args), kws, q);
          return false;
        }
        continue;
      }
      var slot := FindSlot(s, k.name);
      if slot.Some? {
        if filled[slot.value] || !ok(k.ty, s.params[slot.value]) {
          assert !KwFits(s, ok, Filled(s, args), kws, q);
          return false;
        }
        filled[slot.value] := true;
        continue;
      }
      if s.kwargs.None? || !ok(k.ty, s.kwargs.value) {
        assert !KwFits(s, ok, Filled(s, args), kws, q);
        return false;
      }
    }
    assert kws[..|kws|] == kws;
    return true;
  }

  method FindSlot(s: Sig, name: string) returns (slot: Option<nat>)
    ensures slot == SlotOf(s, name, 0)
  {
    var i := 0;
    while i < |s.params|
      invariant 0 <= i <= |s.params| && SlotOf(s, name, 0) == SlotOf(s, name, i)
    {
      if i < |s.names| && s.names[i] == name { return Some(i); }
      i := i + 1;
    }
    return None;
  }

  lemma NoPlains()
    ensures Plains([]) == 0
  {
  }

  lemma OnePlain(args: seq<Arg>, i: nat)
    requires i < |args|
    ensures Plains(args[..i + 1]) == Plains(args[..i]) + (if args[i].star then 0 else 1)
  {
    assert args[..i + 1][..i] == args[..i];
  }

  lemma NoKws(s: Sig)
    ensures forall j :: KwFor(s, [], j).None?
  {
  }

  lemma OneKw(s: Sig, kws: seq<Kw>, q: nat)
    requires q < |kws|
    ensures forall j :: KwFor(s, kws[..q + 1], j).Some? <==> KwFor(s, kws[..q], j).Some? || Binds(s, kws[q], j)
    ensures forall j :: KwFor(s, kws[..q], j).Some? ==> KwFor(s, kws[..q + 1], j) == KwFor(s, kws[..q], j)
    ensures forall j :: KwFor(s, kws[..q], j).None? && Binds(s, kws[q], j) ==> KwFor(s, kws[..q + 1], j) == Some(q)
  {
    assert kws[..q + 1][..q] == kws[..q];
  }

  // ---- the code generator ----

  datatype Part = Value(v: int) | VarList(args: seq<Arg>) | KwMap(kws: seq<Kw>)

  /** What parameter `i` receives: its positional, else its keyword, else its default. */
  function NamedValue(s: Sig, args: seq<Arg>, kws: seq<Kw>, i: nat): Option<int>
    requires i < |s.params|
  {
    if i < Filled(s, args) then Some(PlainAt(args, i).val)
    else if KwFor(s, kws, i).Some? then Some(kws[KwFor(s, kws, i).value].val)
    else if HasDefault(s, i) then s.defaults[i]
    else None
  }

  /** The finished argument list, in the order of the callee's parameters: positionals,
      the list of the rest, keyword-only ones, the map of the rest. */
  ghost predicate Placed(s: Sig, args: seq<Arg>, kws: seq<Kw>, parts: seq<Part>) {
    var n, k := |s.params|, KwOnly(s);
    var v, w := if s.varArgs.Some? then 1 else 0, if s.kwargs.Some? then 1 else 0;
    && |parts| == n + v + w
    && (forall i :: 0 <= i < n ==>
          NamedValue(s, args, kws, i).Some?
            && parts[if i < k then i else i + v] == Value(NamedValue(s, args, kws, i).value))
    && (v == 1 ==> parts[k] == VarList(Overflow(s, args)))
    && (w == 1 ==> parts[n + v] == KwMap(Leftover(s, kws)))
  }

  /** None is the internal error "not statically filled". */
  method PrepareCallArgs(s: Sig, ghost ok: Assignable, args: seq<Arg>, kws: seq<Kw>) returns (r: Option<seq<Part>>)
    requires Accepted(s, ok, args, kws)
    ensures r.Some? && Placed(s, args, kws, r.value)
    ensures NoStars(args) ==>
      var m := Reach(s, args);
      && (forall i :: 0 <= i < m ==> i < |r.value| && r.value[i] == Value(args[i].val))
      && (s.varArgs.Some? && 0 <= s.kwOnlyStart < |s.params| ==>
            s.kwOnlyStart < |r.value| && r.value[s.kwOnlyStart] == VarList(args[m..]))
  {
    hide Plains, SlotOf, KwFor, KwFits, ArgFits, Overflow, Leftover, PlainAt;
    if NoStars(args) { PlainPositionals(s, args); }
    var n, kwOnly := |s.params|, KwOnly(s);
    var vals := new Option<int>[n](_ => None);
    var overflow := PlacePositionals(s, args, vals);
    var leftover := PlaceKeywords(s, ok, args, kws, vals);
    var parts: seq<Part> := [];
    for i := 0 to kwOnly
      invariant |parts| == i
      invariant forall j :: 0 <= j < i ==>
        NamedValue(s, args, kws, j).Some? && parts[j] == Value(NamedValue(s, args, kws, j).value)
    {
      var v := if vals[i].Some? then vals[i] else if i < |s.defaults| then s.defaults[i] else None;
      assert v == NamedValue(s, args, kws, i);
      if v.None? { return None; }
      parts := parts + [Value(v.value)];
    }
    if s.varArgs.Some? { parts := parts + [VarList(overflow)]; }
    ghost var front := parts;
    for i := kwOnly to n
      invariant |parts| == |front| + i - kwOnly && front <= parts
      invariant forall j :: kwOnly <= j < i ==>
        NamedValue(s, args, kws, j).Some? && parts[|front| + j - kwOnly] == Value(NamedValue(s, args, kws, j).value)
    {
      var v := if vals[i].Some? then vals[i] else if i < |s.defaults| then s.defaults[i] else None;
      assert v == NamedValue(s, args, kws, i);
      if v.None? { return None; }
      parts := parts + [Value(v.value)];
    }
    if s.kwargs.Some? { parts := parts + [KwMap(leftover)]; }
    return Some(parts);
  }

  method PlacePositionals(s: Sig, args: seq<Arg>, vals: array<Option<int>>) returns (overflow: seq<Arg>)
    requires vals.Length == |s.params| && forall j :: 0 <= j < vals.Length ==> vals[j].None?
    modifies vals
    ensures overflow == Overflow(s, args)
    ensures forall j :: 0 <= j < vals.Length ==>
      vals[j] == if j < Filled(s, args) then Some(PlainAt(args, j).val) else None
  {
    var kwOnly, posIdx := KwOnly(s), 0;
    overflow := [];
    for i := 0 to |args|
      invariant posIdx == Filled(s, args[..i]) && overflow == Overflow(s, args[..i])
      invariant forall j :: 0 <= j < vals.Length ==>
        vals[j] == if j < posIdx then Some(PlainAt(args[..i], j).val) else None
    {
      assert args[..i + 1][..i] == args[..i];
      var a := args[i];
      if a.star {
        overflow := overflow + [a];
      } else if posIdx < kwOnly {
        vals[posIdx] := Some(a.val);
        posIdx := posIdx + 1;
      } else {
        overflow := overflow + [a];
      }
    }
    assert args[..|args|] == args;
  }

  method PlaceKeywords(s: Sig, ghost ok: Assignable, args: seq<Arg>, kws: seq<Kw>, vals: array<Option<int>>)
    returns (leftover: seq<Kw>)
    requires vals.Length == |s.params|
    requires forall q :: 0 <= q < |kws| ==> KwFits(s, ok, Filled(s, args), kws, q)
    requires forall j :: 0 <= j < vals.Length ==>
      vals[j] == if j < Filled(s, args) then Some(PlainAt(args, j).val) else None
    modifies vals
    ensures leftover == Leftover(s, kws)
    ensures forall j :: 0 <= j < vals.Length ==> vals[j] == Named(s, args, kws, j)
  {
    hide Filled, SlotOf, KwFor, PlainAt, Leftover;
    leftover := [];
    NoKws(s);
    NoneLeft(s);
    for q := 0 to |kws|
      invariant leftover == Leftover(s, kws[..q])
      invariant forall j :: 0 <= j < vals.Length ==> vals[j] == Named(s, args, kws[..q], j)
    {
      assert KwFits(s, ok, Filled(s, args), kws, q);
      OneKw(s, kws, q);
      OneLeft(s, kws, q);
      var k := kws[q];
      if k.dstar {
        leftover := leftover + [k];
        continue;
      }
      var slot := FindOpenSlot(s, k.name, vals);
      if slot.Some? {
        vals[slot.value] := Some(k.val);
      } else {
        leftover := leftover + [k];
      }
    }
    assert kws[..|kws|] == kws;
  }

  function Named(s: Sig, args: seq<Arg>, kws: seq<Kw>, j: nat): Option<int>
    requires j < |s.params|
  {
    if j < Filled(s, args) then Some(PlainAt(args, j).val)
    else if KwFor(s, kws, j).Some? then Some(kws[KwFor(s, kws, j).value].val)
    else None
  }

  /** The first parameter of that name that has no value yet. */
  method FindOpenSlot(s: Sig, name: string, vals: array<Option<int>>) returns (slot: Option<nat>)
    requires vals.Length == |s.params|
    requires var first := SlotOf(s, name, 0); first.Some? ==> vals[first.value].None?
    ensures slot == SlotOf(s, name, 0)
  {
    var i := 0;
    while i < |s.params|
      invariant 0 <= i <= |s.params| && SlotOf(s, name, 0) == SlotOf(s, name, i)
    {
      if vals[i].None? && i < |s.names| && s.names[i] == name { return Some(i); }
      i := i + 1;
    }
    return None;
  }

  lemma NoneLeft(s: Sig)
    ensures Leftover(s, []) == []
  {
  }

  lemma OneLeft(s: Sig, kws: seq<Kw>, q: nat)
    requires q < |kws|
    ensures Leftover(s, kws[..q + 1])
      == Leftover(s, kws[..q]) + (if kws[q].dstar || SlotOf(s, kws[q].name, 0).None? then [kws[q]] else [])
  {
    assert kws[..q + 1][..q] == kws[..q];
  }

  // ---- nothing lost, nothing twice ----

  /** The positionals that parameters take. */
  function Taken(s: Sig, args: seq<Arg>): seq<Arg> {
    seq(Filled(s, args), j requires 0 <= j < Filled(s, args) => PlainAt(args, j))
  }

  /** Each positional is a parameter's or in the rest, and only once. */
  lemma {:induction false} PositionalsConserved(s: Sig, args: seq<Arg>)
    ensures multiset(args) == multiset(Taken(s, args)) + multiset(Overflow(s, args))
  {
    hide Taken, Overflow;
    if args != [] {
      var front, last := args[..|args| - 1], args[|args| - 1];
      PositionalsConserved(s, front);
      assert args == front + [last];
      TakenMore(s, args);
    } else {
      NothingTaken(s);
    }
  }

  lemma NothingTaken(s: Sig)
    ensures Taken(s, []) == [] && Overflow(s, []) == []
  {
  }

  lemma TakenMore(s: Sig, args: seq<Arg>)
    requires args != []
    ensures var front, last := args[..|args| - 1], args[|args| - 1];
      if !last.star && Plains(front) < KwOnly(s)
      then Taken(s, args) == Taken(s, front) + [last] && Overflow(s, args) == Overflow(s, front)
      else Taken(s, args) == Taken(s, front) && Overflow(s, args) == Overflow(s, front) + [last]
  {
  }

  /** An accepted keyword is the only value of its parameter. */
  lemma KeywordsConserved(s: Sig, ok: Assignable, args: seq<Arg>, kws: seq<Kw>, q: nat, i: nat)
    requires Accepted(s, ok, args, kws) && q < |kws| && Binds(s, kws[q], i)
    ensures i < |s.params| && i >= Filled(s, args) && KwFor(s, kws, i) == Some(q)
    ensures NamedValue(s, args, kws, i) == Some(kws[q].val)
  {
    hide Filled, Plains, ArgFits;
    assert KwFits(s, ok, Filled(s, args), kws, q);
    assert forall f :: 0 <= f < q ==> kws[..q][f] == kws[f] && !Binds(s, kws[f], i);
  }

  /** Every value placed has a type its place takes, defaults aside: its parameter's, or
      the element type of the list or map of the rest (for `*expr` and `**expr`, what
      they hold). */
  lemma PlacedFits(s: Sig, ok: Assignable, args: seq<Arg>, kws: seq<Kw>)
    requires Accepted(s, ok, args, kws)
    ensures forall i :: 0 <= i < |s.params| ==>
      && (i < Filled(s, args) ==> ok(PlainAt(args, i).ty, s.params[i]))
      && (i >= Filled(s, args) && KwFor(s, kws, i).Some? ==> ok(kws[KwFor(s, kws, i).value].ty, s.params[i]))
    ensures forall a :: a in Overflow(s, args) ==> s.varArgs.Some? && RestFits(ok, a, s.varArgs.value)
    ensures forall k :: k in Leftover(s, kws) ==> s.kwargs.Some? && RestKwFits(ok, k, s.kwargs.value)
  {
    hide Plains, Overflow, Leftover, SlotOf, KwFor, PlainAt;
    forall i | 0 <= i < |s.params|
      ensures i < Filled(s, args) ==> ok(PlainAt(args, i).ty, s.params[i])
      ensures i >= Filled(s, args) && KwFor(s, kws, i).Some? ==> ok(kws[KwFor(s, kws, i).value].ty, s.params[i])
    {
      NamedFits(s, ok, args, kws, i);
    }
    forall a | a in Overflow(s, args) ensures s.varArgs.Some? && RestFits(ok, a, s.varArgs.value) {
      var k := OverflowIndex(s, args, a);
      assert ArgFits(s, ok, args, k);
    }
    forall k | k in Leftover(s, kws) ensures s.kwargs.Some? && RestKwFits(ok, k, s.kwargs.value) {
      var q := LeftoverIndex(s, kws, k);
      assert KwFits(s, ok, Filled(s, args), kws, q);
    }
  }

  predicate RestFits(ok: Assignable, a: Arg, t: Ty) {
    if a.star then a.ty.ListType? && ok(a.ty.elem, t) else ok(a.ty, t)
  }

  predicate RestKwFits(ok: Assignable, k: Kw, t: Ty) {
    if k.dstar then k.ty.MapType? && k.ty.key == StrType && ok(k.ty.val, t) else ok(k.ty, t)
  }

  lemma NamedFits(s: Sig, ok: Assignable, args: seq<Arg>, kws: seq<Kw>, i: nat)
    requires Accepted(s, ok, args, kws) && i < |s.params|
    ensures i < Filled(s, args) ==> ok(PlainAt(args, i).ty, s.params[i])
    ensures i >= Filled(s, args) && KwFor(s, kws, i).Some? ==> ok(kws[KwFor(s, kws, i).value].ty, s.params[i])
  {
    if i < Filled(s, args) {
      var k := PlainIndex(args, i);
      assert ArgFits(s, ok, args, k);
    } else if KwFor(s, kws, i).Some? {
      assert KwFits(s, ok, Filled(s, args), kws, KwFor(s, kws, i).value);
    }
  }

  /** What overflows is past the parameters, or unpacked. */
  lemma {:induction false} OverflowIndex(s: Sig, args: seq<Arg>, a: Arg) returns (k: nat)
    requires a in Overflow(s, args)
    ensures k < |args| && args[k] == a && (a.star || Plains(args[..k]) >= KwOnly(s))
    decreases |args|
  {
    var front := args[..|args| - 1];
    if a in Overflow(s, front) {
      k := OverflowIndex(s, front, a);
      assert front[..k] == args[..k];
    } else {
      k := |args| - 1;
    }
  }

  lemma {:induction false} LeftoverIndex(s: Sig, kws: seq<Kw>, k: Kw) returns (q: nat)
    requires k in Leftover(s, kws)
    ensures q < |kws| && kws[q] == k && (k.dstar || SlotOf(s, k.name, 0).None?)
    decreases |kws|
  {
    var front := kws[..|kws| - 1];
    if k in Leftover(s, front) {
      q := LeftoverIndex(s, front, k);
    } else {
      q := |kws| - 1;
    }
  }

  lemma {:induction false} PlainIndex(args: seq<Arg>, j: nat) returns (k: nat)
    requires j < Plains(args)
    ensures k < |args| && args[k] == PlainAt(args, j) && !args[k].star && Plains(args[..k]) == j
    decreases |args|
  {
    var front := args[..|args| - 1];
    if j < Plains(front) {
      k := PlainIndex(front, j);
      assert front[..k] == args[..k];
    } else {
      k := |args| - 1;
    }
  }

  // ---- which parameters positionals reach ----

  predicate NoStars(args: seq<Arg>) { forall k :: 0 <= k < |args| ==> !args[k].star }

  /** How many positionals parameters take when none is unpacked: all of them, if there are
      parameters enough in front of the keyword-only ones. */
  function Reach(s: Sig, args: seq<Arg>): (m: nat)
    ensures m <= |args| && m <= |s.params|
  {
    var n := if s.varArgs.Some? && 0 <= s.kwOnlyStart < |s.params| then s.kwOnlyStart else |s.params|;
    if |args| < n then |args| else n
  }

  lemma {:induction false} PlainsAll(args: seq<Arg>)
    requires NoStars(args)
    ensures Plains(args) == |args| && forall i :: 0 <= i < |args| ==> PlainAt(args, i) == args[i]
    decreases |args|
  {
    if args != [] { PlainsAll(args[..|args| - 1]); }
  }

  lemma OverflowStep(s: Sig, args: seq<Arg>)
    ensures Overflow(s, args)
      == if args == [] then []
         else
           var front, a := args[..|args| - 1], args[|args| - 1];
           Overflow(s, front) + (if a.star || Plains(front) >= KwOnly(s) then [a] else [])
  {
    hide Plains;
  }

  lemma {:induction false} OverflowAll(s: Sig, args: seq<Arg>)
    requires NoStars(args)
    ensures Overflow(s, args) == args[Reach(s, args)..]
    decreases |args|
  {
    hide Plains, Overflow;
    var m := Reach(s, args);
    if args != [] {
      var front, last := args[..|args| - 1], args[|args| - 1];
      PlainsAll(front);
      OverflowAll(s, front);
      OverflowStep(s, args);
      if m == |args| {
        assert args[m..] == [] && front[|front|..] == [];
      } else {
        assert args[m..] == front[m..] + [last];
      }
    } else {
      OverflowStep(s, args);
    }
  }

  /** With nothing unpacked, the first positionals go to the parameters in order, and the
      others to `*args`. */
  lemma PlainPositionals(s: Sig, args: seq<Arg>)
    requires NoStars(args)
    ensures var m := Reach(s, args);
      && Filled(s, args) == m && (forall i :: 0 <= i < m ==> PlainAt(args, i) == args[i])
      && Overflow(s, args) == args[m..]
  {
    hide Plains, Overflow, PlainAt;
    PlainsAll(args);
    OverflowAll(s, args);
  }

  lemma PlainFits(s: Sig, ok: Assignable, args: seq<Arg>, k: nat)
    requires NoStars(args) && k < |args|
    ensures ArgFits(s, ok, args, k) <==>
      if k < Reach(s, args) then ok(args[k].ty, s.params[k]) else s.varArgs.Some? && ok(args[k].ty, s.varArgs.value)
  {
    hide Plains;
    PlainsAll(args[..k]);
  }

  /** Behind `*args` a parameter receives the keyword of its name or its default, never a
      positional. */
  lemma KeywordOnly(s: Sig, ok: Assignable, args: seq<Arg>, kws: seq<Kw>, parts: seq<Part>, i: nat)
    requires Accepted(s, ok, args, kws) && Placed(s, args, kws, parts)
    requires s.varArgs.Some? && 0 <= s.kwOnlyStart <= i < |s.params|
    ensures i + 1 < |parts| && parts[i + 1].Value? && parts[s.kwOnlyStart].VarList?
    ensures (exists q :: 0 <= q < |kws| && !kws[q].dstar && i < |s.names| && s.names[i] == kws[q].name
                         && parts[i + 1].v == kws[q].val)
      || (i < |s.defaults| && s.defaults[i] == Some(parts[i + 1].v))
  {
    hide Plains, Overflow, PlainAt, SlotOf, KwFor, Accepted, Leftover;
    assert Filled(s, args) <= s.kwOnlyStart;
    assert NamedValue(s, args, kws, i).Some?;
    var q := KwFor(s, kws, i);
    if q.Some? { assert Binds(s, kws[q.value], i); }
  }

  /** The keywords that no parameter takes keep their order: what is left over of a list is
      what is left over of its parts, one after the other, and of a single keyword it is
      that one when it is unpacked or no parameter has its name. */
  lemma {:induction false} LeftoverOrder(s: Sig, a: seq<Kw>, b: seq<Kw>, k: Kw)
    ensures Leftover(s, a + b) == Leftover(s, a) + Leftover(s, b)
    ensures Leftover(s, [k])
      == if k.dstar || forall i :: 0 <= i < |s.params| && i < |s.names| ==> s.names[i] != k.name then [k] else []
    decreases |b|
  {
    hide SlotOf, Leftover;
    NoneLeft(s);
    OneLeft(s, [k], 0);
    assert [k][..1] == [k] && [k][..0] == [];
    if b == [] {
      assert a + b == a && Leftover(s, a) + [] == Leftover(s, a);
    } else {
      var n := |b| - 1;
      LeftoverOrder(s, a, b[..n], k);
      OneLeft(s, a + b, |a| + n);
      OneLeft(s, b, n);
      assert (a + b)[..|a| + n] == a + b[..n] && (a + b)[..|a| + n + 1] == a + b && b[..n + 1] == b;
    }
  }
}
