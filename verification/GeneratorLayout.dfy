/**
 The object of a generator: which locals it saves, how many sites its body has,
 and where each field is. Mirrors the walk over the body that happens before any
 code is emitted; the counts must agree with what the emitter then uses up.
 */
module GeneratorLayout {
  import opened Common
  import opened StmtSyntax
  import opened Machine
  import opened Lowering
  import opened LabelDiscipline
  import opened Simulation
  import opened GeneratorCorrect

  // ---- what the walk looks for, apart from sites ----

  /** The names a body assigns or loops over, anywhere in it. */
  function Assigned(b: Block): set<string> {
    match b
    case Nil => {}
    case Cons(s, rest) => AssignedIn(s) + Assigned(rest)
  }

  function AssignedIn(s: Stmt): set<string> {
    match s
    case Assign(x, _) => {x}
    case If(_, thn, els) => Assigned(thn) + AssignedElifs(els)
    case While(_, body) => Assigned(body)
    case ForIter(x, _, body) => {x} + Assigned(body)
    case Try(body, hs, fin) =>
      Assigned(body) + AssignedHandlers(hs) + (if fin.Some? then Assigned(fin.value) else {})
    case _ => {}
  }

  function AssignedElifs(els: Elifs): set<string> {
    match els
    case NoElse => {}
    case Else(b) => Assigned(b)
    case Elif(_, b, rest) => Assigned(b) + AssignedElifs(rest)
  }

  function AssignedHandlers(hs: Handlers): set<string> {
    match hs
    case NoHandler => {}
    case Handler(_, b, rest) => Assigned(b) + AssignedHandlers(rest)
  }

  // ---- the walk ----

  lemma BlockNames(b: Block)
    requires b.Cons?
    ensures Assigned(b) == AssignedIn(b.head) + Assigned(b.tail) && SitesOf(b) == SitesIn(b.head).Plus(SitesOf(b.tail))
  {
    hide AssignedIn, SitesIn;
  }

  lemma NoNames()
    ensures Assigned(Nil) == {} && SitesOf(Nil) == NONE
  {
  }

  lemma Regroup(a: set<string>, b: set<string>, c: set<string>)
    ensures a + (b + c) == (a + b) + c
  {
  }

  lemma TryNames(s: Stmt)
    requires s.Try?
    ensures AssignedIn(s) == Assigned(s.body) + AssignedHandlers(s.handlers)
      + (if s.fin.Some? then Assigned(s.fin.value) else {})
    ensures var fin := if s.fin.Some? then SitesOf(s.fin.value) else NONE;
      SitesIn(s) == SitesOf(s.body).Plus(SitesOfHandlers(s.handlers)).Plus(fin)
  {
    hide Assigned, AssignedHandlers, SitesOf, SitesOfHandlers;
  }

  ghost predicate Distinct(s: seq<string>) {
    forall i, j :: 0 <= i < j < |s| ==> s[i] != s[j]
  }

  function Names(s: seq<string>): set<string> { set x | x in s }

  /** Collects the locals of a body, in order of first assignment, and counts its sites. */
  class Walker {
    const params: seq<string>
    var seen: set<string>
    var locals: seq<string>
    var numYields: nat
    var numYieldFrom: nat
    var numForIter: nat

    ghost predicate Valid() reads this {
      seen == Names(params) + Names(locals) && Distinct(locals) && Names(locals) !! Names(params)
    }

    ghost function Counted(): Sites reads this { Sites(numYields, numYieldFrom, numForIter) }

    /** The walk found the names in `names` and the sites in `sites`. */
    twostate predicate Found(names: set<string>, sites: Sites) reads this {
      Valid() && seen == old(seen) + names && Counted() == old(Counted()).Plus(sites)
    }

    constructor (params: seq<string>)
      ensures Valid() && this.params == params && seen == Names(params) && Counted() == NONE
    {
      this.params := params;
      seen, locals := Names(params), [];
      numYields, numYieldFrom, numForIter := 0, 0, 0;
    }

    method AddLocal(x: string)
      requires Valid()
      modifies this
      ensures Found({x}, NONE)
    {
      if x in seen { return; }
      seen := seen + {x};
      locals := locals + [x];
    }

    method Walk(b: Block)
      requires Valid()
      modifies this
      ensures Found(Assigned(b), SitesOf(b))
      decreases b, 0
    {
      hide Valid, Assigned, AssignedIn, SitesOf, SitesIn;
      var rest := b;
      while rest.Cons?
        invariant Valid() && seen + Assigned(rest) == old(seen) + Assigned(b)
        invariant Counted().Plus(SitesOf(rest)) == old(Counted()).Plus(SitesOf(b))
        invariant rest == b || rest < b
        decreases rest
      {
        BlockNames(rest);
        Regroup(seen, AssignedIn(rest.head), Assigned(rest.tail));
        WalkStmt(rest.head);
        rest := rest.tail;
      }
      NoNames();
    }

    method WalkStmt(s: Stmt)
      requires Valid()
      modifies this
      ensures Found(AssignedIn(s), SitesIn(s))
      decreases s, 1
    {
      hide Names, Distinct, Assigned, AssignedElifs, SitesOf, SitesOfElifs, AssignedHandlers, SitesOfHandlers;
      match s
      case Yield(_) => numYields := numYields + 1;
      case YieldFrom(_) => numYields, numYieldFrom := numYields + 1, numYieldFrom + 1;
      case Assign(x, _) => AddLocal(x);
      case ForIter(x, _, body) =>
        numForIter := numForIter + 1;
        AddLocal(x);
        Walk(body);
      case If(_, thn, els) =>
        Walk(thn);
        WalkElifs(els);
      case While(_, body) => Walk(body);
      case Try(_, _, _) => WalkTry(s);
      case _ =>
    }

    method WalkTry(s: Stmt)
      requires Valid() && s.Try?
      modifies this
      ensures Found(AssignedIn(s), SitesIn(s))
      decreases s, 0
    {
      hide Valid, Assigned, AssignedIn, SitesOf, SitesIn, AssignedHandlers, SitesOfHandlers;
      TryNames(s);
      Walk(s.body);
      WalkHandlers(s.handlers);
      if s.fin.Some? { Walk(s.fin.value); }
    }

    method WalkElifs(els: Elifs)
      requires Valid()
      modifies this
      ensures Found(AssignedElifs(els), SitesOfElifs(els))
      decreases els, 0
    {
      hide Valid, Assigned, SitesOf;
      var rest := els;
      while rest.Elif?
        invariant Valid() && seen + AssignedElifs(rest) == old(seen) + AssignedElifs(els)
        invariant Counted().Plus(SitesOfElifs(rest)) == old(Counted()).Plus(SitesOfElifs(els))
        invariant rest == els || rest < els
        decreases rest
      {
        Walk(rest.b);
        rest := rest.rest;
      }
      if rest.Else? { Walk(rest.b); }
    }

    method WalkHandlers(hs: Handlers)
      requires Valid()
      modifies this
      ensures Found(AssignedHandlers(hs), SitesOfHandlers(hs))
      decreases hs, 0
    {
      hide Valid, Assigned, SitesOf;
      var rest := hs;
      while rest.Handler?
        invariant Valid() && seen + AssignedHandlers(rest) == old(seen) + AssignedHandlers(hs)
        invariant Counted().Plus(SitesOfHandlers(rest)) == old(Counted()).Plus(SitesOfHandlers(hs))
        invariant rest == hs || rest < hs
        decreases rest
      {
        Walk(rest.body);
        rest := rest.rest;
      }
    }
  }

  // ---- the fields ----

  const STATE := "__state"

  /** The slots of the variables: parameters from field 1 on, then the locals one after
      another. */
  ghost predicate VarsAt(params: seq<string>, locals: seq<string>, vars: Vars) {
    && vars.Keys == Names(params) + Names(locals)
    && (forall i :: 0 <= i < |locals| ==> vars[locals[i]] == 1 + |params| + i)
    && forall x :: x in params && x !in locals ==> 1 <= vars[x] <= |params| && params[vars[x] - 1] == x
  }

  /** `s` with `x` left out. */
  function Without(x: string, s: seq<string>): seq<string> {
    if s == [] then []
    else Without(x, s[..|s| - 1]) + (if s[|s| - 1] == x then [] else [s[|s| - 1]])
  }

  lemma EmptyWithout(s: seq<string>)
    ensures Without(STATE, s[..0]) == []
  {
  }

  lemma WithoutStep(x: string, s: seq<string>, i: nat)
    requires i < |s|
    ensures Without(x, s[..i + 1]) == Without(x, s[..i]) + (if s[i] == x then [] else [s[i]])
  {
    assert s[..i + 1][..i] == s[..i];
  }

  /** Where an element of `s` is once `x` is left out. */
  lemma {:induction false} WithoutAt(x: string, s: seq<string>, j: nat)
    requires Distinct(s) && j < |s| && s[j] != x
    ensures var k := j - (if x in s[..j] then 1 else 0); 0 <= k < |Without(x, s)| && Without(x, s)[k] == s[j]
    ensures |Without(x, s)| == |s| - (if x in s then 1 else 0)
  {
    WithoutLength(x, s);
    if j == |s| - 1 {
      WithoutLength(x, s[..j]);
      assert s == s[..j] + [s[j]];
    } else {
      var t := s[..|s| - 1];
      WithoutAt(x, t, j);
      assert t[..j] == s[..j];
    }
  }

  lemma {:induction false} WithoutLength(x: string, s: seq<string>)
    requires Distinct(s)
    ensures |Without(x, s)| == |s| - (if x in s then 1 else 0)
  {
    if s != [] {
      WithoutLength(x, s[..|s| - 1]);
      assert s == s[..|s| - 1] + [s[|s| - 1]];
    }
  }

  /** The fields of the object, in order; an inner iterator's name is given without its
      number. A name that already has a field gets no other. */
  method Register(params: seq<string>, locals: seq<string>, numYieldFrom: nat, numForIter: nat)
    returns (fields: seq<string>, localStart: nat, synthStart: nat, value: nat)
    requires Distinct(locals) && Names(locals) !! Names(params)
    ensures |fields| == value + 1 && localStart == 1 + |params|
    ensures synthStart == localStart + |locals| - (if "__state" in locals then 1 else 0)
    ensures value == synthStart + numYieldFrom + numForIter
    ensures fields[..localStart] == ["__state"] + params
    ensures fields[localStart..synthStart] == Without("__state", locals)
    ensures forall k :: synthStart <= k < value ==>
      fields[k] == if k < synthStart + numYieldFrom then "__yfiter" else "__foriter"
    ensures fields[value] == "__value"
  {
    hide Without;
    fields := [STATE] + params;
    localStart := |fields|;
    assert Without(STATE, locals[..0]) == [] by { EmptyWithout(locals); }
    var i := 0;
    while i < |locals|
      invariant 0 <= i <= |locals|
      invariant |fields| == localStart + i - (if STATE in locals[..i] then 1 else 0)
      invariant localStart <= |fields| && fields[..localStart] == [STATE] + params
      invariant forall x :: x in fields <==> x == STATE || x in params || x in locals[..i]
      invariant fields[localStart..] == Without(STATE, locals[..i])
    {
      assert locals[i] !in locals[..i] && locals[i] in Names(locals);
      assert locals[..i + 1] == locals[..i] + [locals[i]];
      WithoutStep(STATE, locals, i);
      if locals[i] !in fields { fields := fields + [locals[i]]; }
      i := i + 1;
    }
    assert locals[..|locals|] == locals;
    synthStart := |fields|;
    ghost var front := fields;
    i := 0;
    while i < numYieldFrom + numForIter
      invariant 0 <= i <= numYieldFrom + numForIter && |fields| == synthStart + i && front <= fields
      invariant forall k :: synthStart <= k < |fields| ==>
        fields[k] == if k < synthStart + numYieldFrom then "__yfiter" else "__foriter"
    {
      fields := fields + [if i < numYieldFrom then "__yfiter" else "__foriter"];
      i := i + 1;
    }
    value := |fields|;
    fields := fields + ["__value"];
    assert fields[localStart..synthStart] == front[localStart..] && fields[..localStart] == front[..localStart];
  }

  lemma NoVars()
    ensures VarsAt([], [], map[])
  {
  }

  lemma NextParam(params: seq<string>, i: nat, vars: Vars)
    requires i < |params| && VarsAt(params[..i], [], vars)
    ensures VarsAt(params[..i + 1], [], vars[params[i] := 1 + i])
  {
    assert params[..i + 1] == params[..i] + [params[i]];
  }

  lemma NextLocal(params: seq<string>, locals: seq<string>, i: nat, vars: Vars)
    requires i < |locals| && VarsAt(params, locals[..i], vars) && Distinct(locals) && Names(locals) !! Names(params)
    ensures VarsAt(params, locals[..i + 1], vars[locals[i] := 1 + |params| + i])
  {
    assert locals[..i + 1] == locals[..i] + [locals[i]];
    assert locals[i] in Names(locals) && locals[i] !in locals[..i];
  }

  /** Where the emitted code looks for each variable: one field after another. */
  method Address(params: seq<string>, locals: seq<string>)
    returns (vars: Vars)
    requires Distinct(locals) && Names(locals) !! Names(params)
    ensures VarsAt(params, locals, vars)
  {
    hide VarsAt;
    vars := map[];
    NoVars();
    var i := 0;
    while i < |params|
      invariant 0 <= i <= |params| && VarsAt(params[..i], [], vars)
    {
      NextParam(params, i, vars);
      vars := vars[params[i] := 1 + i];
      i := i + 1;
    }
    assert params[..|params|] == params && locals[..0] == [];
    i := 0;
    while i < |locals|
      invariant 0 <= i <= |locals| && VarsAt(params, locals[..i], vars)
    {
      NextLocal(params, locals, i, vars);
      vars := vars[locals[i] := 1 + |params| + i];
      i := i + 1;
    }
    assert locals[..|locals|] == locals;
  }

  /** Each local is addressed at its own field, unless a local named like the state field
      comes before it: then one field too far, and the last local at the first field
      behind all of them. */
  lemma FieldOfLocal(params: seq<string>, locals: seq<string>, vars: Vars, fields: seq<string>, synthStart: nat, j: nat)
    requires VarsAt(params, locals, vars) && Distinct(locals) && j < |locals|
    requires 1 + |params| <= synthStart <= |fields| && fields[1 + |params|..synthStart] == Without(STATE, locals)
    ensures LocalSlot(params, locals, vars, j)
    ensures locals[j] != "__state" && "__state" !in locals[..j] ==>
      vars[locals[j]] < synthStart && fields[vars[locals[j]]] == locals[j]
    ensures locals[j] != "__state" && "__state" in locals[..j] ==>
      1 + |params| < vars[locals[j]] <= synthStart && fields[vars[locals[j]] - 1] == locals[j]
    ensures "__state" in locals && j == |locals| - 1 ==> vars[locals[j]] == synthStart
  {
    hide Without, Distinct, VarsAt;
    WithoutLength(STATE, locals);
    Addressed(params, locals, vars, j);
    if locals[j] != STATE {
      WithoutAt(STATE, locals, j);
      var k := j - (if STATE in locals[..j] then 1 else 0);
      assert fields[1 + |params|..synthStart][k] == fields[1 + |params| + k];
    }
  }

  ghost predicate LocalSlot(params: seq<string>, locals: seq<string>, vars: Vars, j: nat) {
    j < |locals| && locals[j] in vars && vars[locals[j]] == 1 + |params| + j
  }

  lemma Addressed(params: seq<string>, locals: seq<string>, vars: Vars, j: nat)
    requires VarsAt(params, locals, vars) && j < |locals|
    ensures LocalSlot(params, locals, vars, j)
  {
    assert locals[j] in Names(locals);
  }

  /** With the locals `__state` and `a` and one loop over an iterator, `a` is addressed
      where the iterator is. */
  method StateShadowed() returns (fields: seq<string>, vars: Vars)
    ensures fields == ["__state", "a", "__foriter", "__value"]
    ensures vars.Keys == {"__state", "a"} && vars["__state"] == 1 && vars["a"] == 2
  {
    var locals := [STATE, "a"];
    var localStart, synthStart, value;
    assert locals[0] == STATE && locals[1] == "a";
    fields, localStart, synthStart, value := Register([], locals, 0, 1);
    vars := Address([], locals);
    WithoutTwo(locals);
    Addressed([], locals, vars, 0);
    Addressed([], locals, vars, 1);
    assert fields[localStart..synthStart][0] == fields[1];
  }

  lemma WithoutTwo(s: seq<string>)
    requires |s| == 2 && s[0] == STATE != s[1]
    ensures Without(STATE, s) == [s[1]]
  {
    EmptyWithout(s);
    WithoutStep(STATE, s, 0);
    WithoutStep(STATE, s, 1);
    assert s[..2] == s;
  }

  /** Lays the object out and numbers the labels of the switch. All is well exactly when
      no local is named like the state field: such a local gets no field, yet the
      locals after it are addressed as if it had one. */
  method Plan(params: seq<string>, body: Block, firstLabel: int)
    returns (fields: seq<string>, lay: Layout, n: Count, sites: Sites)
    ensures sites == SitesOf(body) && (n.y, n.yf, n.fi) == (0, 0, 0)
    ensures n.id >= firstLabel && lay.fields == |fields| && lay.state == 0
    ensures lay.vars.Keys == Names(params) + Assigned(body)
    ensures GoodLayout(body, lay, n) <==> "__state" !in Assigned(body) - Names(params)
  {
    hide GoodLayout, Assigned, SitesOf, VarsAt, LowerBlock, Distinct, Names;
    var locals;
    locals, sites := Collect(params, body);
    var localStart, synth, value;
    fields, localStart, synth, value := Register(params, locals, sites.yf, sites.fi);
    var vars := Address(params, locals);
    var exhausted := if firstLabel < |fields| then |fields| else firstLabel;
    lay := Layout(vars, 0, value, synth, synth + sites.yf, exhausted + 1, exhausted, |fields|);
    n := Count(exhausted + 2 + sites.y, 0, 0, 0);
    VarsKeys(params, locals, vars);
    PlanGood(params, locals, body, lay, n);
  }

  method Collect(params: seq<string>, body: Block) returns (locals: seq<string>, sites: Sites)
    ensures Distinct(locals) && Names(locals) !! Names(params)
    ensures Names(params) + Names(locals) == Names(params) + Assigned(body)
    ensures STATE in locals <==> STATE in Assigned(body) - Names(params)
    ensures sites == SitesOf(body)
  {
    hide Assigned, SitesOf, Names, Distinct;
    var w := new Walker(params);
    w.Walk(body);
    locals, sites := w.locals, Sites(w.numYields, w.numYieldFrom, w.numForIter);
    OnlyNew(params, locals, Assigned(body));
  }

  lemma OnlyNew(params: seq<string>, locals: seq<string>, names: set<string>)
    requires Names(params) + names == Names(params) + Names(locals) && Names(locals) !! Names(params)
    ensures STATE in locals <==> STATE in names - Names(params)
  {
    assert STATE in locals <==> STATE in Names(locals);
  }

  lemma VarsKeys(params: seq<string>, locals: seq<string>, vars: Vars)
    requires VarsAt(params, locals, vars)
    ensures vars.Keys == Names(params) + Names(locals)
  {
  }

  lemma PlanGood(params: seq<string>, locals: seq<string>, body: Block, lay: Layout, n: Count)
    requires VarsAt(params, locals, lay.vars) && Distinct(locals) && Names(locals) !! Names(params)
    requires lay.state == 0 && lay.yfBase == 1 + |params| + |locals| - (if STATE in locals then 1 else 0)
    requires lay.fiBase == lay.yfBase + SitesOf(body).yf && lay.value == lay.fiBase + SitesOf(body).fi
    requires lay.fields == lay.value + 1
    requires lay.exhausted >= lay.fields && lay.caseBase == lay.exhausted + 1
    requires n == Count(lay.exhausted + 2 + SitesOf(body).y, 0, 0, 0)
    ensures GoodLayout(body, lay, n) <==> STATE !in locals
  {
    hide LowerBlock, SitesOf;
    SitesUsed(body, GenCtx(lay), n);
    if STATE in locals {
      assert locals[|locals| - 1] in lay.vars && lay.vars[locals[|locals| - 1]] == lay.yfBase;
    } else {
      forall x, y | x in lay.vars && y in lay.vars && lay.vars[x] == lay.vars[y] ensures x == y {
        if x in locals && y in locals {
          var i :| 0 <= i < |locals| && locals[i] == x;
          var j :| 0 <= j < |locals| && locals[j] == y;
        }
      }
    }
  }
}
