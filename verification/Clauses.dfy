/**
 Which except clause an exception gets into, said of the clauses themselves: the first
 bare one, or one for a class that the exception is an instance of.
 */
module Clauses {
  import opened Common
  import opened StmtSyntax
  import opened PySemantics
  import opened Machine
  import opened Lowering
  import opened LabelDiscipline
  import opened Simulation
  import opened LoweringSteps
  import opened TrySteps

  function Length(hs: Handlers): nat {
    if hs.NoHandler? then 0 else 1 + Length(hs.rest)
  }

  /** The `k`-th clause, and those behind it. */
  function Clause(hs: Handlers, k: nat): (r: Handlers)
    requires k < Length(hs)
    ensures r.Handler?
  {
    if k == 0 then hs else Clause(hs.rest, k - 1)
  }

  /** `except:`, `except C:` and `except C as x:` for an instance `obj` of `C`. */
  predicate Takes(w: World, pat: Pattern, obj: int) {
    match pat
    case Bare => true
    case Typed(cls) => w.isA(obj, cls)
    case TypedAs(cls, _) => w.isA(obj, cls)
  }

  /** Clause `k` is the first that takes `obj`; with `k` the number of clauses, none does. */
  ghost predicate First(w: World, hs: Handlers, obj: int, k: nat) {
    && k <= Length(hs)
    && (forall j :: 0 <= j < k ==> !Takes(w, Clause(hs, j).pat, obj))
    && (k < Length(hs) ==> Takes(w, Clause(hs, k).pat, obj))
  }

  lemma {:induction false} SomeFirst(w: World, hs: Handlers, obj: int) returns (k: nat)
    ensures First(w, hs, obj, k)
  {
    if hs.NoHandler? || Takes(w, hs.pat, obj) {
      k := 0;
    } else {
      var j := SomeFirst(w, hs.rest, obj);
      k := j + 1;
      forall i | 0 <= i < k ensures !Takes(w, Clause(hs, i).pat, obj) {
        if i > 0 { assert Clause(hs, i) == Clause(hs.rest, i - 1); }
      }
    }
  }

  lemma FirstOfRest(w: World, hs: Handlers, obj: int, k: nat)
    requires hs.Handler? && First(w, hs, obj, k)
    ensures k == 0 <==> Takes(w, hs.pat, obj)
    ensures k > 0 ==> First(w, hs.rest, obj, k - 1)
  {
    assert Clause(hs, 0) == hs;
    forall i | 0 <= i < k - 1 ensures !Takes(w, Clause(hs.rest, i).pat, obj) {
      assert Clause(hs, i + 1) == Clause(hs.rest, i);
    }
  }

  /** What the language makes of an exception: the first clause that takes it runs, with
      nothing in flight and its name, if it has one, bound to the exception; that name
      means afterwards what it meant before. Without one the exception goes on. */
  lemma {:induction false} ClauseRuns(w: World, hs: Handlers, obj: int, st: State, fuel: nat, k: nat)
    requires First(w, hs, obj, k)
    ensures k == Length(hs) ==> ExecHandlers(w, hs, obj, st, fuel) == Stop(Raised(obj), st)
    ensures k < Length(hs) ==>
      var c, r := Clause(hs, k), ExecHandlers(w, hs, obj, st, fuel);
      var named := c.pat.TypedAs?;
      var inside := st.(env := if named then st.env[c.pat.name := obj] else st.env, inflight := 0);
      var b := ExecBlock(w, c.body, inside, fuel);
      && r.out == b.out && r.trace == b.trace && r.faithful == b.faithful
      && (r.st.mem, r.st.inflight, r.st.calls) == (b.st.mem, b.st.inflight, b.st.calls)
      && (forall y :: !named || y != c.pat.name ==> (y in r.st.env <==> y in b.st.env))
      && (forall y :: y in r.st.env && (!named || y != c.pat.name) ==> r.st.env[y] == b.st.env[y])
      && (named ==> (c.pat.name in r.st.env <==> c.pat.name in st.env))
      && (named && c.pat.name in st.env ==> r.st.env[c.pat.name] == st.env[c.pat.name])
    decreases hs
  {
    hide ExecBlock, SitesOf;
    if hs.Handler? {
      FirstOfRest(w, hs, obj, k);
      if k > 0 {
        ClauseRuns(w, hs.rest, obj, st, fuel, k - 1);
        if k < Length(hs) { NextClause(hs, k); }
      }
    }
  }

  lemma NextClause(hs: Handlers, k: nat)
    requires hs.Handler? && 0 < k < Length(hs)
    ensures Clause(hs, k) == Clause(hs.rest, k - 1)
  {
  }

  /** The code at `pc` is the body of the clause `c`, with the slot `slot` for its name. */
  ghost predicate BodyAt(p: Program, pc: nat, c: Handlers, slot: int) {
    c.Handler? &&
    exists ctx: Ctx, n: Count ::
      && (c.pat.TypedAs? ==> c.pat.name in ctx.vars && ctx.vars[c.pat.name] == slot)
      && CodeAt(p.code, pc, LowerBlock(c.body, ctx, n).ins)
  }

  /** What the code does: the first clause that takes the exception in flight is entered,
      with nothing in flight and the exception in the slot of its name; without one
      control falls through, the exception still in flight. */
  lemma {:induction false} ClauseEntered(p: Program, hs: Handlers, after: int, ctx: Ctx, n: Count, m: Mach, k: nat)
    returns (j: nat, m1: Mach, slot: int)
    requires UniqueLabels(p.code) && CodeAt(p.code, m.pc, LowerHandlers(hs, after, ctx, n).ins)
    requires First(p.w, hs, m.inflight, k)
    ensures Steps(p, m, j, [], Running(m1)) && m1.mem == m.mem && m1.hs == m.hs && m1.calls == m.calls
    ensures k == Length(hs) ==> m1 == m.(pc := m.pc + |LowerHandlers(hs, after, ctx, n).ins|)
    ensures k < Length(hs) ==>
      && m1.inflight == 0 && BodyAt(p, m1.pc, Clause(hs, k), slot) && slot >= n.id
      && m1.store == if Clause(hs, k).pat.TypedAs? then m.store[slot := m.inflight] else m.store
    decreases hs
  {
    hide LowerBlock, LowerHandlers, Step, RunFor, Find, CodeAt, UniqueLabels, First;
    if hs.NoHandler? {
      NoSteps(p, m);
      NothingThere(hs, after, ctx, n);
      NoneLeft(p.w, hs, m.inflight, k);
      j, m1, slot := 0, m, 0;
    } else {
      var a, z, body, mid := HandlerParts(p, hs, after, ctx, n, m.pc);
      FirstOfRest(p.w, hs, m.inflight, k);
      if k == 0 {
        j, m1 := HandlerEnter(p, m, hs.pat, n.id, m.pc);
        slot := n.id + 2;
        assert CodeAt(p.code, m1.pc, LowerBlock(hs.body, HandlerCtx(ctx, hs.pat, slot), n.(id := n.id + 3)).ins);
      } else {
        HandlerSkip(p, m, hs.pat, n.id, m.pc, mid + 1);
        var m2 := m.(pc := mid + 2);
        GrowsInto(hs.body, HandlerCtx(ctx, hs.pat, n.id + 2), n.(id := n.id + 3));
        j, m1, slot := ClauseEntered(p, hs.rest, after, ctx, a.next, m2, k - 1);
        if k < Length(hs) { NextClause(hs, k); }
        Silent(p, m, 2, m2, j, Running(m1));
        j := 2 + j;
      }
    }
  }

  lemma GrowsInto(b: Block, ctx: Ctx, n: Count)
    ensures n.id <= LowerBlock(b, ctx, n).next.id
  {
  }

  lemma NothingThere(hs: Handlers, after: int, ctx: Ctx, n: Count)
    requires hs.NoHandler?
    ensures LowerHandlers(hs, after, ctx, n).ins == [] && Length(hs) == 0
  {
  }

  lemma NoneLeft(w: World, hs: Handlers, obj: int, k: nat)
    requires hs.NoHandler? && First(w, hs, obj, k)
    ensures k == 0
  {
  }
}
