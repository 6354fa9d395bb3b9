/**
 Generators on the far side of each limit, and one on the near side of a fine line: what
 the calls answer, and what the language says.
 */
module GeneratorExamples {
  import opened Common
  import opened StmtSyntax
  import opened PySemantics
  import opened Machine
  import opened Lowering
  import opened LabelDiscipline
  import opened Simulation
  import opened Covered
  import opened LoweringSteps
  import opened TrySteps
  import opened Catching
  import opened GeneratorCorrect
  import opened GeneratorLimits
  import opened LimitExamples

  // ---- a yield in a try ----

  function YieldGuarded(v: int): Stmt { Try(Single(Yield(Const(v))), Handler(Bare, Nil, NoHandler), None) }

  /** `try: yield v except: pass`: the value goes out with the handler still pushed, and
      the next call comes back into the try without it. */
  lemma GuardGone(p: Program, w: World, v: int, lay: Layout, n: Count, m: Mach)
    returns (m2: Mach, m3: Mach)
    requires GoodLayout(Single(YieldGuarded(v)), lay, n) && w.gen
    requires p == GenProgram(w, Single(YieldGuarded(v)), lay, n) && Fresh(lay, m)
    ensures Answers(p, m, RetVal(v), m2) && m2.hs == [n.id + 1]
    ensures Steps(p, Resume(p, m2), 2, [], Running(m3)) && m3.pc == 8 && m3.hs == []
  {
    hide GoodLayout, GenProgram, GoodCtx, CodeAt, Step, RunFor, Find, SitesOf, SitesIn, LowerBlock, LowerStmt;
    hide LowerTry, LowerHandlers, CallFor, EnvOf, UniqueLabels, Resume, Steps, Answers, Persist;
    var body, ctx, n1 := Single(YieldGuarded(v)), GenCtx(lay), n.(id := n.id + 3);
    GuardCode(p, w, v, lay, n);
    EnterSteps(p, w, body, lay, n, m);
    var m1 := EnterTry(p, m.(pc := 2), n.id + 1, n.id, 2);
    Silent(p, m, 2, m.(pc := 2), 2, Running(m1));
    OneCall(p, m, 4, Running(m1));
    GuardedSites(Yield(Const(v)), Handler(Bare, Nil, NoHandler));
    YieldSites(Const(v));
    m2, m3 := YieldForgets(p, w, body, lay, n, ctx, n1, Const(v), m1);
    AnswersLater(p, m, 4, m1, RetVal(v), m2);
  }

  lemma GuardCode(p: Program, w: World, v: int, lay: Layout, n: Count)
    requires GoodLayout(Single(YieldGuarded(v)), lay, n) && w.gen && p == GenProgram(w, Single(YieldGuarded(v)), lay, n)
    ensures n.y == 0 && UniqueLabels(p.code) && 4 <= |p.code| && p.code[2] == Push(n.id + 1, n.id)
    ensures p.code[3] == Lbl(n.id)
    ensures CodeAt(p.code, 4, LowerStmt(Yield(Const(v)), GenCtx(lay), n.(id := n.id + 3)).ins)
  {
    hide GoodLayout, GenProgram, GoodCtx, CodeAt, LowerBlock, LowerStmt, LowerTry, LowerHandlers, UniqueLabels;
    var s, ctx := YieldGuarded(v), GenCtx(lay);
    var L, e := GenParts(p, w, Single(s), lay, n);
    IsTry(s, ctx, n);
    WholeBody(s, ctx, n);
    var a, z, q, u := TryParts(p, s, ctx, n, 2);
    WholeBody(Yield(Const(v)), ctx, n.(id := n.id + 3));
  }

  lemma IsTry(s: Stmt, ctx: Ctx, n: Count)
    requires s.Try? && s.fin.None?
    ensures LowerStmt(s, ctx, n) == LowerTry(s, ctx, n)
  {
    hide LowerTry;
  }

  lemma GuardedSites(y: Stmt, hs: Handlers)
    requires hs == Handler(Bare, Nil, NoHandler)
    ensures SitesOf(Single(Try(Single(y), hs, None))).y == SitesIn(y).y
  {
    hide SitesIn, SitesOf, SitesOfHandlers;
    OneSites(Try(Single(y), hs, None));
    OneSites(y);
    PlainTry(Single(y), hs);
    ClauseSites(Nil, NoHandler);
  }

  lemma ClauseSites(b: Block, rest: Handlers)
    ensures SitesOfHandlers(Handler(Bare, b, rest)) == SitesOf(b).Plus(SitesOfHandlers(rest))
  {
    hide SitesOf;
  }

  lemma YieldSites(e: Expr)
    ensures SitesIn(Yield(e)) == Sites(1, 0, 0)
  {
  }

  // ---- a return in a try ----

  /** `try: return finally: pass`: one call, which ends with the StopIteration of the
      return, with nothing pushed and the object exhausted. */
  lemma FinallyReturns(p: Program, w: World, lay: Layout, n: Count, m: Mach)
    returns (m2: Mach)
    requires GoodLayout(Single(INNER_RETURN), lay, n) && w.gen && p == GenProgram(w, Single(INNER_RETURN), lay, n)
    requires Fresh(lay, m)
    ensures Answers(p, m, Escaped(w.newStop(m.mem).0), m2) && Get(m2.store, lay.state) == -1 && m2.hs == []
  {
    hide GoodLayout, GenProgram, ExecBlock, LowerBlock, EnvOf, OkBlock, Answers;
    FinallyReturnsOk(lay.vars.Keys);
    FinallyReturnsMeans(w, Start(lay, m), 0);
    var m1, c := CallsFollowRun(p, w, Single(INNER_RETURN), lay, n, m, 0);
    m2 := c.m;
  }

  lemma FinallyReturnsOk(names: set<string>)
    ensures OkBlock(Single(INNER_RETURN), true, false, names, TOP)
  {
    hide OkStmt;
    OneOk(INNER_RETURN, true, false, names, TOP);
    GenReturnOk(names);
    OneOk(Return(None), true, false, names, FinallyScope(TOP, true));
    OneOk(Return(None), true, false, names, Scope(false, false, true, false));
    TryOk(INNER_RETURN, names);
  }

  lemma TryOk(s: Stmt, names: set<string>)
    requires s.Try? && s.fin.Some? && OkBlock(s.body, true, false, names, FinallyScope(TOP, true))
    requires OkHandlers(s.handlers, true, false, names, FinallyScope(TOP, true))
    requires OkBlock(s.fin.value, true, false, names, Scope(false, false, true, false))
    ensures OkStmt(s, true, false, names, TOP)
  {
    hide OkBlock, OkHandlers;
  }

  lemma GenReturnOk(names: set<string>)
    ensures OkStmt(Return(None), true, false, names, FinallyScope(TOP, true))
    ensures OkStmt(Return(None), true, false, names, BodyScope(TOP, true))
  {
  }

  lemma FinallyReturnsMeans(w: World, st: State, fuel: nat)
    requires w.gen
    ensures var r := ExecBlock(w, Single(INNER_RETURN), st, fuel);
      r.out == Returned(w.newStop(st.mem).0) && r.faithful && r.trace == []
  {
    hide PySemantics.Exec, ExecBlock, ExecCatch, SitesOf, SitesOfHandlers, SitesIn;
    ReturnMeans(w, st, fuel);
    OneRun(w, Return(None), st, fuel);
    OneRun(w, INNER_RETURN, st, fuel);
    NilRun(w, Leave(w, st).st, fuel);
    CatchOne(w, Return(None), INNER_RETURN.fin, st, fuel);
    FinallyUnfold(w, INNER_RETURN, st, fuel);
  }

  const RETURNS := Try(Single(Return(None)), Handler(Bare, Nil, NoHandler), None)

  function ReturnsThenYields(v: int): Block { Cons(RETURNS, Single(Yield(Const(v)))) }

  /** `try: return except: pass`, and then `yield v`: the language ends the generator
      without a value; the call answers with `v`. */
  lemma ReturnCaught(p: Program, w: World, v: int, lay: Layout, n: Count, m: Mach, fuel: nat)
    returns (m2: Mach)
    requires GoodLayout(ReturnsThenYields(v), lay, n) && w.gen && p == GenProgram(w, ReturnsThenYields(v), lay, n)
    requires Fresh(lay, m)
    ensures Answers(p, m, RetVal(v), m2)
    ensures var r := Straight(w, ReturnsThenYields(v), lay, m, fuel);
      r.out == Returned(w.newStop(m.mem).0) && r.trace == []
  {
    hide GoodLayout, GenProgram, GoodCtx, CodeAt, Step, RunFor, Find, LowerBlock, LowerTry, LowerHandlers, CallFor;
    hide EnvOf;
    hide ExecBlock, UniqueLabels, Steps, Answers;
    var ctx := GenCtx(lay);
    ReturnsMeans(w, v, Start(lay, m), fuel);
    var k, b, q, u := ToBareClause(p, w, v, lay, n, m);
    var a := LowerBlock(RETURNS.body, ctx, n.(id := n.id + 3));
    var j, d := EmptyClause(p, ctx, n, a, b, q, u);
    Silent(p, m, k, b, j, Running(d));
    OneCall(p, m, k + j, Running(d));
    m2 := YieldAt(p, w, ReturnsThenYields(v), lay, n, ctx, LowerTry(RETURNS, ctx, n).next, Const(v), d);
    AnswersLater(p, m, k + j, d, RetVal(v), m2);
  }

  /** From the start of the call to the clause, with the return in flight. */
  lemma ToBareClause(p: Program, w: World, v: int, lay: Layout, n: Count, m: Mach)
    returns (k: nat, b: Mach, q: nat, u: nat)
    requires GoodLayout(ReturnsThenYields(v), lay, n) && w.gen && p == GenProgram(w, ReturnsThenYields(v), lay, n)
    requires Fresh(lay, m)
    ensures Steps(p, m, k, [], Running(b)) && b.pc == q && UniqueLabels(p.code)
    ensures u < |p.code| && p.code[u] == Lbl(n.id + 2)
    ensures var ctx := GenCtx(lay); var a := LowerBlock(RETURNS.body, ctx, n.(id := n.id + 3));
      && CodeAt(p.code, q, LowerHandlers(RETURNS.handlers, n.id + 2, ctx, a.next).ins)
      && CodeAt(p.code, u + 1, LowerBlock(Single(Yield(Const(v))), ctx, LowerTry(RETURNS, ctx, n).next).ins)
  {
    hide GoodLayout, GenProgram, GoodCtx, CodeAt, Step, RunFor, Find, SitesOf, SitesIn, LowerBlock, LowerStmt, LowerTry;
    hide LowerHandlers, EnvOf, ExecBlock, UniqueLabels, OkStmt, OkBlock, PySemantics.Exec, Steps;
    var ctx := GenCtx(lay);
    var y := TwoCode(v, ctx, n);
    var top;
    q, u, top := BareCode(p, w, v, lay, n, y);
    EnterSteps(p, w, ReturnsThenYields(v), lay, n, m);
    ReturnsOk(lay.vars.Keys);
    ReturnsMeans(w, v, Start(lay, m), 0);
    var a, z, q2;
    k, b, a, z, q2 := ToClauses(p, RETURNS, ctx, TOP, n, top, m.(pc := 2), Start(lay, m), 0);
    Silent(p, m, 2, m.(pc := 2), k, Running(b));
    k := 2 + k;
  }

  /** Where the try, its clause and the code behind it are. */
  lemma BareCode(p: Program, w: World, v: int, lay: Layout, n: Count, y: Code)
    returns (q: nat, u: nat, top: Count)
    requires GoodLayout(ReturnsThenYields(v), lay, n) && w.gen && p == GenProgram(w, ReturnsThenYields(v), lay, n)
    requires var L := LowerBlock(ReturnsThenYields(v), GenCtx(lay), n); var t := LowerTry(RETURNS, GenCtx(lay), n);
      L.ins == t.ins + y.ins && L.next == y.next && Grows(t.next, y.next)
    ensures p.w == w && UniqueLabels(p.code) && GoodCtx(p, GenCtx(lay), TOP, n, top)
    ensures var t := LowerTry(RETURNS, GenCtx(lay), n);
      && Grows(t.next, top) && CodeAt(p.code, 2, t.ins) && CodeAt(p.code, u + 1, y.ins)
    ensures u < |p.code| && p.code[u] == Lbl(n.id + 2)
    ensures var a := LowerBlock(RETURNS.body, GenCtx(lay), n.(id := n.id + 3));
      q == 6 + |a.ins| + 2 && CodeAt(p.code, q, LowerHandlers(RETURNS.handlers, n.id + 2, GenCtx(lay), a.next).ins)
  {
    hide GoodLayout, GenProgram, GoodCtx, CodeAt, LowerBlock, LowerTry, LowerHandlers, UniqueLabels, SitesOf;
    var L, e := GenParts(p, w, ReturnsThenYields(v), lay, n);
    top := L.next;
    CodeAtSplit(p.code, 2, LowerTry(RETURNS, GenCtx(lay), n).ins, y.ins);
    var a, z, q1, u1 := TryParts(p, RETURNS, GenCtx(lay), n, 2);
    q, u := q1 + 4, u1 + 1;
  }

  lemma ReturnsOk(names: set<string>)
    ensures OkStmt(RETURNS, true, false, names, TOP)
  {
    hide OkStmt;
    GenReturnOk(names);
    OneOk(Return(None), true, false, names, BodyScope(TOP, true));
    OneOk(Return(None), true, false, names, TOP);
    PlainTryOk(RETURNS, names);
  }

  lemma PlainTryOk(s: Stmt, names: set<string>)
    requires s.Try? && s.fin.None? && OkBlock(s.body, true, false, names, BodyScope(TOP, true))
    requires s.handlers == Handler(Bare, Nil, NoHandler)
    ensures OkStmt(s, true, false, names, TOP)
  {
  }

  lemma TwoCode(v: int, ctx: Ctx, n: Count) returns (y: Code)
    ensures y == LowerBlock(Single(Yield(Const(v))), ctx, LowerTry(RETURNS, ctx, n).next)
    ensures LowerBlock(ReturnsThenYields(v), ctx, n).ins == LowerTry(RETURNS, ctx, n).ins + y.ins
    ensures LowerBlock(ReturnsThenYields(v), ctx, n).next == y.next && Grows(LowerTry(RETURNS, ctx, n).next, y.next)
  {
    hide LowerTry;
    y := LowerBlock(Single(Yield(Const(v))), ctx, LowerTry(RETURNS, ctx, n).next);
  }

  /** `except: pass` takes whatever is in flight and goes on behind the try. */
  lemma EmptyClause(p: Program, ctx: Ctx, n: Count, a: Code, m: Mach, pc: nat, i: nat)
    returns (k: nat, m1: Mach)
    requires UniqueLabels(p.code) && m.pc == pc
    requires CodeAt(p.code, pc, LowerHandlers(Handler(Bare, Nil, NoHandler), n.id + 2, ctx, a.next).ins)
    requires i < |p.code| && p.code[i] == Lbl(n.id + 2)
    ensures Steps(p, m, k, [], Running(m1)) && m1 == m.(pc := i + 1, inflight := 0)
  {
    hide CodeAt, Step, RunFor, Find, LowerHandlers;
    var c, z, body, mid := HandlerParts(p, Handler(Bare, Nil, NoHandler), n.id + 2, ctx, a.next, pc);
    k, m1 := HandlerEnter(p, m, Bare, a.next.id, pc);
    Jump(p, m1, n.id + 2, i);
    Silent(p, m, k, m1, 2, Running(m1.(pc := i + 1)));
    k, m1 := k + 2, m1.(pc := i + 1);
  }

  lemma YieldAt(p: Program, w: World, body: Block, lay: Layout, n: Count, ctx: Ctx, n1: Count, e: Expr, m: Mach)
    returns (m2: Mach)
    requires GoodLayout(body, lay, n) && w.gen && p == GenProgram(w, body, lay, n) && ctx.lay == lay
    requires CodeAt(p.code, m.pc, LowerBlock(Single(Yield(e)), ctx, n1).ins) && e(EnvOf(ctx.vars, m.store), m.mem).Val?
    ensures Answers(p, m, RetVal(e(EnvOf(ctx.vars, m.store), m.mem).v), m2)
  {
    hide GoodLayout, GenProgram, CodeAt, EnvOf;
    WholeBody(Yield(e), ctx, n1);
    var ins := LowerStmt(Yield(e), ctx, n1).ins;
    CodeAtIndex(p.code, m.pc, ins, 0);
    CodeAtIndex(p.code, m.pc, ins, 1);
    CodeAtIndex(p.code, m.pc, ins, 2);
    LayoutApart(p, w, body, lay, n);
    m2 := YieldReturns(p, lay, n1.y + 1, ctx.vars, e, m);
  }

  lemma ReturnsMeans(w: World, v: int, st: State, fuel: nat)
    requires w.gen
    ensures ExecBlock(w, RETURNS.body, st, fuel) == Leave(w, st)
    ensures var r := ExecBlock(w, ReturnsThenYields(v), st, fuel);
      r.out == Returned(w.newStop(st.mem).0) && r.trace == []
  {
    hide PySemantics.Exec, ExecBlock, ExecCatch, SitesOf, SitesIn;
    ReturnMeans(w, st, fuel);
    OneRun(w, Return(None), st, fuel);
    CatchAny(w, Single(Return(None)), Handler(Bare, Nil, NoHandler), st, fuel);
    ConsRun(w, RETURNS, Single(Yield(Const(v))), st, fuel);
  }

  // ---- a yield under the name of an except clause ----

  const NAME := "e"

  function Read(x: string): Expr { (env, mem) => Val(if x in env then env[x] else 0, mem, false) }

  function YieldThenName(v: int): Block { Cons(Yield(Const(v)), Single(Yield(Read(NAME)))) }

  function Named(cls: int, x: int, v: int): Stmt {
    Try(Single(Raise(Const(x))), Handler(TypedAs(cls, NAME), YieldThenName(v), NoHandler), None)
  }

  /** `try: raise x except C as e: yield v; yield e`: the language yields `v` and `x`, the
      calls answer `v` and 0. */
  lemma NameGone(p: Program, w: World, cls: int, x: int, v: int, lay: Layout, n: Count, m: Mach, fuel: nat)
    returns (m1: Mach)
    requires var body := Single(Named(cls, x, v)); GoodLayout(body, lay, n) && w.gen && p == GenProgram(w, body, lay, n)
    requires Fresh(lay, m) && w.isA(x, cls)
    ensures Serves(p, m, [v, 0], m1)
    ensures Straight(w, Single(Named(cls, x, v)), lay, m, fuel).trace == [v, x]
  {
    hide GoodLayout, GenProgram, GoodCtx, CodeAt, Step, RunFor, Find, LowerBlock, LowerStmt, LowerTry, LowerHandlers;
    hide EnvOf, ExecBlock, UniqueLabels, Steps, Serves, LossyRun, YieldsBetween, PySemantics.Exec, SitesOf, Named;
    hide YieldThenName;
    var st := Start(lay, m);
    NamedMeans(w, cls, x, v, st, fuel);
    var j, m2, inner, n2, top := ToNamed(p, w, cls, x, v, lay, n, m);
    var st2 := st.(env := st.env[NAME := x], inflight := 0);
    ForgottenName(w, v, inner, st2);
    BothYield(v, inner, ClauseScope(TOP, TypedAs(cls, NAME)));
    var k, c := BoundNameForgotten(p, YieldThenName(v), inner, ClauseScope(TOP, TypedAs(cls, NAME)),
                                   n2, top, m2, st2, 0);
    LastTwo(p, inner, m2, m2.pc + |LowerBlock(YieldThenName(v), inner, n2).ins|,
            LossyRun(w, YieldThenName(v), inner, st2, 0), k, c);
    StepsTrans(p, m, j, [], m2, k, [v, 0], c);
    assert [] + [v, 0] == [v, 0];
    var i;
    m1, i := CutIntoCalls(p, m, j + k, [v, 0], c);
  }

  lemma LastTwo(p: Program, ctx: Ctx, m: Mach, end: nat, r: Run, k: nat, c: Config)
    requires ComesTo(p, ctx, m, end, r, k, c)
    ensures Steps(p, m, k, r.trace, c)
  {
    hide RunFor, EnvOf;
  }

  /** From the start of the call into the body of the clause. */
  lemma ToNamed(p: Program, w: World, cls: int, x: int, v: int, lay: Layout, n: Count, m: Mach)
    returns (k: nat, m2: Mach, inner: Ctx, n2: Count, top: Count)
    requires var body := Single(Named(cls, x, v)); GoodLayout(body, lay, n) && w.gen && p == GenProgram(w, body, lay, n)
    requires Fresh(lay, m) && w.isA(x, cls)
    ensures p.w == w && inner.gen && inner.lay == lay && inner.vars.Keys == lay.vars.Keys + {NAME}
    ensures inner.vars[NAME] >= lay.fields && m2.hs == [] && Steps(p, m, k, [], Running(m2))
    ensures var st, sc := Start(lay, m), ClauseScope(TOP, TypedAs(cls, NAME));
      Ready(p, inner, sc, n2, top, m2, st.(env := st.env[NAME := x], inflight := 0),
            LowerBlock(YieldThenName(v), inner, n2))
  {
    hide GoodLayout, GenProgram, GoodCtx, CodeAt, Find, LowerBlock, LowerTry, LowerHandlers, Step, RunFor;
    hide EnvOf, UniqueLabels, Steps, YieldThenName, SitesOf, Frame;
    var s, ctx, pat := Named(cls, x, v), GenCtx(lay), TypedAs(cls, NAME);
    var a := LowerBlock(s.body, ctx, n.(id := n.id + 3));
    var c0, c;
    k, c0, c, top := ToRaised(p, w, cls, x, v, lay, n, m, a);
    GoodLater(p, ctx, TOP, n, a.next, top);
    GoodHandler(p, ctx, TOP, a.next, top, pat);
    SlotAbove(p, ctx, TOP, a.next, top);
    var j;
    j, m2 := HandlerEnter(p, c0, pat, a.next.id, c0.pc);
    var stored := BindEnv(p, ctx, TOP, a.next, top, pat, m.store, x);
    Silent(p, m, k, c0, j, Running(m2));
    k, inner, n2 := k + j, HandlerCtx(ctx, pat, a.next.id + 2), a.next.(id := a.next.id + 3);
  }

  /** From the start of the call to the clause, with the exception in flight. */
  lemma ToRaised(p: Program, w: World, cls: int, x: int, v: int, lay: Layout, n: Count, m: Mach, a: Code)
    returns (k: nat, c0: Mach, c: Code, top: Count)
    requires var body := Single(Named(cls, x, v)); GoodLayout(body, lay, n) && w.gen && p == GenProgram(w, body, lay, n)
    requires Fresh(lay, m) && a == LowerBlock(Named(cls, x, v).body, GenCtx(lay), n.(id := n.id + 3))
    ensures p.w == w && UniqueLabels(p.code) && GoodCtx(p, GenCtx(lay), TOP, n, top) && Grows(n, a.next)
    ensures Steps(p, m, k, [], Running(c0)) && c0 == m.(pc := c0.pc, inflight := x, hs := [])
    ensures var pat, pc := TypedAs(cls, NAME), c0.pc;
      && c == LowerBlock(YieldThenName(v), HandlerCtx(GenCtx(lay), pat, a.next.id + 2), a.next.(id := a.next.id + 3))
      && Grows(c.next, top) && pc + 4 <= |p.code| && CodeAt(p.code, pc + 4, c.ins)
      && p.code[pc] == IfExc(pat, a.next.id, a.next.id + 1) && p.code[pc + 1] == Lbl(a.next.id)
      && p.code[pc + 2] == BindExc(a.next.id + 2) && p.code[pc + 3] == Clear
  {
    hide GoodLayout, GenProgram, GoodCtx, CodeAt, Step, RunFor, Find, LowerBlock, LowerStmt, LowerTry, LowerHandlers;
    hide EnvOf, UniqueLabels, Steps, YieldThenName, SitesOf;
    var s, ctx := Named(cls, x, v), GenCtx(lay);
    var L, e := GenParts(p, w, Single(s), lay, n);
    top := L.next;
    IsTry(s, ctx, n);
    WholeBody(s, ctx, n);
    var a1, z, q, u := TryParts(p, s, ctx, n, 2);
    c := HandlerCode(p, s, ctx, n, a, q + 4);
    EnterSteps(p, w, Single(s), lay, n, m);
    var m1 := EnterTry(p, m.(pc := 2), n.id + 1, n.id, 2);
    Silent(p, m, 2, m.(pc := 2), 2, Running(m1));
    RaiseCode(p, Const(x), ctx, n.(id := n.id + 3), 4);
    var b := ThrowStep(p, m1, ctx.vars, x);
    Silent(p, m, 4, m1, 1, Running(b));
    LandTry(p, b, n.id + 1, [], q + 2);
    c0 := b.(pc := q + 4, hs := []);
    Silent(p, m, 5, b, 2, Running(c0));
    k := 7;
  }

  lemma SlotAbove(p: Program, ctx: Ctx, sc: Scope, n: Count, top: Count)
    requires GoodCtx(p, ctx, sc, n, top)
    ensures ctx.lay.fields <= n.id
  {
  }

  lemma HandlerCode(p: Program, s: Stmt, ctx: Ctx, n: Count, a: Code, pc: nat)
    returns (c: Code)
    requires s.Try? && s.handlers.Handler? && s.handlers.pat.TypedAs? && s.handlers.rest.NoHandler?
    requires CodeAt(p.code, pc, LowerHandlers(s.handlers, n.id + 2, ctx, a.next).ins)
    ensures c == LowerBlock(s.handlers.body, HandlerCtx(ctx, s.handlers.pat, a.next.id + 2),
                            a.next.(id := a.next.id + 3))
    ensures pc + 4 <= |p.code| && CodeAt(p.code, pc + 4, c.ins)
    ensures p.code[pc] == IfExc(s.handlers.pat, a.next.id, a.next.id + 1) && p.code[pc + 1] == Lbl(a.next.id)
    ensures p.code[pc + 2] == BindExc(a.next.id + 2) && p.code[pc + 3] == Clear
    ensures c.next == LowerHandlers(s.handlers, n.id + 2, ctx, a.next).next
  {
    hide CodeAt, LowerBlock, LowerHandlers;
    var z, body, mid;
    c, z, body, mid := HandlerParts(p, s.handlers, n.id + 2, ctx, a.next, pc);
    NoClauses(n.id + 2, ctx, c.next);
  }

  lemma NoClauses(after: int, ctx: Ctx, n: Count)
    ensures LowerHandlers(NoHandler, after, ctx, n).next == n
  {
  }

  lemma RaiseCode(p: Program, e: Expr, ctx: Ctx, n: Count, pc: nat)
    requires CodeAt(p.code, pc, LowerBlock(Single(Raise(e)), ctx, n).ins)
    ensures pc < |p.code| && p.code[pc] == Throw(ctx.vars, e)
  {
    hide CodeAt;
    WholeBody(Raise(e), ctx, n);
    CodeAtIndex(p.code, pc, LowerStmt(Raise(e), ctx, n).ins, 0);
  }

  lemma ThrowStep(p: Program, m: Mach, vars: Vars, x: int)
    returns (m1: Mach)
    requires m.pc < |p.code| && p.code[m.pc] == Throw(vars, Const(x)) && m.hs != []
    ensures Steps(p, m, 1, [], Running(m1)) && m1 == m.(pc := Find(p.code, m.hs[0]), inflight := x)
  {
    hide EnvOf, Find;
    StepsOne(p, m);
    m1 := Step(p, m).m;
  }

  /** The code's run of the clause: the name reads 0 behind the first yield. */
  lemma ForgottenName(w: World, v: int, ctx: Ctx, st: State)
    requires NAME in ctx.vars && ctx.vars[NAME] >= ctx.lay.fields && NAME in st.env
    ensures var r := LossyRun(w, YieldThenName(v), ctx, st, 0); r.trace == [v, 0] && r.faithful
  {
  }

  lemma BothYield(v: int, ctx: Ctx, sc: Scope)
    ensures YieldsBetween(YieldThenName(v), ctx, sc)
  {
    hide OkStmt;
    assert YieldsBetween(Nil, ctx, sc);
    assert YieldsBetween(Single(Yield(Read(NAME))), ctx, sc);
  }

  /** The language yields the exception itself. */
  lemma NamedMeans(w: World, cls: int, x: int, v: int, st: State, fuel: nat)
    requires w.isA(x, cls)
    ensures ExecBlock(w, Single(Named(cls, x, v)), st, fuel).trace == [v, x]
  {
    hide PySemantics.Exec, ExecBlock, ExecCatch, ExecHandlers, SitesOf, SitesOfHandlers, SitesIn, YieldThenName;
    var s, st1 := Named(cls, x, v), st.(inflight := x);
    OneRun(w, s, st, fuel);
    OneRun(w, Raise(Const(x)), st, fuel);
    RaiseMeans(w, x, st, fuel);
    TryUnfold(w, s, st, fuel);
    ClauseRuns(w, s.handlers, x, st1, fuel);
    NameMeans(w, x, v, st1.(env := st1.env[NAME := x], inflight := 0), fuel);
  }

  lemma RaiseMeans(w: World, x: int, st: State, fuel: nat)
    ensures PySemantics.Exec(w, Raise(Const(x)), st, fuel) == Stop(Raised(x), st.(inflight := x))
  {
  }

  lemma TryUnfold(w: World, s: Stmt, st: State, fuel: nat)
    requires s.Try? && s.fin.None? && ExecBlock(w, s.body, st, fuel).out.Raised?
    ensures var r := ExecBlock(w, s.body, st, fuel);
      PySemantics.Exec(w, s, st, fuel).trace == r.trace + ExecHandlers(w, s.handlers, r.out.obj, r.st, fuel).trace
  {
    hide ExecBlock, ExecHandlers, SitesOf;
  }

  lemma ClauseRuns(w: World, hs: Handlers, obj: int, st: State, fuel: nat)
    requires hs.Handler? && Matches(w, hs.pat, obj)
    ensures ExecHandlers(w, hs, obj, st, fuel).trace
         == ExecBlock(w, hs.body, st.(env := Bind(hs.pat, st.env, obj), inflight := 0), fuel).trace
  {
    hide ExecBlock;
  }

  lemma NameMeans(w: World, x: int, v: int, st: State, fuel: nat)
    requires NAME in st.env && st.env[NAME] == x
    ensures ExecBlock(w, YieldThenName(v), st, fuel).trace == [v, x]
  {
    hide ExecBlock, Emit;
    EnvKept(w, st);
    TwoYields(w, Const(v), Read(NAME), v, x, st, fuel);
  }

  lemma TwoYields(w: World, e: Expr, e2: Expr, v: int, v2: int, st: State, fuel: nat)
    requires e(st.env, st.mem) == Val(v, st.mem, false)
    requires e2(Emit(w, st).env, Emit(w, st).mem) == Val(v2, Emit(w, st).mem, false)
    ensures ExecBlock(w, Cons(Yield(e), Single(Yield(e2))), st, fuel).trace == [v, v2]
  {
    hide ExecBlock, PySemantics.Exec, SitesIn, Emit, From;
    var st1 := Emit(w, st);
    ConsRun(w, Yield(e), Single(Yield(e2)), st, fuel);
    YieldPlain(w, e, v, st, fuel);
    OneRun(w, Yield(e2), st1, fuel);
    YieldPlain(w, e2, v2, st1, fuel);
    FromTrace(SitesIn(Yield(e)).y, ExecBlock(w, Single(Yield(e2)), st1, fuel));
  }

  lemma EnvKept(w: World, st: State)
    ensures Emit(w, st).env == st.env
  {
  }

  lemma FromTrace(k: nat, r: Run)
    ensures From(k, r).trace == r.trace
  {
  }

  lemma YieldPlain(w: World, e: Expr, v: int, st: State, fuel: nat)
    requires e(st.env, st.mem) == Val(v, st.mem, false)
    ensures PySemantics.Exec(w, Yield(e), st, fuel) == Run(Normal, Emit(w, st), [v], true, 1)
  {
    hide PySemantics.Exec, Emit;
    YieldRun(w, Yield(e), st, fuel);
  }
}
