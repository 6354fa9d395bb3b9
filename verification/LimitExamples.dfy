/**
 For each limit a program that crosses it: what the machine does with it, and what the
 language says it means.
 */
module LimitExamples {
  import opened Common
  import opened StmtSyntax
  import opened PySemantics
  import opened Machine
  import opened Lowering
  import opened LabelDiscipline
  import opened Simulation
  import opened Covered
  import opened LoweringSteps
  import opened TrySteps
  import opened FunctionCorrect
  import opened Catching
  import opened LoweringLimits

  function Const(v: int): Expr { (env: Env, mem: Mem) => Val(v, mem, false) }

  function Single(s: Stmt): Block { Cons(s, Nil) }

  function Start(lay: Layout, m: Mach): State { State(EnvOf(lay.vars, m.store), m.mem, m.inflight, m.calls) }

  /** A call of the function whose whole body is the try `s`. */
  lemma FuncStart(p: Program, w: World, s: Stmt, lay: Layout, n: Count, m: Mach)
    returns (top: Count)
    requires GoodFunction(lay, n) && !w.gen && p == FuncProgram(w, Single(s), true, lay, n) && s.Try?
    requires SitesIn(s).y == 0
    requires m.pc == 0 && m.hs == []
    ensures top == LowerStmt(s, FuncCtx(true, lay), n).next && p.w == w && !p.w.gen
    ensures Ready(p, FuncCtx(true, lay), TOP, n, top, m, Start(lay, m),
                  if s.fin.None? then LowerTry(s, FuncCtx(true, lay), n) else LowerTryFinally(s, FuncCtx(true, lay), n))
  {
    hide GoodCtx, EnvOf, LowerTry, LowerTryFinally, SitesIn;
    var L := FuncParts(p, w, Single(s), true, lay, n);
    top := L.next;
    assert LowerBlock(Single(s), FuncCtx(true, lay), n).ins == LowerStmt(s, FuncCtx(true, lay), n).ins;
  }

  lemma OneSites(s: Stmt)
    ensures SitesOf(Single(s)) == SitesIn(s) && SitesOf(Nil) == NONE && SitesOfHandlers(NoHandler) == NONE
  {
    hide SitesIn;
  }

  lemma OneRun(w: World, s: Stmt, st: State, fuel: nat)
    ensures ExecBlock(w, Single(s), st, fuel) == PySemantics.Exec(w, s, st, fuel)
    ensures ExecBlock(w, Nil, st, fuel) == Stop(Normal, st)
    ensures SitesOf(Single(s)) == SitesIn(s) && SitesOf(Nil) == NONE && SitesOfHandlers(NoHandler) == NONE
  {
    hide PySemantics.Exec, ExecBlock, SitesIn, SitesOf, SitesOfHandlers, After, From;
    var r := PySemantics.Exec(w, s, st, fuel);
    OneSites(s);
    ConsRun(w, s, Nil, st, fuel);
    NilRun(w, st, fuel);
    NilRun(w, r.st, fuel);
    if r.out.Normal? { AfterNothing(r, SitesIn(s).y); }
  }

  lemma ConsRun(w: World, s: Stmt, rest: Block, st: State, fuel: nat)
    ensures var r := PySemantics.Exec(w, s, st, fuel);
      ExecBlock(w, Cons(s, rest), st, fuel)
        == if r.out.Normal? then After(r, From(SitesIn(s).y, ExecBlock(w, rest, r.st, fuel))) else r
  {
    hide PySemantics.Exec, SitesIn, After, From;
  }

  lemma NilRun(w: World, st: State, fuel: nat)
    ensures ExecBlock(w, Nil, st, fuel) == Stop(Normal, st)
  {
  }

  lemma AfterNothing(r: Run, k: nat)
    requires r.out.Normal?
    ensures After(r, From(k, Stop(Normal, r.st))) == r
  {
    assert r.trace + [] == r.trace;
  }

  lemma OneOk(s: Stmt, gen: bool, void: bool, names: set<string>, sc: Scope)
    ensures OkBlock(Single(s), gen, void, names, sc) == OkStmt(s, gen, void, names, sc)
    ensures OkBlock(Nil, gen, void, names, sc) && OkHandlers(NoHandler, gen, void, names, sc)
  {
    hide OkStmt;
  }

  /** A try with a single statement and no clause: nothing is caught. */
  lemma CatchOne(w: World, s: Stmt, fin: Option<Block>, st: State, fuel: nat)
    ensures ExecCatch(w, Try(Single(s), NoHandler, fin), st, fuel) == PySemantics.Exec(w, s, st, fuel)
  {
    hide PySemantics.Exec, ExecBlock, SitesIn, SitesOf;
    OneRun(w, s, st, fuel);
  }

  lemma FinallyOne(w: World, s: Stmt, fin: Block, st: State, fuel: nat)
    requires !PySemantics.Exec(w, s, st, fuel).out.OutOfFuel?
    requires ExecBlock(w, fin, PySemantics.Exec(w, s, st, fuel).st, fuel).out.Normal?
    ensures var r, t := PySemantics.Exec(w, s, st, fuel), Try(Single(s), NoHandler, Some(fin));
      var f := ExecBlock(w, fin, r.st, fuel);
      && PySemantics.Exec(w, t, st, fuel).out == r.out && PySemantics.Exec(w, t, st, fuel).st == f.st
      && PySemantics.Exec(w, t, st, fuel).trace == r.trace + f.trace && FinRun(w, t, st, fuel) == f
  {
    hide PySemantics.Exec, ExecBlock, ExecCatch, SitesIn, SitesOf, SitesOfHandlers;
    var t := Try(Single(s), NoHandler, Some(fin));
    CatchOne(w, s, Some(fin), st, fuel);
    FinallyUnfold(w, t, st, fuel);
  }

  lemma FinallyUnfold(w: World, t: Stmt, st: State, fuel: nat)
    requires t.Try? && t.fin.Some?
    ensures PySemantics.Exec(w, t, st, fuel)
      == ExecFinally(w, ExecCatch(w, t, st, fuel), SitesOf(t.body).y + SitesOfHandlers(t.handlers).y, t.fin.value, fuel)
  {
    hide ExecBlock, ExecCatch, ExecFinally, SitesOf, SitesOfHandlers;
  }

  lemma PlainTry(b: Block, hs: Handlers)
    ensures SitesIn(Try(b, hs, None)) == SitesOf(b).Plus(SitesOfHandlers(hs)).Plus(NONE)
  {
    hide SitesOf, SitesOfHandlers;
  }

  lemma CatchAny(w: World, b: Block, hs: Handlers, st: State, fuel: nat)
    requires !ExecBlock(w, b, st, fuel).out.Raised?
    ensures var r := ExecBlock(w, b, st, fuel);
      PySemantics.Exec(w, Try(b, hs, None), st, fuel) == r.(faithful := r.faithful && !Taken(w, hs, r.out))
  {
    hide ExecBlock;
  }

  lemma GuardedOne(s: Stmt, fin: Block, ctx: Ctx, sc: Scope, isc: Scope)
    requires Guarded(ctx, isc) && OkStmt(s, ctx.gen, ctx.void, ctx.vars.Keys, isc)
    requires OkBlock(fin, ctx.gen, ctx.void, ctx.vars.Keys, Scope(false, false, true, sc.inFin))
    ensures OkGuarded(Try(Single(s), NoHandler, Some(fin)), ctx, sc, isc)
  {
    hide OkStmt;
    OneOk(s, ctx.gen, ctx.void, ctx.vars.Keys, isc);
  }

  // ---- try: return ----

  const EARLY_RETURN := Try(Single(Return(None)), NoHandler, None)

  lemma ReturnMeans(w: World, st: State, fuel: nat)
    ensures PySemantics.Exec(w, Return(None), st, fuel) == Leave(w, st) && SitesIn(Return(None)) == NONE
  {
  }

  lemma ReturnOk(names: set<string>)
    ensures OkStmt(Return(None), false, true, names, Scope(true, false, true, false))
  {
  }

  lemma EarlyReturnOk(names: set<string>)
    ensures OkBlock(EARLY_RETURN.body, false, true, names, Scope(true, false, true, false))
    ensures OkHandlers(NoHandler, false, true, names, TOP)
  {
    hide OkStmt, OkBlock, OkHandlers;
    ReturnOk(names);
    OneOk(Return(None), false, true, names, Scope(true, false, true, false));
    OneOk(Return(None), false, true, names, TOP);
  }

  lemma EarlyReturnSites(w: World, st: State, fuel: nat)
    ensures SitesIn(EARLY_RETURN).y == 0
  {
    hide PySemantics.Exec, SitesIn, SitesOf, SitesOfHandlers;
    ReturnMeans(w, st, fuel);
    OneSites(Return(None));
    PlainTry(Single(Return(None)), NoHandler);
  }

  lemma EarlyReturnMeans(w: World, st: State, fuel: nat)
    requires !w.gen
    ensures ExecBlock(w, EARLY_RETURN.body, st, fuel) == Stop(Returned(0), st)
    ensures PySemantics.Exec(w, EARLY_RETURN, st, fuel) == Stop(Returned(0), st)
  {
    hide PySemantics.Exec, SitesIn, ExecBlock, SitesOf, SitesOfHandlers;
    ReturnMeans(w, st, fuel);
    OneRun(w, Return(None), st, fuel);
    CatchAny(w, Single(Return(None)), NoHandler, st, fuel);
  }

  /** `try: return` leaves its handler on the runtime's stack. */
  lemma EarlyReturnLeaks(p: Program, w: World, lay: Layout, n: Count, m: Mach)
    returns (m2: Mach)
    requires GoodFunction(lay, n) && !w.gen && p == FuncProgram(w, Single(EARLY_RETURN), true, lay, n) && m.pc == 0
    requires m.hs == []
    ensures Answers(p, m, RetVal(0), m2) && m2.hs == [n.id + 1]
  {
    hide Ready, Step, RunFor, EnvOf, OkBlock, OkHandlers, OkGuarded, ExecBlock, ExecCatch, ExecFinally;
    hide ExecHandlers, PySemantics.Exec, LowerStmt, LowerTry, LowerTryFinally, LowerBlock, FuncProgram;
    hide GoodFunction, SitesIn, SitesOf, CallFor, Find, FinRun, Catches, GoodCtx;
    EarlyReturnOk(lay.vars.Keys);
    EarlyReturnSites(w, Start(lay, m), 0);
    EarlyReturnMeans(w, Start(lay, m), 0);
    var top := FuncStart(p, w, EARLY_RETURN, lay, n, m);
    var k, c := HandlerLeftBehind(p, EARLY_RETURN, FuncCtx(true, lay), TOP, Scope(true, false, true, false), n, top,
                                  m, Start(lay, m), 0);
    OneCall(p, m, k, c);
    m2 := c.m;
  }

  // ---- finally: something that catches ----

  const CATCHES := Eval((env, mem) => Val(0, mem, true))

  function Clumsy(x: int): Stmt {
    Try(Single(Raise(Const(x))), NoHandler, Some(Single(CATCHES)))
  }

  lemma ClumsyParts(w: World, x: int, st: State, fuel: nat)
    ensures PySemantics.Exec(w, Raise(Const(x)), st, fuel) == Stop(Raised(x), st.(inflight := x))
    ensures PySemantics.Exec(w, CATCHES, st, fuel) == Stop(Normal, st.(inflight := 0))
    ensures CatchesStmt(w, CATCHES, st, fuel)
    ensures SitesIn(Raise(Const(x))) == NONE && SitesIn(CATCHES) == NONE
  {
  }

  lemma ClumsyMeans(w: World, x: int, st: State, fuel: nat)
    ensures SitesIn(Clumsy(x)).y == 0
    ensures ExecCatch(w, Clumsy(x), st, fuel) == Stop(Raised(x), st.(inflight := x))
    ensures FinRun(w, Clumsy(x), st, fuel) == Stop(Normal, st.(inflight := 0))
    ensures PySemantics.Exec(w, Clumsy(x), st, fuel).out == Raised(x)
    ensures Catches(w, Clumsy(x).fin.value, st.(inflight := x), fuel)
  {
    hide PySemantics.Exec, ExecBlock, ExecCatch, ExecFinally, SitesOf, SitesOfHandlers, FinRun, CatchesStmt;
    ClumsyParts(w, x, st, fuel);
    ClumsyParts(w, x, st.(inflight := x), fuel);
    OneRun(w, Raise(Const(x)), st, fuel);
    CatchOne(w, Raise(Const(x)), Clumsy(x).fin, st, fuel);
    OneRun(w, CATCHES, st.(inflight := x), fuel);
    FinallyOne(w, Raise(Const(x)), Single(CATCHES), st, fuel);
  }

  /** `try: raise x finally: f()` where `f` catches an exception of its own: an empty
      slot is thrown instead of `x`. */
  lemma ClumsyLoses(p: Program, w: World, x: int, lay: Layout, n: Count, m: Mach)
    returns (m2: Mach)
    requires GoodFunction(lay, n) && !w.gen && p == FuncProgram(w, Single(Clumsy(x)), true, lay, n) && m.pc == 0
    requires m.hs == []
    ensures Answers(p, m, Escaped(0), m2)
    ensures PySemantics.Exec(w, Clumsy(x), Start(lay, m), 0).out == Raised(x)
  {
    hide Ready, Step, RunFor, EnvOf, OkBlock, OkHandlers, OkGuarded, ExecBlock, ExecCatch, ExecFinally;
    hide ExecHandlers, PySemantics.Exec, LowerStmt, LowerTry, LowerTryFinally, LowerBlock, FuncProgram;
    hide GoodFunction, SitesIn, SitesOf, CallFor, Find, FinRun, Catches, GoodCtx;
    var s := Clumsy(x);
    ClumsyMeans(w, x, Start(lay, m), 0);
    OneOk(CATCHES, false, true, lay.vars.Keys, Scope(false, false, true, false));
    GuardedOne(Raise(Const(x)), Single(CATCHES), FuncCtx(true, lay), TOP, Scope(true, false, true, true));
    var top := FuncStart(p, w, s, lay, n, m);
    var k, c := RethrowsTheSlot(p, s, FuncCtx(true, lay), TOP, Scope(true, false, true, true), n, top,
                                m, Start(lay, m), 0);
    assert ExecCatch(w, s, Start(lay, m), 0).trace + FinRun(w, s, Start(lay, m), 0).trace == [];
    OneCall(p, m, k, c);
    m2 := c.m;
  }

  // ---- two finallies ----

  const INNER_RETURN := Try(Single(Return(None)), NoHandler, Some(Nil))

  const TOUCH := Eval((env, mem: Mem) => Val(0, mem[0 := 1], false))

  const SKIPPING := Try(Single(INNER_RETURN), NoHandler, Some(Single(TOUCH)))

  lemma InnerReturnMeans(w: World, st: State, fuel: nat)
    requires !w.gen
    ensures SitesIn(INNER_RETURN).y == 0 && ExecCatch(w, INNER_RETURN, st, fuel) == Stop(Returned(0), st)
    ensures FinRun(w, INNER_RETURN, st, fuel) == Stop(Normal, st)
    ensures var r := PySemantics.Exec(w, INNER_RETURN, st, fuel); r.out == Returned(0) && r.st == st && r.trace == []
  {
    hide PySemantics.Exec, SitesIn, ExecBlock, ExecCatch, ExecFinally, SitesOf, SitesOfHandlers, FinRun;
    ReturnMeans(w, st, fuel);
    TrySites(Return(None), Nil);
    OneRun(w, Return(None), st, fuel);
    CatchOne(w, Return(None), INNER_RETURN.fin, st, fuel);
    FinallyOne(w, Return(None), Nil, st, fuel);
  }

  lemma TouchMeans(w: World, st: State, fuel: nat)
    ensures PySemantics.Exec(w, TOUCH, st, fuel) == Stop(Normal, st.(mem := st.mem[0 := 1])) && SitesIn(TOUCH) == NONE
  {
  }

  lemma SkippingMeans(w: World, st: State, fuel: nat)
    requires !w.gen
    ensures SitesIn(SKIPPING).y == 0
    ensures var g := ExecCatch(w, SKIPPING, st, fuel); g.out == Returned(0) && g.st == st && g.trace == []
    ensures PySemantics.Exec(w, SKIPPING, st, fuel).st.mem == st.mem[0 := 1]
  {
    hide PySemantics.Exec, SitesIn, ExecBlock, ExecCatch, ExecFinally, SitesOf, SitesOfHandlers, FinRun;
    InnerReturnMeans(w, st, fuel);
    TouchMeans(w, st, fuel);
    TrySites(INNER_RETURN, Single(TOUCH));
    OneRun(w, INNER_RETURN, st, fuel);
    CatchOne(w, INNER_RETURN, SKIPPING.fin, st, fuel);
    OneRun(w, TOUCH, st, fuel);
    FinallyOne(w, INNER_RETURN, Single(TOUCH), st, fuel);
  }

  /** `try: try: return finally: pass finally: f()`: the call returns with the heap that
      `f` should have changed as it was, and the outer handler still pushed. */
  lemma OuterSkipped(p: Program, w: World, lay: Layout, n: Count, m: Mach)
    returns (m2: Mach)
    requires GoodFunction(lay, n) && !w.gen && p == FuncProgram(w, Single(SKIPPING), true, lay, n) && m.pc == 0
    requires m.hs == []
    ensures Answers(p, m, RetVal(0), m2) && m2.mem == m.mem && m2.hs == [n.id + 3]
    ensures PySemantics.Exec(w, SKIPPING, Start(lay, m), 0).st.mem == m.mem[0 := 1]
  {
    hide Ready, Step, RunFor, EnvOf, OkBlock, OkHandlers, OkGuarded, ExecBlock, ExecCatch, ExecFinally;
    hide ExecHandlers, PySemantics.Exec, LowerStmt, LowerTry, LowerTryFinally, LowerBlock, FuncProgram;
    hide GoodFunction, SitesIn, SitesOf, CallFor, Find, FinRun, Catches, GoodCtx;
    SkippingMeans(w, Start(lay, m), 0);
    InnerReturnMeans(w, Start(lay, m), 0);
    OneOk(Return(None), false, true, lay.vars.Keys, Scope(false, false, true, true));
    GuardedOne(Return(None), Nil, Inner(FuncCtx(true, lay), n.id), FinallyScope(TOP, false),
               Scope(true, false, true, true));
    var top := FuncStart(p, w, SKIPPING, lay, n, m);
    OneOk(Return(None), false, true, lay.vars.Keys, FinallyScope(TOP, false));
    NilRun(w, Start(lay, m), 0);
    var k, c := OuterFinallySkipped(p, SKIPPING, Nil, INNER_RETURN, Nil, FuncCtx(true, lay), TOP,
                                    Scope(true, false, true, true), n, top, m, Start(lay, m), 0);
    OneCall(p, m, k, c);
    m2 := c.m;
  }

  const INNER_BREAK := Try(Single(Break), NoHandler, Some(Nil))

  const OUTER := Try(Single(INNER_BREAK), NoHandler, Some(Nil))

  const ENDLESS := While(Const(1), Single(OUTER))

  lemma OuterMeans(w: World, st: State, fuel: nat)
    ensures ExecCatch(w, INNER_BREAK, st, fuel) == Stop(Broke, st)
    ensures FinRun(w, INNER_BREAK, st, fuel) == Stop(Normal, st)
    ensures var g := ExecCatch(w, OUTER, st, fuel);
      g.out == Broke && g.st == st && g.trace == [] && FinRun(w, OUTER, st, fuel) == Stop(Normal, st)
    ensures ExecBlock(w, Single(OUTER), st, fuel).out == Broke
  {
    hide PySemantics.Exec, SitesIn, ExecBlock, ExecCatch, ExecFinally, SitesOf, SitesOfHandlers, FinRun;
    BreakMeans(w, st, fuel);
    OneRun(w, Break, st, fuel);
    CatchOne(w, Break, INNER_BREAK.fin, st, fuel);
    FinallyOne(w, Break, Nil, st, fuel);
    OneRun(w, INNER_BREAK, st, fuel);
    CatchOne(w, INNER_BREAK, OUTER.fin, st, fuel);
    FinallyOne(w, INNER_BREAK, Nil, st, fuel);
    OneRun(w, OUTER, st, fuel);
  }

  /** The loop in the code: its condition at 2, its body from 4 on. */
  lemma LoopCode(p: Program, w: World, lay: Layout, n: Count, st: State)
    returns (inner: Ctx, n1: Count, top: Count, mid: nat)
    requires GoodFunction(lay, n) && !w.gen && p == FuncProgram(w, Single(ENDLESS), true, lay, n)
    ensures inner == LoopCtx(FuncCtx(true, lay), n.id + 2, n.id) && n1 == n.(id := n.id + 3) && p.w == w && !p.w.gen
    ensures GoodCtx(p, inner, TOP.(loopOk := true), n1, top) && UniqueLabels(p.code)
    ensures var L := LowerTryFinally(OUTER, inner, n1);
      Grows(n1, L.next) && Grows(L.next, top) && CodeAt(p.code, 4, L.ins) && mid == 4 + |L.ins|
    ensures mid + 1 < |p.code| && p.code[0] == Br(n.id) && p.code[1] == Lbl(n.id)
    ensures p.code[2] == CondBr(lay.vars, Const(1), n.id + 1, n.id + 2) && p.code[3] == Lbl(n.id + 1)
    ensures p.code[mid] == Br(n.id) && p.code[mid + 1] == Lbl(n.id + 2)
  {
    hide LowerBlock, LowerStmt, LowerTryFinally, LowerWhile, FuncProgram, GoodFunction, SitesIn, SitesOf, GoodCtx;
    hide CodeAt, UniqueLabels;
    EndlessSites(w, st);
    var ctx := FuncCtx(true, lay);
    var L := FuncParts(p, w, Single(ENDLESS), true, lay, n);
    WholeBody(ENDLESS, ctx, n);
    IsWhile(ctx, n);
    var a;
    a, mid := WhileParts(p, ENDLESS, ctx, n, 0);
    inner, n1, top := LoopCtx(ctx, n.id + 2, n.id), n.(id := n.id + 3), L.next;
    GoodLabels(p, ctx, TOP, n, top);
    GoodLoop(p, ctx, TOP, n, n1, top, n.id + 2, n.id);
    WholeBody(OUTER, inner, n1);
  }

  /** One round of the loop, from behind its head label and back. */
  lemma Round(p: Program, w: World, lay: Layout, n: Count, m: Mach)
    returns (k: nat, m2: Mach)
    requires GoodFunction(lay, n) && !w.gen && p == FuncProgram(w, Single(ENDLESS), true, lay, n) && m.pc == 2
    requires m.hs == []
    ensures k > 0 && Steps(p, m, k, [], Running(m2)) && m2.pc == 2 && m2.hs == []
  {
    hide Step, RunFor, EnvOf, OkBlock, OkHandlers, OkGuarded, ExecBlock, ExecCatch, ExecFinally, PySemantics.Exec;
    hide LowerBlock, LowerStmt, LowerTryFinally, FuncProgram, GoodFunction, SitesIn, SitesOf, Find, FinRun, GoodCtx;
    hide CodeAt, Steps, UniqueLabels;
    var inner, n1, top, mid := LoopCode(p, w, lay, n, Start(lay, m));
    var m1 := CondSteps(p, m, lay.vars, Const(1), n.id + 1, n.id + 2, 3, mid + 1, Val(1, m.mem, false));
    OneOk(Break, false, true, lay.vars.Keys, Scope(false, false, true, true));
    OneOk(Break, false, true, lay.vars.Keys, Scope(false, false, true, false));
    GuardedOne(Break, Nil, Inner(inner, n1.id), FinallyScope(TOP.(loopOk := true), false),
               Scope(true, true, true, true));
    OuterMeans(w, Start(lay, m1), 0);
    OneOk(Break, false, true, lay.vars.Keys, FinallyScope(TOP.(loopOk := true), false));
    NilRun(w, Start(lay, m1), 0);
    var j;
    j, m2 := ExitForgotten(p, OUTER, Nil, INNER_BREAK, Nil, inner, TOP.(loopOk := true), Scope(true, true, true, true),
                           n1, top, m1, Start(lay, m1), 0);
    assert ExecCatch(w, OUTER, Start(lay, m1), 0).trace + FinRun(w, OUTER, Start(lay, m1), 0).trace == [];
    Silent(p, m, 2, m1, j, Running(m2));
    Jump(p, m2, n.id, 1);
    Silent(p, m, 2 + j, m2, 2, Running(m2.(pc := 2)));
    k, m2 := 2 + j + 2, m2.(pc := 2);
  }

  lemma EndlessSites(w: World, st: State)
    ensures SitesOf(Single(ENDLESS)).y == 0
  {
    hide SitesOf, SitesIn;
    TrySites(Break, Nil);
    TrySites(INNER_BREAK, Nil);
    OneSites(Break);
    OneSites(OUTER);
    OneSites(ENDLESS);
    WhileSites(Const(1), Single(OUTER));
    BreakMeans(w, st, 0);
  }

  lemma TrySites(s: Stmt, fin: Block)
    ensures SitesIn(Try(Single(s), NoHandler, Some(fin))).y == SitesIn(s).y + SitesOf(fin).y
  {
    hide SitesOf, SitesOfHandlers;
    OneSites(s);
  }

  lemma WhileSites(c: Expr, body: Block)
    ensures SitesIn(While(c, body)) == SitesOf(body)
  {
    hide SitesOf;
  }

  lemma BreakMeans(w: World, st: State, fuel: nat)
    ensures PySemantics.Exec(w, Break, st, fuel) == Stop(Broke, st) && SitesIn(Break) == NONE
  {
  }

  lemma IsWhile(ctx: Ctx, n: Count)
    ensures LowerStmt(ENDLESS, ctx, n) == LowerWhile(ENDLESS, ctx, n)
    ensures forall ctx2, n2 :: LowerStmt(OUTER, ctx2, n2) == LowerTryFinally(OUTER, ctx2, n2)
  {
    hide LowerWhile, LowerTryFinally;
  }

  lemma WholeBody(s: Stmt, ctx: Ctx, n: Count)
    ensures LowerBlock(Single(s), ctx, n) == LowerStmt(s, ctx, n)
  {
    hide LowerStmt;
    assert LowerBlock(Single(s), ctx, n).ins == LowerStmt(s, ctx, n).ins;
  }

  lemma {:induction false} Rounds(p: Program, w: World, lay: Layout, n: Count, m: Mach, j: nat)
    returns (k: nat, m2: Mach)
    requires GoodFunction(lay, n) && !w.gen && p == FuncProgram(w, Single(ENDLESS), true, lay, n) && m.pc == 2
    requires m.hs == []
    ensures k >= j && Steps(p, m, k, [], Running(m2))
    decreases j
  {
    hide Step, RunFor, FuncProgram, GoodFunction;
    if j == 0 {
      NoSteps(p, m);
      k, m2 := 0, m;
    } else {
      var i, m1 := Round(p, w, lay, n, m);
      k, m2 := Rounds(p, w, lay, n, m1, j - 1);
      Silent(p, m, i, m1, k, Running(m2));
      k := i + k;
    }
  }

  /** `while 1: try: try: break finally: pass finally: pass` ends at once in the
      language; the call never does. */
  lemma EndlessLoop(p: Program, w: World, lay: Layout, n: Count, m: Mach, j: nat)
    requires GoodFunction(lay, n) && !w.gen && p == FuncProgram(w, Single(ENDLESS), true, lay, n) && m.pc == 0
    requires m.hs == []
    ensures CallFor(p, m, j).Running?
    ensures PySemantics.Exec(w, ENDLESS, Start(lay, m), 1).out == Normal
  {
    hide Step, RunFor, CallFor, EnvOf, ExecBlock, LowerBlock, LowerTryFinally, GoodCtx, CodeAt, UniqueLabels;
    hide FuncProgram, GoodFunction;
    var st := Start(lay, m);
    var inner, n1, top, mid := LoopCode(p, w, lay, n, st);
    Jump(p, m, n.id, 1);
    var k, m2 := Rounds(p, w, lay, n, m.(pc := 2), j);
    Silent(p, m, 2, m.(pc := 2), k, Running(m2));
    OneCall(p, m, 2 + k, Running(m2));
    if CallFor(p, m, j).Done? { CallStable(p, m, j, 2 + k); }
    OuterMeans(w, st, 1);
    WhileUnfold(w, ENDLESS, st, 1);
  }
}
