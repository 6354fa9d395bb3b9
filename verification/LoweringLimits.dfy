/**
 Where the lowering stops being right. The covered statements leave out some
 exits; here is, for every statement of that kind, what the code does instead,
 and the exact condition under which it is still what the language means.
 */
module LoweringLimits {
  import opened Common
  import opened StmtSyntax
  import opened PySemantics
  import opened Machine
  import opened Lowering
  import opened LabelDiscipline
  import opened Simulation
  import opened Covered
  import opened LoweringSteps
  import opened TrySteps
  import opened LoweringCorrect
  import opened Catching
  import opened GeneratorCorrect

  // ---- exits through a finally ----

  /** What a try guards and its finally body may contain here: everything covered,
      and also the exits that OkStmt refuses when another finally is open around it. */
  ghost predicate OkGuarded(s: Stmt, ctx: Ctx, sc: Scope, isc: Scope) {
    && s.Try? && s.fin.Some? && Guarded(ctx, isc)
    && OkBlock(s.body, ctx.gen, ctx.void, ctx.vars.Keys, isc)
    && OkHandlers(s.handlers, ctx.gen, ctx.void, ctx.vars.Keys, isc)
    && OkBlock(s.fin.value, ctx.gen, ctx.void, ctx.vars.Keys, Scope(false, false, true, sc.inFin))
  }

  function FinRun(w: World, s: Stmt, st: State, fuel: nat): Run
    requires s.Try? && s.fin.Some?
  {
    ExecBlock(w, s.fin.value, ExecCatch(w, s, st, fuel).st, fuel)
  }

  lemma {:induction false} ConfinedCatch(w: World, s: Stmt, ctx: Ctx, sc: Scope, isc: Scope, st: State, fuel: nat)
    requires OkGuarded(s, ctx, sc, isc) && (w.gen ==> ctx.gen && !ctx.void)
    ensures Confined(ExecCatch(w, s, st, fuel).out, isc, ctx.void)
  {
    hide OkBlock, OkHandlers, ExecBlock, ExecHandlers;
    var r := ExecBlock(w, s.body, st, fuel);
    ConfinedBlock(w, s.body, ctx.gen, ctx.void, ctx.vars.Keys, isc, st, fuel);
    if r.out.Raised? {
      ConfinedHandlers(w, s.handlers, r.out.obj, ctx.gen, ctx.void, ctx.vars.Keys, isc, r.st, fuel);
    }
  }

  /** From the start of a try to the switch at `v` that ends its finally. */
  lemma {:induction false} ToDispatch(p: Program, s: Stmt, ctx: Ctx, sc: Scope, isc: Scope, n: Count, top: Count,
                                      m: Mach, st: State, fuel: nat)
    returns (k: nat, v: nat, m3: Mach)
    requires OkGuarded(s, ctx, sc, isc) && Ready(p, ctx, sc, n, top, m, st, LowerTryFinally(s, ctx, n))
    requires ExecCatch(p.w, s, st, fuel).faithful && !ExecCatch(p.w, s, st, fuel).out.OutOfFuel?
    requires FinRun(p.w, s, st, fuel).out.Normal? && FinRun(p.w, s, st, fuel).faithful
    ensures var r, f := ExecCatch(p.w, s, st, fuel), FinRun(p.w, s, st, fuel);
      && CodeAt(p.code, v, FinallyTail(ctx, n.id)) && v + 6 == m.pc + |LowerTryFinally(s, ctx, n).ins|
      && Steps(p, m, k, r.trace + f.trace, Running(m3)) && m3.pc == v && m3.hs == m.hs && Rel(ctx, m3, f.st)
      && Get(m3.store, n.id + 8) == PendingOf(AsRaise(ctx.gen, r.out))
      && (r.out.Returned? && !ctx.gen && !ctx.void ==> Get(m3.store, n.id + 10) == r.out.v)
      && Marked(ctx, After(r, f).site, m.store, m3.store) && (Throws(ctx.gen, r.out) ==> r.st.inflight == Thrown(r.out))
  {
    hide SitesOf, SitesIn, SitesOfElifs, SitesOfHandlers, LowerTryFinally, LowerBlock, LowerHandlers, ExecCatch;
    hide OkBlock, OkHandlers, Step, RunFor, Find, GoodCtx, Frame, EnvOf, CodeAt, Writable, ExecBlock, UniqueLabels;
    var inner, a, h, z, q, u, w := FinallyParts(p, s, ctx, n, m.pc);
    v := w;
    var f := n.id;
    GoodLabels(p, ctx, sc, n, top);
    var m1 := EnterFinally(p, m, f, m.pc);
    var r := ExecCatch(p.w, s, st, fuel);
    OwnSlot(p, ctx, sc, n, h.next, top, m.store, f + 8, FALLTHROUGH);
    OwnSlot(p, ctx, sc, n, h.next, top, m.store[f + 8 := FALLTHROUGH], f + 9, 0);
    var k1, m2 := SimCatch(p, s, ctx, sc, isc, n, top, m1, m.hs, m.pc, a, h, q, u, v, st, fuel);
    StepsTrans(p, m, 4, [], m1, k1, r.trace, Running(m2));
    assert [] + r.trace == r.trace;
    GoodFin(p, ctx, sc, n, h.next, top);
    var mb := PopAt(p, m, m2, f, m.hs, u, r.trace, 4 + k1);
    var sc3, fin := Scope(false, false, true, sc.inFin), FinRun(p.w, s, st, fuel);
    NoSiteCaught(p.w, s, ctx, isc, st, fuel);
    NoSiteInBody(p.w, s.fin.value, ctx, sc3, h.next, r.st, fuel);
    var k2, c := SimBlock(p, s.fin.value, ctx, sc3, h.next, top, mb, r.st, fuel);
    SimNormalEnd(p, ctx, sc3, h.next, z.next, mb, v, fin, fuel, k2, c);
    m3 := c.m;
    OwnKept(p, ctx, sc, n, h.next, z.next, top, f + 8, mb.store, m3.store);
    OwnKept(p, ctx, sc, n, h.next, z.next, top, f + 10, mb.store, m3.store);
    StepsTrans(p, m, 4 + k1 + 1, r.trace, mb, k2, fin.trace, c);
    k := 4 + k1 + 1 + k2;
  }

  lemma SimNormalEnd(p: Program, ctx: Ctx, sc: Scope, n: Count, n2: Count, m: Mach, end: nat, r: Run, fuel: nat,
                     k: nat, c: Config)
    requires Sim(p, ctx, sc, n, n2, m, end, r, fuel, k, c) && r.out.Normal? && r.faithful
    ensures c.Running? && c.m.pc == end
  {
  }

  /** Any try with a finally whose finally ends normally, in any context: what was
      pending is resumed as the switch says. */
  lemma {:induction false} ThroughFinally(p: Program, s: Stmt, ctx: Ctx, sc: Scope, isc: Scope, n: Count, top: Count,
                                          m: Mach, st: State, fuel: nat)
    returns (k: nat, v: nat, m3: Mach)
    requires OkGuarded(s, ctx, sc, isc) && Ready(p, ctx, sc, n, top, m, st, LowerTryFinally(s, ctx, n))
    requires ExecCatch(p.w, s, st, fuel).faithful && !ExecCatch(p.w, s, st, fuel).out.OutOfFuel?
    requires FinRun(p.w, s, st, fuel).out.Normal? && FinRun(p.w, s, st, fuel).faithful
    ensures var r, f := ExecCatch(p.w, s, st, fuel), FinRun(p.w, s, st, fuel);
      && Steps(p, m, k, r.trace + f.trace, Dispatched(p, ctx, v, AsRaise(ctx.gen, r.out), m3))
      && m3.hs == m.hs && Rel(ctx, m3, f.st) && Marked(ctx, After(r, f).site, m.store, m3.store)
      && (Throws(ctx.gen, r.out) ==> r.st.inflight == Thrown(r.out))
  {
    hide LowerTryFinally, ExecCatch, OkBlock, OkHandlers, Step, RunFor, Find, GoodCtx, EnvOf, CodeAt, ExecBlock;
    hide OkGuarded, FinallyTail, UniqueLabels;
    GuardedFacts(s, ctx, sc, isc);
    GoodShape(p, ctx, sc, n, top);
    ConfinedCatch(p.w, s, ctx, sc, isc, st, fuel);
    k, v, m3 := ToDispatch(p, s, ctx, sc, isc, n, top, m, st, fuel);
    var r, f := ExecCatch(p.w, s, st, fuel), FinRun(p.w, s, st, fuel);
    var i, c := DispatchSteps(p, ctx, sc, n, top, n.id, v, AsRaise(ctx.gen, r.out), m3);
    StepsTrans(p, m, k, r.trace + f.trace, m3, i, [], c);
    assert r.trace + f.trace + [] == r.trace + f.trace;
    k := k + i;
  }

  lemma GuardedFacts(s: Stmt, ctx: Ctx, sc: Scope, isc: Scope)
    requires OkGuarded(s, ctx, sc, isc)
    ensures s.Try? && s.fin.Some? && (isc.loopOk ==> ctx.brk.Some?)
    ensures OkBlock(s.fin.value, ctx.gen, ctx.void, ctx.vars.Keys, Scope(false, false, true, sc.inFin))
  {
    hide OkBlock, OkHandlers;
  }

  /** With one in-flight slot, a finally that ends normally throws what was pending again
      exactly when its body caught nothing; otherwise it throws an empty slot. */
  lemma {:induction false} RethrowsTheSlot(p: Program, s: Stmt, ctx: Ctx, sc: Scope, isc: Scope, n: Count, top: Count,
                                           m: Mach, st: State, fuel: nat)
    returns (k: nat, c: Config)
    requires OkGuarded(s, ctx, sc, isc) && Ready(p, ctx, sc, n, top, m, st, LowerTryFinally(s, ctx, n))
    requires ExecCatch(p.w, s, st, fuel).faithful && Throws(ctx.gen, ExecCatch(p.w, s, st, fuel).out)
    requires FinRun(p.w, s, st, fuel).out.Normal? && FinRun(p.w, s, st, fuel).faithful
    ensures var r, f := ExecCatch(p.w, s, st, fuel), FinRun(p.w, s, st, fuel);
      && Steps(p, m, k, r.trace + f.trace, c)
      && c.m.inflight == (if Catches(p.w, s.fin.value, r.st, fuel) then 0 else Thrown(r.out))
      && (Thrown(r.out) != 0 ==> (c.m.inflight == Thrown(r.out) <==> !Catches(p.w, s.fin.value, r.st, fuel)))
      && r.st.inflight == Thrown(r.out) && c.m.hs == m.hs && c.m.mem == f.st.mem
      && Marked(ctx, After(r, f).site, m.store, c.m.store)
      && (if m.hs == [] then c.Done? && c.res == Escaped(c.m.inflight)
          else c.Running? && c.m.pc == Find(p.code, m.hs[0]))
  {
    hide LowerTryFinally, ExecCatch, OkBlock, OkHandlers, Step, RunFor, Find, GoodCtx, EnvOf, ExecBlock, Catches;
    hide CodeAt, UniqueLabels;
    GuardedFacts(s, ctx, sc, isc);
    var v, m3;
    k, v, m3 := ThroughFinally(p, s, ctx, sc, isc, n, top, m, st, fuel);
    var r := ExecCatch(p.w, s, st, fuel);
    c := Dispatched(p, ctx, v, AsRaise(ctx.gen, r.out), m3);
    GoodShape(p, ctx, sc, n, top);
    SlotAfter(p.w, s.fin.value, ctx.gen, ctx.void, ctx.vars.Keys, Scope(false, false, true, sc.inFin), r.st, fuel);
  }

  /** A return routed through a finally leaves the function at once, with the value it
      was to return and the heap that finally left, on the handler stack as it stood. */
  lemma {:induction false} ReturnThroughFinally(p: Program, s: Stmt, ctx: Ctx, sc: Scope, isc: Scope, n: Count,
                                                top: Count, m: Mach, st: State, fuel: nat)
    returns (k: nat, c: Config)
    requires OkGuarded(s, ctx, sc, isc) && Ready(p, ctx, sc, n, top, m, st, LowerTryFinally(s, ctx, n))
    requires !ctx.gen && ExecCatch(p.w, s, st, fuel).faithful && ExecCatch(p.w, s, st, fuel).out.Returned?
    requires FinRun(p.w, s, st, fuel).out.Normal? && FinRun(p.w, s, st, fuel).faithful
    ensures var r, f := ExecCatch(p.w, s, st, fuel), FinRun(p.w, s, st, fuel);
      && Steps(p, m, k, r.trace + f.trace, c)
      && c.Done? && c.res == RetVal(r.out.v) && c.m.hs == m.hs && c.m.mem == f.st.mem
  {
    hide LowerTryFinally, ExecCatch, OkBlock, OkHandlers, Step, RunFor, Find, GoodCtx, EnvOf, ExecBlock, OkGuarded;
    hide UniqueLabels;
    var v, m3;
    GuardedFacts(s, ctx, sc, isc);
    GoodShape(p, ctx, sc, n, top);
    ConfinedCatch(p.w, s, ctx, sc, isc, st, fuel);
    k, v, m3 := ThroughFinally(p, s, ctx, sc, isc, n, top, m, st, fuel);
    c := Dispatched(p, ctx, v, ExecCatch(p.w, s, st, fuel).out, m3);
  }

  // ---- two finallies ----

  /** The body of `outer` runs `pre` and then `s`, another try with a finally. */
  ghost predicate Nested(outer: Stmt, pre: Block, s: Stmt, rest: Block) {
    outer.Try? && outer.fin.Some? && outer.body == Append(pre, Cons(s, rest)) && s.Try? && s.fin.Some?
  }

  /** The state in which the inner try starts. */
  function AtInner(w: World, pre: Block, st: State, fuel: nat): State { ExecBlock(w, pre, st, fuel).st }

  ghost function InnerCount(pre: Block, ctx: Ctx, n: Count): Count {
    LowerBlock(pre, Inner(ctx, n.id), n.(id := n.id + 11)).next
  }

  lemma {:induction false} AppendLowers(pre: Block, b: Block, ctx: Ctx, n: Count)
    ensures var a := LowerBlock(pre, ctx, n);
      && LowerBlock(Append(pre, b), ctx, n).ins == a.ins + LowerBlock(b, ctx, a.next).ins
      && LowerBlock(Append(pre, b), ctx, n).next == LowerBlock(b, ctx, a.next).next
    decreases pre
  {
    hide LowerStmt, Grows;
    if pre.Cons? {
      var one := LowerStmt(pre.head, ctx, n);
      AppendLowers(pre.tail, b, ctx, one.next);
      var x, y := LowerBlock(pre.tail, ctx, one.next), LowerBlock(Append(pre.tail, b), ctx, one.next);
      assert LowerBlock(Append(pre, b), ctx, n) == Code(one.ins + y.ins, y.next);
      Together(one.ins, x.ins, LowerBlock(b, ctx, x.next).ins);
    } else {
      assert [] + LowerBlock(b, ctx, n).ins == LowerBlock(b, ctx, n).ins;
    }
  }

  lemma Together(a: seq<Instr>, b: seq<Instr>, c: seq<Instr>)
    ensures a + (b + c) == a + b + c
  {
  }

  lemma {:induction false} AppendRuns(w: World, pre: Block, b: Block, st: State, fuel: nat)
    requires ExecBlock(w, pre, st, fuel).out.Normal?
    ensures var r := ExecBlock(w, pre, st, fuel); var whole := ExecBlock(w, Append(pre, b), st, fuel);
      var r2 := ExecBlock(w, b, r.st, fuel);
      && whole.out == r2.out && whole.st == r2.st && whole.trace == r.trace + r2.trace
      && whole.faithful == (r.faithful && r2.faithful)
    decreases pre
  {
    hide PySemantics.Exec, SitesIn;
    if pre.Cons? {
      var r := PySemantics.Exec(w, pre.head, st, fuel);
      AppendRuns(w, pre.tail, b, r.st, fuel);
      var r2 := ExecBlock(w, b, ExecBlock(w, pre.tail, r.st, fuel).st, fuel);
      assert r.trace + (ExecBlock(w, pre.tail, r.st, fuel).trace + r2.trace)
          == r.trace + ExecBlock(w, pre.tail, r.st, fuel).trace + r2.trace;
    } else {
      assert [] + ExecBlock(w, b, st, fuel).trace == ExecBlock(w, b, st, fuel).trace;
    }
  }

  /** From the start of the outer try to the start of the inner one. */
  lemma ToInner(p: Program, outer: Stmt, pre: Block, s: Stmt, rest: Block, ctx: Ctx, sc: Scope, n: Count, top: Count,
                m: Mach, st: State, fuel: nat)
    returns (k: nat, m1: Mach)
    requires Nested(outer, pre, s, rest) && Ready(p, ctx, sc, n, top, m, st, LowerTryFinally(outer, ctx, n))
    requires OkBlock(pre, ctx.gen, ctx.void, ctx.vars.Keys, FinallyScope(sc, ctx.gen))
    requires ExecBlock(p.w, pre, st, fuel).out.Normal? && ExecBlock(p.w, pre, st, fuel).faithful
    ensures Steps(p, m, k, ExecBlock(p.w, pre, st, fuel).trace, Running(m1)) && m1.hs == [n.id + 3] + m.hs
    ensures Ready(p, Inner(ctx, n.id), FinallyScope(sc, ctx.gen), InnerCount(pre, ctx, n), top, m1,
                  AtInner(p.w, pre, st, fuel), LowerTryFinally(s, Inner(ctx, n.id), InnerCount(pre, ctx, n)))
    ensures Get(m1.store, n.id + 8) == FALLTHROUGH
  {
    hide LowerTryFinally, LowerBlock, LowerStmt, LowerHandlers, ExecBlock, OkBlock, Step, RunFor, Find, GoodCtx;
    hide EnvOf, CodeAt;
    hide Frame, UniqueLabels;
    var inner, a, h, z, q, u, v := FinallyParts(p, outer, ctx, n, m.pc);
    var isc, n1 := FinallyScope(sc, ctx.gen), n.(id := n.id + 11);
    GoodLabels(p, ctx, sc, n, top);
    var m0 := EnterFinally(p, m, n.id, m.pc);
    GuardedByFinally(p, ctx, sc, n, top);
    GoodInner(p, ctx, sc, isc, n, n1, top);
    OwnSlot(p, ctx, sc, n, h.next, top, m.store, n.id + 8, FALLTHROUGH);
    OwnSlot(p, ctx, sc, n, h.next, top, m.store[n.id + 8 := FALLTHROUGH], n.id + 9, 0);
    var one := PrefixParts(p, pre, s, rest, inner, n1, m0.pc);
    var r := ExecBlock(p.w, pre, st, fuel);
    var j, c := SimBlock(p, pre, inner, isc, n1, top, m0, st, fuel);
    SimNormalEnd(p, inner, isc, n1, InnerCount(pre, ctx, n), m0,
                 m0.pc + |LowerBlock(pre, inner, n1).ins|, r, fuel, j, c);
    PendingStays(p, inner, isc, n1, InnerCount(pre, ctx, n), m0,
                 m0.pc + |LowerBlock(pre, inner, n1).ins|, r, fuel, j, c);
    StepsTrans(p, m, 4, [], m0, j, r.trace, c);
    assert [] + r.trace == r.trace;
    GoodLater(p, inner, isc, n1, InnerCount(pre, ctx, n), top);
    k, m1 := 4 + j, c.m;
  }

  lemma PendingStays(p: Program, ctx: Ctx, sc: Scope, n: Count, n2: Count, m: Mach, end: nat, r: Run, fuel: nat,
                     k: nat, c: Config)
    requires Sim(p, ctx, sc, n, n2, m, end, r, fuel, k, c) && r.out.Normal? && r.faithful && c.Running?
    requires ctx.fin.Some?
    ensures c.m.hs == m.hs && Rel(ctx, c.m, r.st)
    ensures Get(c.m.store, ctx.fin.value.pending) == Get(m.store, ctx.fin.value.pending)
  {
  }

  lemma PrefixParts(p: Program, pre: Block, s: Stmt, rest: Block, ctx: Ctx, n: Count, pc: nat)
    returns (one: Code)
    requires s.Try? && s.fin.Some? && CodeAt(p.code, pc, LowerBlock(Append(pre, Cons(s, rest)), ctx, n).ins)
    ensures var a := LowerBlock(pre, ctx, n);
      && CodeAt(p.code, pc, a.ins) && one == LowerTryFinally(s, ctx, a.next) && CodeAt(p.code, pc + |a.ins|, one.ins)
      && Grows(a.next, one.next) && Grows(one.next, LowerBlock(Append(pre, Cons(s, rest)), ctx, n).next)
  {
    hide CodeAt, LowerTryFinally;
    var a := LowerBlock(pre, ctx, n);
    AppendLowers(pre, Cons(s, rest), ctx, n);
    one := LowerStmt(s, ctx, a.next);
    var more := LowerBlock(rest, ctx, one.next);
    CodeAtSplit(p.code, pc, a.ins, one.ins + more.ins);
    CodeAtSplit(p.code, pc + |a.ins|, one.ins, more.ins);
  }

  /** The inner of two finallies lets a return through and the outer one never runs: the
      function is left with the heap as the inner finally left it and the outer handler
      still pushed, where the language runs the outer finally first. */
  lemma {:induction false} OuterFinallySkipped(p: Program, outer: Stmt, pre: Block, s: Stmt, rest: Block, ctx: Ctx,
                                               sc: Scope, isc: Scope, n: Count, top: Count, m: Mach, st: State,
                                               fuel: nat)
    returns (k: nat, c: Config)
    requires Nested(outer, pre, s, rest) && Ready(p, ctx, sc, n, top, m, st, LowerTryFinally(outer, ctx, n)) && !ctx.gen
    requires OkBlock(pre, ctx.gen, ctx.void, ctx.vars.Keys, FinallyScope(sc, ctx.gen))
    requires ExecBlock(p.w, pre, st, fuel).out.Normal? && ExecBlock(p.w, pre, st, fuel).faithful
    requires OkGuarded(s, Inner(ctx, n.id), FinallyScope(sc, ctx.gen), isc)
    requires var st1 := AtInner(p.w, pre, st, fuel);
      && ExecCatch(p.w, s, st1, fuel).faithful && ExecCatch(p.w, s, st1, fuel).out.Returned?
      && FinRun(p.w, s, st1, fuel).out.Normal? && FinRun(p.w, s, st1, fuel).faithful
    ensures var g := ExecCatch(p.w, outer, st, fuel); var b := ExecBlock(p.w, outer.fin.value, g.st, fuel);
      && g.out.Returned? && Steps(p, m, k, g.trace, c)
      && c.Done? && c.res == RetVal(g.out.v) && c.m.hs == [n.id + 3] + m.hs && c.m.mem == g.st.mem
      && (b.out.Normal? ==>
            PySemantics.Exec(p.w, outer, st, fuel).out == g.out && PySemantics.Exec(p.w, outer, st, fuel).st == b.st)
      && (b.out.Returned? || b.out.Raised? ==> PySemantics.Exec(p.w, outer, st, fuel).out == b.out)
  {
    hide LowerTryFinally, LowerBlock, ExecBlock, ExecCatch, ExecHandlers, OkBlock, OkHandlers, Step, RunFor, Find;
    hide GoodCtx;
    hide EnvOf, OkGuarded, SitesOf, SitesIn, SitesOfHandlers, UniqueLabels, Append, Ready;
    var i, m1 := ToInner(p, outer, pre, s, rest, ctx, sc, n, top, m, st, fuel);
    var st1 := AtInner(p.w, pre, st, fuel);
    var j;
    j, c := ReturnThroughFinally(p, s, Inner(ctx, n.id), FinallyScope(sc, ctx.gen), isc, InnerCount(pre, ctx, n), top,
                                 m1, st1, fuel);
    var r, f := ExecCatch(p.w, s, st1, fuel), FinRun(p.w, s, st1, fuel);
    StepsTrans(p, m, i, ExecBlock(p.w, pre, st, fuel).trace, m1, j, r.trace + f.trace, c);
    ReadyShape(p, ctx, sc, n, top, m, st, LowerTryFinally(outer, ctx, n));
    NestedRun(p.w, outer, pre, s, rest, st, fuel);
    OuterRun(p.w, outer, st, fuel);
    k := i + j;
  }

  lemma ReadyShape(p: Program, ctx: Ctx, sc: Scope, n: Count, top: Count, m: Mach, st: State, code: Code)
    requires Ready(p, ctx, sc, n, top, m, st, code)
    ensures p.w.gen == ctx.gen
  {
    hide EnvOf, CodeAt;
  }

  /** What the language makes of a try whose guarded part left it: its finally decides. */
  lemma OuterRun(w: World, outer: Stmt, st: State, fuel: nat)
    requires outer.Try? && outer.fin.Some? && !ExecCatch(w, outer, st, fuel).out.OutOfFuel?
    ensures var g, o := ExecCatch(w, outer, st, fuel), PySemantics.Exec(w, outer, st, fuel);
      var b := ExecBlock(w, outer.fin.value, g.st, fuel);
      && (b.out.Normal? ==> o.out == g.out && o.st == b.st) && (!b.out.Normal? ==> o.out == b.out)
  {
    hide ExecCatch, ExecBlock, SitesOf, SitesOfHandlers;
  }

  /** The inner try ends the body of the outer one. */
  lemma NestedRun(w: World, outer: Stmt, pre: Block, s: Stmt, rest: Block, st: State, fuel: nat)
    requires Nested(outer, pre, s, rest) && ExecBlock(w, pre, st, fuel).out.Normal?
    requires var o := ExecCatch(w, s, AtInner(w, pre, st, fuel), fuel).out;
      (o.Returned? && !w.gen) || o.Broke? || o.Continued?
    requires FinRun(w, s, AtInner(w, pre, st, fuel), fuel).out.Normal?
    ensures var st1, g := AtInner(w, pre, st, fuel), ExecCatch(w, outer, st, fuel);
      var r, f := ExecCatch(w, s, st1, fuel), FinRun(w, s, st1, fuel);
      g.out == r.out && g.st == f.st && g.trace == ExecBlock(w, pre, st, fuel).trace + (r.trace + f.trace)
  {
    hide ExecBlock, ExecCatch, ExecHandlers, SitesOf, SitesIn, SitesOfHandlers;
    var st1 := AtInner(w, pre, st, fuel);
    AppendRuns(w, pre, Cons(s, rest), st, fuel);
    OuterRun(w, s, st1, fuel);
    TryEnds(w, s, rest, st1, fuel);
    CatchEnds(w, outer, st, fuel);
  }

  /** A try with a finally that ends normally leaves the block it begins. */
  lemma TryEnds(w: World, s: Stmt, rest: Block, st: State, fuel: nat)
    requires s.Try? && s.fin.Some? && FinRun(w, s, st, fuel).out.Normal?
    requires var o := ExecCatch(w, s, st, fuel).out; o.Returned? || o.Broke? || o.Continued?
    ensures var r, f, b := ExecCatch(w, s, st, fuel), FinRun(w, s, st, fuel), ExecBlock(w, Cons(s, rest), st, fuel);
      b.out == r.out && b.st == f.st && b.trace == r.trace + f.trace
  {
    hide ExecCatch, SitesOf, SitesIn, SitesOfHandlers;
    assert PySemantics.Exec(w, s, st, fuel)
        == ExecFinally(w, ExecCatch(w, s, st, fuel),
                       SitesOf(s.body).y + SitesOfHandlers(s.handlers).y, s.fin.value, fuel);
  }

  lemma CatchEnds(w: World, s: Stmt, st: State, fuel: nat)
    requires s.Try? && !ExecBlock(w, s.body, st, fuel).out.Raised?
    ensures var r, g := ExecBlock(w, s.body, st, fuel), ExecCatch(w, s, st, fuel);
      g.out == r.out && g.st == r.st && g.trace == r.trace
  {
    hide ExecBlock, ExecHandlers;
  }

  /** A break or continue routed through a finally goes to its loop exactly when no
      other finally is open; otherwise it goes to the entry of the enclosing finally
      with that one's pending slot as it was, so the exit is forgotten there. */
  lemma {:induction false} LoopExitThroughFinally(p: Program, s: Stmt, ctx: Ctx, sc: Scope, isc: Scope, n: Count,
                                                  top: Count, m: Mach, st: State, fuel: nat)
    returns (k: nat, c: Config)
    requires OkGuarded(s, ctx, sc, isc) && Ready(p, ctx, sc, n, top, m, st, LowerTryFinally(s, ctx, n))
    requires var o := ExecCatch(p.w, s, st, fuel).out;
      ExecCatch(p.w, s, st, fuel).faithful && (o.Broke? || o.Continued?)
    requires FinRun(p.w, s, st, fuel).out.Normal? && FinRun(p.w, s, st, fuel).faithful
    ensures var r, f := ExecCatch(p.w, s, st, fuel), FinRun(p.w, s, st, fuel);
      && Steps(p, m, k, r.trace + f.trace, c) && c.Running? && c.m.hs == m.hs && Rel(ctx, c.m, f.st)
      && if ctx.fin.None? then c.m.pc == Find(p.code, Or(if r.out.Broke? then ctx.brk else ctx.cont))
         else
           && c.m.pc == Find(p.code, ctx.fin.value.entry)
           && Get(c.m.store, ctx.fin.value.pending) == Get(m.store, ctx.fin.value.pending)
  {
    hide LowerTryFinally, ExecCatch, OkBlock, OkHandlers, Step, RunFor, Find, GoodCtx, EnvOf, ExecBlock, OkGuarded;
    hide UniqueLabels;
    var v, m3;
    GuardedFacts(s, ctx, sc, isc);
    k, v, m3 := ThroughFinally(p, s, ctx, sc, isc, n, top, m, st, fuel);
    c := Dispatched(p, ctx, v, ExecCatch(p.w, s, st, fuel).out, m3);
  }

  /** A break or continue through two finallies is forgotten in the outer one: control
      goes on behind the outer try, inside the loop that the language leaves. */
  lemma {:induction false} ExitForgotten(p: Program, outer: Stmt, pre: Block, s: Stmt, rest: Block, ctx: Ctx, sc: Scope,
                                         isc: Scope, n: Count, top: Count, m: Mach, st: State, fuel: nat)
    returns (k: nat, m2: Mach)
    requires Nested(outer, pre, s, rest) && Ready(p, ctx, sc, n, top, m, st, LowerTryFinally(outer, ctx, n))
    requires OkBlock(pre, ctx.gen, ctx.void, ctx.vars.Keys, FinallyScope(sc, ctx.gen))
    requires ExecBlock(p.w, pre, st, fuel).out.Normal? && ExecBlock(p.w, pre, st, fuel).faithful
    requires OkGuarded(s, Inner(ctx, n.id), FinallyScope(sc, ctx.gen), isc)
    requires OkBlock(outer.fin.value, ctx.gen, ctx.void, ctx.vars.Keys, Scope(false, false, true, sc.inFin))
    requires var st1 := AtInner(p.w, pre, st, fuel);
      && ExecCatch(p.w, s, st1, fuel).faithful
      && (ExecCatch(p.w, s, st1, fuel).out.Broke? || ExecCatch(p.w, s, st1, fuel).out.Continued?)
      && FinRun(p.w, s, st1, fuel).out.Normal? && FinRun(p.w, s, st1, fuel).faithful
    requires FinRun(p.w, outer, st, fuel).out.Normal? && FinRun(p.w, outer, st, fuel).faithful
    ensures var g, b := ExecCatch(p.w, outer, st, fuel), FinRun(p.w, outer, st, fuel);
      && PySemantics.Exec(p.w, outer, st, fuel).out == g.out == ExecCatch(p.w, s, AtInner(p.w, pre, st, fuel), fuel).out
      && Steps(p, m, k, g.trace + b.trace, Running(m2))
      && m2.pc == m.pc + |LowerTryFinally(outer, ctx, n).ins| && m2.hs == m.hs && Rel(ctx, m2, b.st)
  {
    hide LowerTryFinally, LowerBlock, LowerHandlers, ExecBlock, ExecCatch, ExecHandlers, OkBlock, OkHandlers, Step;
    hide RunFor;
    hide Find, GoodCtx, EnvOf, OkGuarded, CodeAt, SitesOf, SitesIn, SitesOfHandlers, UniqueLabels, Append;
    var i, m1 := ToInner(p, outer, pre, s, rest, ctx, sc, n, top, m, st, fuel);
    var st1, ran := AtInner(p.w, pre, st, fuel), ExecBlock(p.w, pre, st, fuel).trace;
    var j, c := LoopExitThroughFinally(p, s, Inner(ctx, n.id), FinallyScope(sc, ctx.gen), isc,
                                       InnerCount(pre, ctx, n), top,
                                       m1, st1, fuel);
    var r, f := ExecCatch(p.w, s, st1, fuel), FinRun(p.w, s, st1, fuel);
    StepsTrans(p, m, i, ran, m1, j, r.trace + f.trace, c);
    NestedRun(p.w, outer, pre, s, rest, st, fuel);
    OuterRun(p.w, outer, st, fuel);
    var i2;
    i2, m2 := AsIfFinished(p, outer, ctx, sc, n, top, c.m, m.pc, m.hs, f.st, fuel);
    StepsTrans(p, m, i + j, ran + (r.trace + f.trace), c.m, i2, FinRun(p.w, outer, st, fuel).trace, Running(m2));
    k := i + j + i2;
  }

  /** A finally entered with nothing pending: its body, and on behind the try. */
  lemma {:induction false} AsIfFinished(p: Program, s: Stmt, ctx: Ctx, sc: Scope, n: Count, top: Count, m: Mach,
                                        pc: nat, hs: seq<int>, st: State, fuel: nat)
    returns (k: nat, m2: Mach)
    requires s.Try? && s.fin.Some? && GoodCtx(p, ctx, sc, n, top) && CodeAt(p.code, pc, LowerTryFinally(s, ctx, n).ins)
    requires Grows(LowerTryFinally(s, ctx, n).next, top)
    requires OkBlock(s.fin.value, ctx.gen, ctx.void, ctx.vars.Keys, Scope(false, false, true, sc.inFin))
    requires m.pc == Find(p.code, n.id + 5) && m.hs == [n.id + 3] + hs && Get(m.store, n.id + 8) == FALLTHROUGH
    requires Rel(ctx, m, st)
    requires ExecBlock(p.w, s.fin.value, st, fuel).out.Normal? && ExecBlock(p.w, s.fin.value, st, fuel).faithful
    ensures var b := ExecBlock(p.w, s.fin.value, st, fuel);
      && Steps(p, m, k, b.trace, Running(m2))
      && m2.pc == pc + |LowerTryFinally(s, ctx, n).ins| && m2.hs == hs && Rel(ctx, m2, b.st)
  {
    hide LowerTryFinally, LowerBlock, LowerHandlers, ExecBlock, OkBlock, Step, RunFor, Find, GoodCtx, EnvOf, CodeAt;
    hide Frame, Writable, UniqueLabels;
    var inner, a, h, z, q, u, v := FinallyParts(p, s, ctx, n, pc);
    var f := n.id;
    GoodLabels(p, ctx, sc, n, top);
    EnterAt(p, f, u);
    SkipLabel(p, m, f + 5, u + 2);
    GoodFin(p, ctx, sc, n, h.next, top);
    var mb := PopAt(p, m, m.(pc := u + 3), f, hs, u, [], 1);
    var sc3, b := Scope(false, false, true, sc.inFin), ExecBlock(p.w, s.fin.value, st, fuel);
    var k2, c := SimBlock(p, s.fin.value, ctx, sc3, h.next, top, mb, st, fuel);
    SimNormalEnd(p, ctx, sc3, h.next, z.next, mb, v, b, fuel, k2, c);
    OwnKept(p, ctx, sc, n, h.next, z.next, top, f + 8, mb.store, c.m.store);
    StepsTrans(p, m, 2, [], mb, k2, b.trace, c);
    assert [] + b.trace == b.trace;
    var i, d := DispatchSteps(p, ctx, sc, n, top, f, v, Normal, c.m);
    StepsTrans(p, m, 2 + k2, b.trace, c.m, i, [], d);
    assert b.trace + [] == b.trace;
    k, m2 := 2 + k2 + i, d.m;
  }

  // ---- exits out of a try without a finally ----

  /** A break or continue out of the body of a try that has no finally, or a return in an
      ordinary function, does not pop the handler: the stack is as before exactly when the
      body did not leave so. A return in a generator is a throw and pops it. */
  lemma {:induction false} HandlerLeftBehind(p: Program, s: Stmt, ctx: Ctx, sc: Scope, isc: Scope, n: Count,
                                             top: Count, m: Mach, st: State, fuel: nat)
    returns (k: nat, c: Config)
    requires s.Try? && s.fin.None? && Ready(p, ctx, sc, n, top, m, st, LowerTry(s, ctx, n))
    requires isc == BodyScope(sc, ctx.gen).(retOk := isc.retOk, loopOk := isc.loopOk) && (isc.loopOk ==> ctx.brk.Some?)
    requires OkBlock(s.body, ctx.gen, ctx.void, ctx.vars.Keys, isc)
    requires OkHandlers(s.handlers, ctx.gen, ctx.void, ctx.vars.Keys, sc)
    requires PySemantics.Exec(p.w, s, st, fuel).faithful && !PySemantics.Exec(p.w, s, st, fuel).out.OutOfFuel?
    ensures Steps(p, m, k, PySemantics.Exec(p.w, s, st, fuel).trace, c)
    ensures var out := ExecBlock(p.w, s.body, st, fuel).out;
      && (c.m.hs == m.hs <==> out.Normal? || Throws(ctx.gen, out))
      && (c.m.hs != m.hs ==> c.m.hs == [n.id + 1] + m.hs)
      && (out.Returned? && !ctx.gen && ctx.fin.None? ==> c.Done? && c.res == RetVal(out.v))
  {
    hide SitesOf, PySemantics.Exec, LowerTry, LowerBlock, LowerHandlers, ExecBlock, ExecHandlers, OkBlock;
    hide OkHandlers, Step, RunFor, Find, GoodCtx, Frame, EnvOf, CodeAt, UniqueLabels;
    var a, z, q, u := TryParts(p, s, ctx, n, m.pc);
    var n1 := n.(id := n.id + 3);
    GoodLabels(p, ctx, sc, n, top);
    GoodIsc(p, ctx, sc, isc, n, n1, top);
    var m1 := EnterTry(p, m, n.id + 1, n.id, m.pc);
    var r := ExecBlock(p.w, s.body, st, fuel);
    NoSiteInBody(p.w, s.body, ctx, isc, n1, st, fuel);
    TryRun(p.w, s, ctx, isc, st, fuel);
    k, c := SimBlock(p, s.body, ctx, isc, n1, top, m1, st, fuel);
    StepsTrans(p, m, 2, [], m1, k, r.trace, c);
    assert [] + r.trace == r.trace;
    k := 2 + k;
    GoodShape(p, ctx, sc, n, top);
    if r.out.Normal? || Throws(ctx.gen, r.out) {
      FrameNarrow(ctx, sc, isc, n1, a.next, m.store, c.m.store);
      FrameWiden(ctx, sc, n, n1, a.next, a.next, m.store, c.m.store);
      FrameWiden(ctx, sc, n, n1, a.next, z.next, m.store, c.m.store);
      k, c := SimTryRest(p, s, ctx, sc, n, top, m, c.m, a, z, q, u, r, fuel, k);
    } else {
      assert |c.m.hs| == |m.hs| + 1;
    }
  }

  lemma TryRun(w: World, s: Stmt, ctx: Ctx, isc: Scope, st: State, fuel: nat)
    requires s.Try? && s.fin.None? && isc.inTry && OkBlock(s.body, ctx.gen, ctx.void, ctx.vars.Keys, isc)
    ensures var r := ExecBlock(w, s.body, st, fuel);
      PySemantics.Exec(w, s, st, fuel)
      == if r.out.Raised? then After(r, ExecHandlers(w, s.handlers, r.out.obj, r.st, fuel))
         else r.(faithful := r.faithful && !Taken(w, s.handlers, r.out))
  {
    hide ExecBlock, ExecHandlers, OkBlock, SitesOf;
    NoSites(s.body, ctx.gen, ctx.void, ctx.vars.Keys, isc);
  }

  lemma GoodIsc(p: Program, ctx: Ctx, sc: Scope, isc: Scope, n: Count, n2: Count, top: Count)
    requires GoodCtx(p, ctx, sc, n, top) && Grows(n, n2)
    requires isc == BodyScope(sc, ctx.gen).(retOk := isc.retOk, loopOk := isc.loopOk) && (isc.loopOk ==> ctx.brk.Some?)
    ensures GoodCtx(p, ctx, isc, n2, top)
  {
  }
}
