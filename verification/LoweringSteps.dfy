/**
 Where the pieces of each statement's code are and what their fixed instructions do:
 plain statements, yields, conditions and loops.
 */
module LoweringSteps {
  import opened Common
  import opened StmtSyntax
  import opened PySemantics
  import opened Machine
  import opened Lowering
  import opened LabelDiscipline
  import opened Simulation
  import opened Covered

  // ---- steps ----

  lemma ConstStep(p: Program, m: Mach, slot: int, k: int)
    requires m.pc < |p.code| && p.code[m.pc] == SetConst(slot, k)
    ensures Steps(p, m, 1, [], Running(m.(pc := m.pc + 1, store := m.store[slot := k])))
  {
    StepsOne(p, m);
  }

  lemma SwitchStep(p: Program, m: Mach, slot: int, cases: map<int, int>, other: int)
    requires m.pc < |p.code| && p.code[m.pc] == Switch(slot, cases, other)
    ensures var k := Get(m.store, slot);
      Steps(p, m, 1, [], Running(m.(pc := Find(p.code, if k in cases then cases[k] else other))))
  {
    StepsOne(p, m);
  }

  lemma PushStep(p: Program, m: Mach, land: int, go: int)
    requires m.pc < |p.code| && p.code[m.pc] == Push(land, go)
    ensures Steps(p, m, 1, [], Running(m.(pc := Find(p.code, go), hs := [land] + m.hs)))
  {
    StepsOne(p, m);
  }

  lemma SkipLabel(p: Program, m: Mach, l: int, i: nat)
    requires UniqueLabels(p.code) && i < |p.code| && p.code[i] == Lbl(l)
    requires m.pc == Find(p.code, l)
    ensures m.pc == i && Steps(p, m, 1, [], Running(m.(pc := i + 1)))
  {
    FindAt(p.code, i);
    StepsOne(p, m);
  }

  lemma Jump(p: Program, m: Mach, l: int, i: nat)
    requires UniqueLabels(p.code) && i < |p.code| && p.code[i] == Lbl(l)
    requires m.pc < |p.code| && p.code[m.pc] == Br(l)
    ensures Steps(p, m, 2, [], Running(m.(pc := i + 1)))
  {
    FindAt(p.code, i);
    StepsOne(p, m);
    Advance(p, m, 1, [], m.(pc := i), Running(m.(pc := i + 1)));
  }

  lemma GoodLater(p: Program, ctx: Ctx, sc: Scope, n: Count, n2: Count, top: Count)
    requires GoodCtx(p, ctx, sc, n, top) && Grows(n, n2)
    ensures GoodCtx(p, ctx, sc, n2, top)
  {
  }

  /** The instruction at `m1` evaluates something that raises. */
  lemma SimRaised(p: Program, ctx: Ctx, sc: Scope, n: Count, n2: Count, m: Mach, m1: Mach, end: nat,
                  st: State, ev: Eval, fuel: nat, j: nat)
    returns (c: Config)
    requires Grows(n, n2) && Rel(ctx, m, st)
    requires Steps(p, m, j, [], Running(m1)) && m1.hs == m.hs && m1.calls == m.calls
    requires Frame(ctx, sc, n, n2, m.store, m1.store) && EnvOf(ctx.vars, m1.store) == st.env
    requires Quiet(ctx, m.store, m1.store)
    requires !Yields(p, m1) && ev.Exc? && Step(p, m1) == Unwind(p, m1.(mem := ev.mem, inflight := ev.obj))
    ensures Sim(p, ctx, sc, n, n2, m, end, Stop(Raised(ev.obj), Land(st, ev)), fuel, j + 1, c)
  {
    c := Step(p, m1);
    Advance(p, m, j, [], m1, c);
  }

  // ---- statements without parts ----

  lemma SimPlain(p: Program, s: Stmt, ctx: Ctx, sc: Scope, n: Count, top: Count, m: Mach, st: State, fuel: nat)
    returns (k: nat, c: Config)
    requires s.Eval? || s.Assign? || s.Raise?
    requires GoodCtx(p, ctx, sc, n, top) && OkStmt(s, ctx.gen, ctx.void, ctx.vars.Keys, sc)
    requires CodeAt(p.code, m.pc, LowerStmt(s, ctx, n).ins) && Rel(ctx, m, st)
    ensures Sim(p, ctx, sc, n, LowerStmt(s, ctx, n).next, m, m.pc + |LowerStmt(s, ctx, n).ins|,
                PySemantics.Exec(p.w, s, st, fuel), fuel, k, c)
  {
    hide LowerStmt, PySemantics.Exec, Step, RunFor, Find, GoodCtx, Frame, EnvOf, Sim;
    if s.e(st.env, st.mem).Exc? {
      c := SimOperand(p, s, s.e, ctx, sc, n, top, m, st, fuel);
      k := 1;
    } else if s.Assign? {
      c := AssignDone(p, s, ctx, sc, n, top, m, st, fuel);
      k := 1;
    } else {
      c := PlainDone(p, s, ctx, sc, n, top, m, st, fuel);
      k := 1;
    }
  }

  lemma PlainDone(p: Program, s: Stmt, ctx: Ctx, sc: Scope, n: Count, top: Count, m: Mach, st: State, fuel: nat)
    returns (c: Config)
    requires s.Eval? || s.Raise?
    requires GoodCtx(p, ctx, sc, n, top)
    requires CodeAt(p.code, m.pc, LowerStmt(s, ctx, n).ins) && Rel(ctx, m, st) && s.e(st.env, st.mem).Val?
    ensures Sim(p, ctx, sc, n, LowerStmt(s, ctx, n).next, m, m.pc + |LowerStmt(s, ctx, n).ins|,
                PySemantics.Exec(p.w, s, st, fuel), fuel, 1, c)
  {
    hide RunFor, Find, EnvOf;
    CodeAtIndex(p.code, m.pc, LowerStmt(s, ctx, n).ins, 0);
    StepsOne(p, m);
    c := Step(p, m);
  }

  lemma AssignDone(p: Program, s: Stmt, ctx: Ctx, sc: Scope, n: Count, top: Count, m: Mach, st: State, fuel: nat)
    returns (c: Config)
    requires s.Assign? && s.x in ctx.vars && GoodCtx(p, ctx, sc, n, top)
    requires CodeAt(p.code, m.pc, LowerStmt(s, ctx, n).ins) && Rel(ctx, m, st) && s.e(st.env, st.mem).Val?
    ensures Sim(p, ctx, sc, n, LowerStmt(s, ctx, n).next, m, m.pc + |LowerStmt(s, ctx, n).ins|,
                PySemantics.Exec(p.w, s, st, fuel), fuel, 1, c)
  {
    hide RunFor, Find, EnvOf;
    CodeAtIndex(p.code, m.pc, LowerStmt(s, ctx, n).ins, 0);
    StepsOne(p, m);
    c := Step(p, m);
    EnvSet(ctx.vars, m.store, s.x, s.e(st.env, st.mem).v);
  }

  /** The statement's own expression raises. */
  lemma OperandRaises(p: Program, s: Stmt, e: Expr, ctx: Ctx, n: Count, m: Mach, st: State, fuel: nat)
    requires s.Return? ==> s.value == Some(e) && !ctx.gen && !ctx.void
    requires !s.Return? ==> (s.Eval? || s.Assign? || s.Raise?) && e == s.e
    requires CodeAt(p.code, m.pc, LowerStmt(s, ctx, n).ins) && Rel(ctx, m, st) && e(st.env, st.mem).Exc?
    ensures var ev := e(st.env, st.mem);
      && PySemantics.Exec(p.w, s, st, fuel) == Stop(Raised(ev.obj), Land(st, ev)) && Grows(n, LowerStmt(s, ctx, n).next)
      && !Yields(p, m) && Step(p, m) == Unwind(p, m.(mem := ev.mem, inflight := ev.obj))
  {
    hide RunFor, Find;
    CodeAtIndex(p.code, m.pc, LowerStmt(s, ctx, n).ins, 0);
  }

  lemma SimOperand(p: Program, s: Stmt, e: Expr, ctx: Ctx, sc: Scope, n: Count, top: Count, m: Mach, st: State,
                   fuel: nat)
    returns (c: Config)
    requires s.Return? ==> s.value == Some(e) && !ctx.gen && !ctx.void
    requires !s.Return? ==> (s.Eval? || s.Assign? || s.Raise?) && e == s.e
    requires CodeAt(p.code, m.pc, LowerStmt(s, ctx, n).ins) && Rel(ctx, m, st) && e(st.env, st.mem).Exc?
    ensures Sim(p, ctx, sc, n, LowerStmt(s, ctx, n).next, m, m.pc + |LowerStmt(s, ctx, n).ins|,
                PySemantics.Exec(p.w, s, st, fuel), fuel, 1, c)
  {
    hide LowerStmt, PySemantics.Exec, Step, Find, Sim;
    OperandRaises(p, s, e, ctx, n, m, st, fuel);
    NoSteps(p, m);
    c := SimRaised(p, ctx, sc, n, LowerStmt(s, ctx, n).next, m, m, m.pc + |LowerStmt(s, ctx, n).ins|,
                   st, e(st.env, st.mem), fuel, 0);
  }

  /** Sets the pending code and goes to the finally. */
  lemma RouteSteps(p: Program, ctx: Ctx, sc: Scope, n: Count, top: Count, m: Mach, a: nat, code: int)
    returns (m2: Mach)
    requires GoodCtx(p, ctx, sc, n, top) && ctx.fin.Some? && m.pc == a
    requires a + 1 < |p.code| && p.code[a] == SetConst(ctx.fin.value.pending, code)
    requires p.code[a + 1] == Br(ctx.fin.value.entry)
    ensures Steps(p, m, 2, [], Running(m2))
    ensures m2 == m.(pc := Find(p.code, ctx.fin.value.entry), store := m.store[ctx.fin.value.pending := code])
    ensures EnvOf(ctx.vars, m2.store) == EnvOf(ctx.vars, m.store)
  {
    StepsOne(p, m);
    var m1 := m.(pc := a + 1, store := m.store[ctx.fin.value.pending := code]);
    EnvOther(ctx.vars, m.store, ctx.fin.value.pending, code);
    m2 := m1.(pc := Find(p.code, ctx.fin.value.entry));
    Advance(p, m, 1, [], m1, Running(m2));
  }

  lemma SimExit(p: Program, s: Stmt, ctx: Ctx, sc: Scope, n: Count, top: Count, m: Mach, st: State, fuel: nat)
    returns (k: nat, c: Config)
    requires s.Break? || s.Continue?
    requires GoodCtx(p, ctx, sc, n, top) && OkStmt(s, ctx.gen, ctx.void, ctx.vars.Keys, sc)
    requires CodeAt(p.code, m.pc, LowerStmt(s, ctx, n).ins) && Rel(ctx, m, st)
    ensures Sim(p, ctx, sc, n, LowerStmt(s, ctx, n).next, m, m.pc + |LowerStmt(s, ctx, n).ins|,
                PySemantics.Exec(p.w, s, st, fuel), fuel, k, c)
  {
    hide LowerStmt, PySemantics.Exec, Step, RunFor, Find, GoodCtx, Frame, EnvOf, Sim;
    if if s.Break? then BreakRouted(ctx) else ContinueRouted(ctx) {
      k := 2;
      c := ExitRouted(p, s, ctx, sc, n, top, m, st, fuel);
    } else {
      k := 1;
      c := ExitHere(p, s, ctx, sc, n, top, m, st, fuel);
    }
  }

  lemma ExitRouted(p: Program, s: Stmt, ctx: Ctx, sc: Scope, n: Count, top: Count, m: Mach, st: State, fuel: nat)
    returns (c: Config)
    requires if s.Break? then BreakRouted(ctx) else s.Continue? && ContinueRouted(ctx)
    requires GoodCtx(p, ctx, sc, n, top) && sc.loopOk
    requires CodeAt(p.code, m.pc, LowerStmt(s, ctx, n).ins) && Rel(ctx, m, st)
    ensures Sim(p, ctx, sc, n, LowerStmt(s, ctx, n).next, m, m.pc + |LowerStmt(s, ctx, n).ins|,
                PySemantics.Exec(p.w, s, st, fuel), fuel, 2, c)
  {
    hide RunFor, Find, Step;
    CodeAtIndex(p.code, m.pc, LowerStmt(s, ctx, n).ins, 0);
    CodeAtIndex(p.code, m.pc, LowerStmt(s, ctx, n).ins, 1);
    var m2 := RouteSteps(p, ctx, sc, n, top, m, m.pc, if s.Break? then BREAK else CONTINUE);
    c := Running(m2);
  }

  lemma ExitHere(p: Program, s: Stmt, ctx: Ctx, sc: Scope, n: Count, top: Count, m: Mach, st: State, fuel: nat)
    returns (c: Config)
    requires if s.Break? then !BreakRouted(ctx) else s.Continue? && !ContinueRouted(ctx)
    requires GoodCtx(p, ctx, sc, n, top) && sc.loopOk
    requires CodeAt(p.code, m.pc, LowerStmt(s, ctx, n).ins) && Rel(ctx, m, st)
    ensures Sim(p, ctx, sc, n, LowerStmt(s, ctx, n).next, m, m.pc + |LowerStmt(s, ctx, n).ins|,
                PySemantics.Exec(p.w, s, st, fuel), fuel, 1, c)
  {
    hide RunFor;
    CodeAtIndex(p.code, m.pc, LowerStmt(s, ctx, n).ins, 0);
    StepsOne(p, m);
    c := Step(p, m);
  }

  lemma SimReturn(p: Program, s: Stmt, ctx: Ctx, sc: Scope, n: Count, top: Count, m: Mach, st: State, fuel: nat)
    returns (k: nat, c: Config)
    requires s.Return? && s.value.None?
    requires GoodCtx(p, ctx, sc, n, top) && OkStmt(s, ctx.gen, ctx.void, ctx.vars.Keys, sc)
    requires CodeAt(p.code, m.pc, LowerStmt(s, ctx, n).ins) && Rel(ctx, m, st)
    ensures Sim(p, ctx, sc, n, LowerStmt(s, ctx, n).next, m, m.pc + |LowerStmt(s, ctx, n).ins|,
                PySemantics.Exec(p.w, s, st, fuel), fuel, k, c)
  {
    hide LowerStmt, PySemantics.Exec, OkStmt, Step, RunFor, Find, GoodCtx, EnvOf, CodeAt, Sim;
    if ctx.gen {
      c := SimLeave(p, s, ctx, sc, n, top, m, st, fuel);
      k := 4;
    } else if ctx.fin.Some? {
      c := PlainReturnRouted(p, s, ctx, sc, n, top, m, st, fuel);
      k := 2;
    } else {
      c := PlainReturnHere(p, s, ctx, sc, n, top, m, st, fuel);
      k := 1;
    }
  }

  lemma PlainReturnRouted(p: Program, s: Stmt, ctx: Ctx, sc: Scope, n: Count, top: Count, m: Mach, st: State, fuel: nat)
    returns (c: Config)
    requires s.Return? && s.value.None? && !ctx.gen && ctx.fin.Some?
    requires GoodCtx(p, ctx, sc, n, top) && OkStmt(s, ctx.gen, ctx.void, ctx.vars.Keys, sc)
    requires CodeAt(p.code, m.pc, LowerStmt(s, ctx, n).ins) && Rel(ctx, m, st)
    ensures Sim(p, ctx, sc, n, LowerStmt(s, ctx, n).next, m, m.pc + |LowerStmt(s, ctx, n).ins|,
                PySemantics.Exec(p.w, s, st, fuel), fuel, 2, c)
  {
    hide RunFor, Find, EnvOf, CodeAt, Step;
    var ins := LowerStmt(s, ctx, n).ins;
    CodeAtIndex(p.code, m.pc, ins, 0);
    CodeAtIndex(p.code, m.pc, ins, 1);
    var m2 := RouteSteps(p, ctx, sc, n, top, m, m.pc, RETURN);
    c := Running(m2);
  }

  lemma PlainReturnHere(p: Program, s: Stmt, ctx: Ctx, sc: Scope, n: Count, top: Count, m: Mach, st: State, fuel: nat)
    returns (c: Config)
    requires s.Return? && s.value.None? && !ctx.gen && ctx.fin.None?
    requires GoodCtx(p, ctx, sc, n, top) && OkStmt(s, ctx.gen, ctx.void, ctx.vars.Keys, sc)
    requires CodeAt(p.code, m.pc, LowerStmt(s, ctx, n).ins) && Rel(ctx, m, st)
    ensures Sim(p, ctx, sc, n, LowerStmt(s, ctx, n).next, m, m.pc + |LowerStmt(s, ctx, n).ins|,
                PySemantics.Exec(p.w, s, st, fuel), fuel, 1, c)
  {
    hide RunFor, Find, EnvOf, CodeAt;
    CodeAtIndex(p.code, m.pc, LowerStmt(s, ctx, n).ins, 0);
    StepsOne(p, m);
    c := Step(p, m);
  }

  /** A return in a generator: to the exhaustion label, and from there a throw. */
  lemma SimLeave(p: Program, s: Stmt, ctx: Ctx, sc: Scope, n: Count, top: Count, m: Mach, st: State, fuel: nat)
    returns (c: Config)
    requires s.Return? && s.value.None? && ctx.gen && GoodCtx(p, ctx, sc, n, top)
    requires CodeAt(p.code, m.pc, LowerStmt(s, ctx, n).ins) && Rel(ctx, m, st)
    ensures Sim(p, ctx, sc, n, LowerStmt(s, ctx, n).next, m, m.pc + |LowerStmt(s, ctx, n).ins|,
                PySemantics.Exec(p.w, s, st, fuel), fuel, 4, c)
  {
    hide Step, RunFor, Find, EnvOf, CodeAt;
    LeaveParts(p, s, ctx, n, m.pc, st, fuel);
    StateApart(p, ctx, sc, n, top);
    var x := LeaveSteps(p, ctx, sc, n, top, m);
    c := Unwind(p, x);
    EnvOther(ctx.vars, m.store, ctx.lay.state, -1);
  }

  lemma LeaveParts(p: Program, s: Stmt, ctx: Ctx, n: Count, pc: nat, st: State, fuel: nat)
    requires s.Return? && s.value.None? && ctx.gen && CodeAt(p.code, pc, LowerStmt(s, ctx, n).ins)
    ensures pc < |p.code| && p.code[pc] == Br(ctx.lay.exhausted) && LowerStmt(s, ctx, n).next == n.(id := n.id + 1)
    ensures PySemantics.Exec(p.w, s, st, fuel) == PySemantics.Leave(p.w, st)
  {
    hide CodeAt, PySemantics.Leave;
    CodeAtIndex(p.code, pc, LowerStmt(s, ctx, n).ins, 0);
  }

  lemma StateApart(p: Program, ctx: Ctx, sc: Scope, n: Count, top: Count)
    requires GoodCtx(p, ctx, sc, n, top) && ctx.gen
    ensures ctx.lay.state !in ctx.vars.Values && p.w.gen
    ensures ctx.fin.Some? ==> ctx.fin.value.pending != ctx.lay.state
  {
  }

  lemma LeaveSteps(p: Program, ctx: Ctx, sc: Scope, n: Count, top: Count, m: Mach)
    returns (x: Mach)
    requires GoodCtx(p, ctx, sc, n, top) && ctx.gen && m.pc < |p.code| && p.code[m.pc] == Br(ctx.lay.exhausted)
    ensures Steps(p, m, 4, [], Unwind(p, x))
    ensures var stop := p.w.newStop(m.mem);
      x == m.(pc := x.pc, store := m.store[ctx.lay.state := -1], mem := stop.1, inflight := stop.0)
  {
    var e := ExhaustsAt(p, ctx, sc, n, top);
    hide GoodCtx, Step, RunFor, Find, UniqueLabels;
    Jump(p, m, ctx.lay.exhausted, e);
    var a := m.(pc := e + 1);
    var b := m.(pc := e + 2, store := m.store[ctx.lay.state := -1]);
    ConstStep(p, a, ctx.lay.state, -1);
    Silent(p, m, 2, a, 1, Running(b));
    x := b.(mem := p.w.newStop(b.mem).1, inflight := p.w.newStop(b.mem).0);
    StopThrown(p, b);
    Advance(p, m, 3, [], b, Unwind(p, x));
  }

  lemma ExhaustsAt(p: Program, ctx: Ctx, sc: Scope, n: Count, top: Count)
    returns (e: nat)
    requires GoodCtx(p, ctx, sc, n, top) && ctx.gen
    ensures UniqueLabels(p.code) && e + 2 < |p.code| && p.code[e] == Lbl(ctx.lay.exhausted)
    ensures p.code[e + 1] == SetConst(ctx.lay.state, -1) && p.code[e + 2] == ThrowStop
  {
    e := Find(p.code, ctx.lay.exhausted);
  }

  lemma StopThrown(p: Program, m: Mach)
    requires m.pc < |p.code| && p.code[m.pc] == ThrowStop
    ensures !Yields(p, m)
    ensures Step(p, m) == Unwind(p, m.(mem := p.w.newStop(m.mem).1, inflight := p.w.newStop(m.mem).0))
  {
  }

  lemma SimReturnValue(p: Program, s: Stmt, ctx: Ctx, sc: Scope, n: Count, top: Count, m: Mach, st: State, fuel: nat)
    returns (k: nat, c: Config)
    requires s.Return? && s.value.Some?
    requires GoodCtx(p, ctx, sc, n, top) && OkStmt(s, ctx.gen, ctx.void, ctx.vars.Keys, sc)
    requires CodeAt(p.code, m.pc, LowerStmt(s, ctx, n).ins) && Rel(ctx, m, st)
    ensures Sim(p, ctx, sc, n, LowerStmt(s, ctx, n).next, m, m.pc + |LowerStmt(s, ctx, n).ins|,
                PySemantics.Exec(p.w, s, st, fuel), fuel, k, c)
  {
    hide LowerStmt, PySemantics.Exec, Step, RunFor, Find, GoodCtx, Frame, EnvOf, Sim;
    if s.value.value(st.env, st.mem).Exc? {
      c := SimOperand(p, s, s.value.value, ctx, sc, n, top, m, st, fuel);
      k := 1;
    } else if ctx.fin.Some? {
      var m1, ev := ReturnSaves(p, s, ctx, n, m, st, fuel);
      var m2 := RouteReturn(p, ctx, sc, n, LowerStmt(s, ctx, n).next, top, m, m1, m.pc + |LowerStmt(s, ctx, n).ins|,
                            ev.v, Land(st, ev), fuel);
      k, c := 3, Running(m2);
    } else {
      c := ReturnLeaves(p, s, ctx, sc, n, top, m, st, fuel);
      k := 1;
    }
  }

  /** With a finally to go through, the value is saved first. */
  lemma ReturnSaves(p: Program, s: Stmt, ctx: Ctx, n: Count, m: Mach, st: State, fuel: nat)
    returns (m1: Mach, ev: Eval)
    requires s.Return? && s.value.Some? && !ctx.gen && !ctx.void && ctx.fin.Some?
    requires CodeAt(p.code, m.pc, LowerStmt(s, ctx, n).ins) && Rel(ctx, m, st) && s.value.value(st.env, st.mem).Val?
    ensures ev.Val? && PySemantics.Exec(p.w, s, st, fuel) == Stop(Returned(ev.v), Land(st, ev))
    ensures Grows(n, LowerStmt(s, ctx, n).next) && Steps(p, m, 1, [], Running(m1))
    ensures m1 == m.(pc := m.pc + 1, mem := ev.mem, inflight := Flight(ev.caught, m.inflight),
                     store := m.store[ctx.fin.value.ret := ev.v])
    ensures m1.pc + 1 < |p.code| && p.code[m1.pc] == SetConst(ctx.fin.value.pending, RETURN)
    ensures p.code[m1.pc + 1] == Br(ctx.fin.value.entry)
  {
    hide RunFor, Find, EnvOf;
    var ins := LowerStmt(s, ctx, n).ins;
    ev := s.value.value(st.env, st.mem);
    CodeAtIndex(p.code, m.pc, ins, 0);
    CodeAtIndex(p.code, m.pc, ins, 1);
    CodeAtIndex(p.code, m.pc, ins, 2);
    StepsOne(p, m);
    m1 := Step(p, m).m;
  }

  lemma ReturnLeaves(p: Program, s: Stmt, ctx: Ctx, sc: Scope, n: Count, top: Count, m: Mach, st: State, fuel: nat)
    returns (c: Config)
    requires s.Return? && s.value.Some? && !ctx.gen && !ctx.void && ctx.fin.None?
    requires GoodCtx(p, ctx, sc, n, top)
    requires CodeAt(p.code, m.pc, LowerStmt(s, ctx, n).ins) && Rel(ctx, m, st) && s.value.value(st.env, st.mem).Val?
    ensures Sim(p, ctx, sc, n, LowerStmt(s, ctx, n).next, m, m.pc + |LowerStmt(s, ctx, n).ins|,
                PySemantics.Exec(p.w, s, st, fuel), fuel, 1, c)
  {
    hide RunFor, Find, EnvOf;
    CodeAtIndex(p.code, m.pc, LowerStmt(s, ctx, n).ins, 0);
    StepsOne(p, m);
    c := Step(p, m);
  }

  lemma RouteReturn(p: Program, ctx: Ctx, sc: Scope, n: Count, n2: Count, top: Count, m: Mach, m1: Mach, end: nat,
                    v: int, st: State, fuel: nat)
    returns (m2: Mach)
    requires GoodCtx(p, ctx, sc, n, top) && Grows(n, n2) && ctx.fin.Some? && !ctx.gen
    requires Steps(p, m, 1, [], Running(m1)) && m1.store == m.store[ctx.fin.value.ret := v]
    requires m1.hs == m.hs && (m1.mem, m1.inflight, m1.calls) == (st.mem, st.inflight, st.calls)
    requires EnvOf(ctx.vars, m.store) == st.env
    requires m1.pc + 1 < |p.code|
    requires p.code[m1.pc] == SetConst(ctx.fin.value.pending, RETURN) && p.code[m1.pc + 1] == Br(ctx.fin.value.entry)
    ensures Sim(p, ctx, sc, n, n2, m, end, Stop(Returned(v), st), fuel, 3, Running(m2))
  {
    EnvOther(ctx.vars, m.store, ctx.fin.value.ret, v);
    m2 := RouteSteps(p, ctx, sc, n, top, m1, m1.pc, RETURN);
    StepsTrans(p, m, 1, [], m1, 2, [], Running(m2));
  }

  // ---- yields ----

  lemma EnvAgree(vars: Vars, a: map<int, int>, b: map<int, int>)
    requires forall x :: x in vars ==> Get(a, vars[x]) == Get(b, vars[x])
    ensures EnvOf(vars, a) == EnvOf(vars, b)
  {
  }

  /** A return with no handler pushed ends the call; the next one starts. */
  lemma HandOut(p: Program, m: Mach, slot: int)
    requires p.w.gen && m.hs == [] && m.pc < |p.code| && p.code[m.pc] == Ret(slot)
    ensures Steps(p, m, 1, [Get(m.store, slot)], Running(Resume(p, m)))
  {
    hide Resume;
    assert RunFor(p, Resume(p, m), 0) == (Running(Resume(p, m)), []);
    assert [Get(m.store, slot)] + [] == [Get(m.store, slot)];
  }

  /** From the store of the state to just after the resume label: `v` is handed out,
      and only the fields come back. */
  lemma EmitSteps(p: Program, lay: Layout, top: Count, m: Mach, a: nat, k: nat, v: int)
    returns (m2: Mach)
    requires GoodProgram(p, lay) && GoodSwitch(p, lay, top) && p.w.gen && 0 < k <= top.y
    requires m.pc == a && m.hs == [] && Get(m.store, lay.value) == v
    requires CodeAt(p.code, a, [SetConst(lay.state, k), Ret(lay.value), Lbl(lay.caseBase + k)])
    ensures Steps(p, m, 4, [v], Running(m2))
    ensures m2.pc == a + 3 && m2.hs == [] && m2.calls == m.calls + 1 && Get(m2.store, lay.state) == k
    ensures (m2.mem, m2.inflight) == p.w.between(m.calls, m.mem, m.inflight)
    ensures forall slot :: slot < lay.fields && slot != lay.state ==> Get(m2.store, slot) == Get(m.store, slot)
    ensures forall slot :: slot >= lay.fields ==> Get(m2.store, slot) == 0
  {
    hide Step, RunFor, Find, CodeAt, UniqueLabels;
    var ins := [SetConst(lay.state, k), Ret(lay.value), Lbl(lay.caseBase + k)];
    CodeAtIndex(p.code, a, ins, 0);
    CodeAtIndex(p.code, a, ins, 1);
    CodeAtIndex(p.code, a, ins, 2);
    var m1 := m.(pc := a + 1, store := m.store[lay.state := k]);
    ConstStep(p, m, lay.state, k);
    var m3 := Resume(p, m1);
    HandOut(p, m1, lay.value);
    StepsTrans(p, m, 1, [], m1, 1, [v], Running(m3));
    assert [] + [v] == [v];
    assert k in p.code[0].cases && Get(m3.store, lay.state) == k;
    var m4 := m3.(pc := Find(p.code, lay.caseBase + k));
    SwitchStep(p, m3, lay.state, p.code[0].cases, p.code[0].other);
    StepsTrans(p, m, 2, [v], m3, 1, [], Running(m4));
    assert [v] + [] == [v];
    SkipLabel(p, m4, lay.caseBase + k, a + 2);
    m2 := m4.(pc := a + 3);
    StepsTrans(p, m, 3, [v], m4, 1, [], Running(m2));
    assert [v] + [] == [v];
  }

  lemma SimYield(p: Program, s: Stmt, ctx: Ctx, sc: Scope, n: Count, top: Count, m: Mach, st: State, fuel: nat)
    returns (k: nat, c: Config)
    requires s.Yield?
    requires GoodCtx(p, ctx, sc, n, top) && OkStmt(s, ctx.gen, ctx.void, ctx.vars.Keys, sc)
    requires CodeAt(p.code, m.pc, LowerStmt(s, ctx, n).ins) && Rel(ctx, m, st)
    requires Grows(LowerStmt(s, ctx, n).next, top) && m.hs == []
    ensures Sim(p, ctx, sc, n, LowerStmt(s, ctx, n).next, m, m.pc + |LowerStmt(s, ctx, n).ins|,
                PySemantics.Exec(p.w, s, st, fuel), fuel, k, c)
  {
    hide LowerStmt, PySemantics.Exec, OkStmt, Step, RunFor, GoodCtx, EnvOf, CodeAt, Find, Frame;
    var ins, n2 := LowerStmt(s, ctx, n).ins, n.(y := n.y + 1);
    var lay, ev := ctx.lay, s.e(st.env, st.mem);
    YieldParts(p, s, ctx, sc, n, m.pc);
    YieldRun(p.w, s, st, fuel);
    if ev.Exc? {
      SetRaises(p, m, lay.value, ctx.vars, s.e);
      NoSteps(p, m);
      FrameSame(ctx, sc, n, n2, m.store);
      c := SimRaised(p, ctx, sc, n, n2, m, m, m.pc + |ins|, st, ev, fuel, 0);
      k := 1;
    } else {
      var m1 := SetStep(p, m, lay.value, ctx.vars, s.e);
      c := EmitRest(p, ctx, sc, n, n2, top, m, m1, 1, ev.v, Land(st, ev), fuel);
      k := 5;
    }
  }

  lemma YieldParts(p: Program, s: Stmt, ctx: Ctx, sc: Scope, n: Count, pc: nat)
    requires s.Yield? && OkStmt(s, ctx.gen, ctx.void, ctx.vars.Keys, sc) && CodeAt(p.code, pc, LowerStmt(s, ctx, n).ins)
    ensures ctx.gen && !sc.inTry && LowerStmt(s, ctx, n).next == n.(y := n.y + 1) && |LowerStmt(s, ctx, n).ins| == 4
    ensures pc < |p.code| && p.code[pc] == Set(ctx.lay.value, ctx.vars, s.e)
    ensures CodeAt(p.code, pc + 1, [SetConst(ctx.lay.state, n.y + 1), Ret(ctx.lay.value),
                                    Lbl(ctx.lay.caseBase + (n.y + 1))])
  {
    hide CodeAt, OkStmt, LowerStmt;
    YieldCode(s, ctx, sc, n);
    var lay := ctx.lay;
    CodeAtSplit(p.code, pc, [Set(lay.value, ctx.vars, s.e)],
                [SetConst(lay.state, n.y + 1), Ret(lay.value), Lbl(lay.caseBase + (n.y + 1))]);
    CodeAtIndex(p.code, pc, [Set(lay.value, ctx.vars, s.e)], 0);
  }

  lemma YieldCode(s: Stmt, ctx: Ctx, sc: Scope, n: Count)
    requires s.Yield?
    ensures LowerStmt(s, ctx, n)
      == Code([Set(ctx.lay.value, ctx.vars, s.e)]
              + [SetConst(ctx.lay.state, n.y + 1), Ret(ctx.lay.value), Lbl(ctx.lay.caseBase + (n.y + 1))],
              n.(y := n.y + 1))
    ensures OkStmt(s, ctx.gen, ctx.void, ctx.vars.Keys, sc) ==> ctx.gen && !sc.inTry
  {
    hide LowerBlock, LowerIf, LowerWhile, LowerFor, LowerTry, LowerTryFinally, LowerYieldFrom, OkBlock, OkElifs;
    hide OkHandlers;
  }

  lemma YieldRun(w: World, s: Stmt, st: State, fuel: nat)
    requires s.Yield?
    ensures var ev := s.e(st.env, st.mem);
      PySemantics.Exec(w, s, st, fuel)
      == if ev.Exc? then Stop(Raised(ev.obj), Land(st, ev)) else Run(Normal, Emit(w, Land(st, ev)), [ev.v], true, 1)
  {
  }

  lemma SetRaises(p: Program, m: Mach, slot: int, vars: Vars, e: Expr)
    requires m.pc < |p.code| && p.code[m.pc] == Set(slot, vars, e) && e(EnvOf(vars, m.store), m.mem).Exc?
    ensures var ev := e(EnvOf(vars, m.store), m.mem);
      !Yields(p, m) && Step(p, m) == Unwind(p, m.(mem := ev.mem, inflight := ev.obj))
  {
  }

  lemma SetStep(p: Program, m: Mach, slot: int, vars: Vars, e: Expr)
    returns (m1: Mach)
    requires m.pc < |p.code| && p.code[m.pc] == Set(slot, vars, e) && e(EnvOf(vars, m.store), m.mem).Val?
    ensures Steps(p, m, 1, [], Running(m1))
    ensures var ev := e(EnvOf(vars, m.store), m.mem);
      m1 == m.(pc := m.pc + 1, store := m.store[slot := ev.v], mem := ev.mem, inflight := Flight(ev.caught, m.inflight))
  {
    StepsOne(p, m);
    m1 := Step(p, m).m;
  }

  /** Only the state, the value and `yield from` fields of this range differ. */
  ghost predicate SameFields(lay: Layout, n: Count, n2: Count, a: map<int, int>, b: map<int, int>) {
    forall slot {:trigger Get(b, slot)} ::
      && slot < lay.fields && slot != lay.value && slot != lay.state
      && !(lay.yfBase + n.yf <= slot < lay.yfBase + n2.yf) ==>
      Get(b, slot) == Get(a, slot)
  }

  lemma FieldsKept(p: Program, ctx: Ctx, sc: Scope, n: Count, n2: Count, top: Count, a: map<int, int>, b: map<int, int>)
    requires GoodCtx(p, ctx, sc, n, top) && ctx.gen && !sc.inTry
    requires SameFields(ctx.lay, n, n2, a, b)
    ensures EnvOf(ctx.vars, b) == EnvOf(ctx.vars, a) && Frame(ctx, sc, n, n2, a, b)
  {
    EnvAgree(ctx.vars, b, a);
  }

  /** The value field holds `v`: hand it out. */
  lemma EmitRest(p: Program, ctx: Ctx, sc: Scope, n: Count, n2: Count, top: Count, m: Mach, m1: Mach, j: nat,
                 v: int, st: State, fuel: nat)
    returns (c: Config)
    requires GoodCtx(p, ctx, sc, n, top) && ctx.gen && !sc.inTry && Grows(n, n2) && n.y < top.y
    requires Steps(p, m, j, [], Running(m1)) && m1.hs == [] && m.hs == []
    requires Get(m1.store, ctx.lay.value) == v && SameFields(ctx.lay, n, n2, m.store, m1.store)
    requires EnvOf(ctx.vars, m.store) == st.env
    requires (m1.mem, m1.inflight, m1.calls) == (st.mem, st.inflight, st.calls)
    requires CodeAt(p.code, m1.pc, [SetConst(ctx.lay.state, n.y + 1), Ret(ctx.lay.value),
                                    Lbl(ctx.lay.caseBase + (n.y + 1))])
    ensures Sim(p, ctx, sc, n, n2, m, m1.pc + 3, Run(Normal, Emit(p.w, st), [v], true, 1), fuel, j + 4, c)
    ensures c.Running?
  {
    hide RunFor, Step, EnvOf, Find;
    var lay := ctx.lay;
    var m2 := EmitSteps(p, lay, top, m1, m1.pc, n.y + 1, v);
    assert SameFields(lay, n, n2, m.store, m2.store) by {
      forall slot | slot < lay.fields && slot != lay.value && slot != lay.state
                    && !(lay.yfBase + n.yf <= slot < lay.yfBase + n2.yf)
        ensures Get(m2.store, slot) == Get(m.store, slot)
      {
        assert Get(m2.store, slot) == Get(m1.store, slot);
      }
    }
    FieldsKept(p, ctx, sc, n, n2, top, m.store, m2.store);
    hide GoodCtx, Frame, SameFields, GoodProgram, GoodSwitch;
    StepsTrans(p, m, j, [], m1, 4, [v], Running(m2));
    assert [] + [v] == [v];
    c := Running(m2);
  }

  // ---- calls to an iterator ----

  /** Push, call `__next__`, pop: the value is in `tmp`, or control is at the landing
      label with the handler still pushed. */
  lemma NextSteps(p: Program, m: Mach, h: nat, land: int, go: int, tmp: int, it: int)
    returns (m1: Mach)
    requires UniqueLabels(p.code) && m.pc == h
    requires CodeAt(p.code, h, [Push(land, go), Lbl(go), Next(tmp, it), Pop])
    ensures var ev := p.w.next(Get(m.store, it), m.mem);
      if ev.Exc? then
        && Steps(p, m, 3, [], Running(m1))
        && m1 == m.(pc := Find(p.code, land), hs := [land] + m.hs, mem := ev.mem, inflight := ev.obj)
      else
        && Steps(p, m, 4, [], Running(m1))
        && m1 == m.(pc := h + 4, store := m.store[tmp := ev.v], mem := ev.mem,
                    inflight := Flight(ev.caught, m.inflight))
  {
    hide Find, CodeAt, RunFor, UniqueLabels;
    var ins := [Push(land, go), Lbl(go), Next(tmp, it), Pop];
    CodeAtIndex(p.code, h, ins, 0);
    CodeAtIndex(p.code, h, ins, 1);
    CodeAtIndex(p.code, h, ins, 2);
    CodeAtIndex(p.code, h, ins, 3);
    var b := PushSteps(p, m, land, go);
    var ev := p.w.next(Get(m.store, it), m.mem);
    m1 := NextStep(p, m, b, tmp, it, ev);
    if ev.Val? {
      var a := m1;
      m1 := a.(pc := h + 4, hs := m.hs);
      assert a.hs[1..] == m.hs;
      PopStep(p, a);
      Advance(p, m, 3, [], a, Running(m1));
    }
  }

  lemma PushSteps(p: Program, m: Mach, land: int, go: int)
    returns (b: Mach)
    requires UniqueLabels(p.code) && m.pc + 1 < |p.code| && p.code[m.pc] == Push(land, go)
    requires p.code[m.pc + 1] == Lbl(go)
    ensures b == m.(pc := m.pc + 2, hs := [land] + m.hs) && Steps(p, m, 2, [], Running(b))
  {
    hide Find, RunFor, Step, UniqueLabels;
    PushStep(p, m, land, go);
    var a := m.(pc := Find(p.code, go), hs := [land] + m.hs);
    SkipLabel(p, a, go, m.pc + 1);
    b := a.(pc := m.pc + 2);
    Silent(p, m, 1, a, 1, Running(b));
  }

  lemma NextStep(p: Program, m: Mach, b: Mach, tmp: int, it: int, ev: Eval)
    returns (m1: Mach)
    requires Steps(p, m, 2, [], Running(b)) && b.hs != [] && b.pc < |p.code| && p.code[b.pc] == Next(tmp, it)
    requires ev == p.w.next(Get(b.store, it), b.mem)
    ensures Steps(p, m, 3, [], Running(m1))
    ensures m1 == if ev.Exc? then b.(pc := Find(p.code, b.hs[0]), mem := ev.mem, inflight := ev.obj)
                  else b.(pc := b.pc + 1, store := b.store[tmp := ev.v], mem := ev.mem,
                          inflight := Flight(ev.caught, b.inflight))
  {
    hide Find, RunFor;
    m1 := Step(p, b).m;
    Advance(p, m, 2, [], b, Step(p, b));
  }

  lemma PopStep(p: Program, m: Mach)
    requires m.pc < |p.code| && p.code[m.pc] == Pop && m.hs != []
    ensures !Yields(p, m) && Step(p, m) == Running(m.(pc := m.pc + 1, hs := m.hs[1..]))
  {
  }

  lemma ClearStep(p: Program, m: Mach)
    requires m.pc < |p.code| && p.code[m.pc] == Clear
    ensures !Yields(p, m) && Step(p, m) == Running(m.(pc := m.pc + 1, inflight := 0))
  {
  }

  lemma RethrowStep(p: Program, m: Mach)
    requires m.pc < |p.code| && p.code[m.pc] == Rethrow
    ensures !Yields(p, m) && Step(p, m) == Unwind(p, m)
  {
  }

  lemma StopTest(p: Program, m: Mach, stop: int, rethrow: int)
    requires m.pc < |p.code| && p.code[m.pc] == IfStop(stop, rethrow)
    ensures !Yields(p, m)
    ensures Step(p, m) == Running(m.(pc := Find(p.code, if p.w.isA(m.inflight, p.w.stopClass) then stop else rethrow)))
  {
  }

  /** At the landing label of an iterator loop: pop and test. */
  lemma LandingSteps(p: Program, m: Mach, d: nat, land: int, stop: int, rethrow: int, end: int, hs: seq<int>)
    requires UniqueLabels(p.code) && m.pc == Find(p.code, land) && m.hs == [land] + hs
    requires CodeAt(p.code, d, IterTail(land, stop, rethrow, end))
    ensures Steps(p, m, 3, [], Running(m.(hs := hs,
              pc := Find(p.code, if p.w.isA(m.inflight, p.w.stopClass) then stop else rethrow))))
  {
    hide Step, RunFor, Find, CodeAt, UniqueLabels;
    var ins := IterTail(land, stop, rethrow, end);
    CodeAtIndex(p.code, d, ins, 0);
    CodeAtIndex(p.code, d, ins, 1);
    CodeAtIndex(p.code, d, ins, 2);
    SkipLabel(p, m, land, d);
    assert m.hs[1..] == hs;
    var b := m.(pc := d + 2, hs := hs);
    PopStep(p, m.(pc := d + 1));
    Advance(p, m, 1, [], m.(pc := d + 1), Running(b));
    StopTest(p, b, stop, rethrow);
    Advance(p, m, 2, [], b, Step(p, b));
  }

  lemma StopSteps(p: Program, m: Mach, d: nat, land: int, stop: int, rethrow: int, end: int)
    requires UniqueLabels(p.code) && m.pc == Find(p.code, stop)
    requires CodeAt(p.code, d, IterTail(land, stop, rethrow, end))
    ensures Steps(p, m, 4, [], Running(m.(pc := d + 9, inflight := 0)))
  {
    hide Step, RunFor, Find, CodeAt, UniqueLabels;
    var ins := IterTail(land, stop, rethrow, end);
    CodeAtIndex(p.code, d, ins, 3);
    CodeAtIndex(p.code, d, ins, 4);
    CodeAtIndex(p.code, d, ins, 5);
    CodeAtIndex(p.code, d, ins, 8);
    SkipLabel(p, m, stop, d + 3);
    var b := m.(pc := d + 5, inflight := 0);
    ClearStep(p, m.(pc := d + 4));
    Advance(p, m, 1, [], m.(pc := d + 4), Running(b));
    Jump(p, b, end, d + 8);
    Silent(p, m, 2, b, 2, Running(b.(pc := d + 9)));
  }

  lemma RethrowSteps(p: Program, m: Mach, d: nat, land: int, stop: int, rethrow: int, end: int)
    requires UniqueLabels(p.code) && m.pc == Find(p.code, rethrow)
    requires CodeAt(p.code, d, IterTail(land, stop, rethrow, end))
    ensures Steps(p, m, 2, [], Unwind(p, m.(pc := d + 7)))
  {
    hide Step, RunFor, Find, CodeAt, UniqueLabels;
    var ins := IterTail(land, stop, rethrow, end);
    CodeAtIndex(p.code, d, ins, 6);
    CodeAtIndex(p.code, d, ins, 7);
    SkipLabel(p, m, rethrow, d + 6);
    RethrowStep(p, m.(pc := d + 7));
    Advance(p, m, 1, [], m.(pc := d + 7), Unwind(p, m.(pc := d + 7)));
  }

  /** The iterator raised: the loop ends or the exception goes on. */
  lemma SimIterEnd(p: Program, ctx: Ctx, sc: Scope, n: Count, n2: Count, m: Mach, m1: Mach, j: nat, d: nat,
                   land: int, stop: int, rethrow: int, end: int, ev: Eval, st: State, fuel: nat)
    returns (k: nat, c: Config)
    requires UniqueLabels(p.code) && Rel(ctx, m, st) && ev.Exc?
    requires CodeAt(p.code, d, IterTail(land, stop, rethrow, end))
    requires Steps(p, m, j, [], Running(m1))
    requires m1 == m.(pc := Find(p.code, land), hs := [land] + m.hs, mem := ev.mem, inflight := ev.obj)
    ensures Sim(p, ctx, sc, n, n2, m, d + 9, IterEnd(p.w, ev, st), fuel, k, c)
    ensures IterEnd(p.w, ev, st).out.Normal? ==> c.Running?
  {
    hide RunFor, Step, IterTail, Find, EnvOf;
    LandingSteps(p, m1, d, land, stop, rethrow, end, m.hs);
    var stops := p.w.isA(ev.obj, p.w.stopClass);
    var m2 := m1.(hs := m.hs, pc := Find(p.code, if stops then stop else rethrow));
    Silent(p, m, j, m1, 3, Running(m2));
    if stops {
      StopSteps(p, m2, d, land, stop, rethrow, end);
      k, c := j + 3 + 4, Running(m2.(pc := d + 9, inflight := 0));
      Silent(p, m, j + 3, m2, 4, c);
    } else {
      RethrowSteps(p, m2, d, land, stop, rethrow, end);
      k, c := j + 3 + 2, Unwind(p, m2.(pc := d + 7));
      Silent(p, m, j + 3, m2, 2, c);
    }
  }

  // ---- yield from ----

  /** The code of a `yield from` after its head label, which is at `h - 1`. */
  ghost predicate YieldFromAt(p: Program, lay: Layout, n: Count, it: int, h: nat) {
    && 0 < h < |p.code| && p.code[h - 1] == Lbl(n.id)
    && CodeAt(p.code, h, [Push(n.id + 2, n.id + 1), Lbl(n.id + 1), Next(n.id + 6, it), Pop])
    && CodeAt(p.code, h + 4, [Move(lay.value, n.id + 6)])
    && CodeAt(p.code, h + 5, [SetConst(lay.state, n.y + 1), Ret(lay.value), Lbl(lay.caseBase + (n.y + 1))])
    && CodeAt(p.code, h + 8, [Br(n.id)])
    && CodeAt(p.code, h + 9, IterTail(n.id + 2, n.id + 3, n.id + 4, n.id + 5))
  }

  lemma PullSteps(p: Program, lay: Layout, n: Count, m: Mach, h: nat, it: int)
    returns (m2: Mach)
    requires UniqueLabels(p.code) && m.pc == h && YieldFromAt(p, lay, n, it, h)
    requires p.w.next(Get(m.store, it), m.mem).Val?
    ensures Steps(p, m, 5, [], Running(m2))
    ensures var ev := p.w.next(Get(m.store, it), m.mem);
      m2 == m.(pc := h + 5, store := m.store[n.id + 6 := ev.v][lay.value := ev.v],
               mem := ev.mem, inflight := Flight(ev.caught, m.inflight))
  {
    hide Step, RunFor, Find, IterTail, CodeAt, UniqueLabels;
    var m1 := NextSteps(p, m, h, n.id + 2, n.id + 1, n.id + 6, it);
    CodeAtIndex(p.code, h + 4, [Move(lay.value, n.id + 6)], 0);
    m2 := m1.(pc := h + 5, store := m1.store[lay.value := Get(m1.store, n.id + 6)]);
    MoveStep(p, m1, lay.value, n.id + 6);
    Silent(p, m, 4, m1, 1, Running(m2));
  }

  lemma MoveStep(p: Program, m: Mach, slot: int, src: int)
    requires m.pc < |p.code| && p.code[m.pc] == Move(slot, src)
    ensures Steps(p, m, 1, [], Running(m.(pc := m.pc + 1, store := m.store[slot := Get(m.store, src)])))
  {
    StepsOne(p, m);
  }

  /** One value pulled and handed on, from head to head. */
  lemma SimYieldFromRound(p: Program, ctx: Ctx, sc: Scope, n: Count, n2: Count, top: Count, m: Mach, h: nat, it: int,
                          st: State, ev: Eval, fuel: nat)
    returns (m3: Mach)
    requires GoodCtx(p, ctx, sc, n, top) && ctx.gen && !sc.inTry && Rel(ctx, m, st)
    requires m.hs == [] && m.pc == h && YieldFromAt(p, ctx.lay, n, it, h)
    requires ev == p.w.next(Get(m.store, it), st.mem) && ev.Val?
    requires n2 == n.(id := n.id + 7, y := n.y + 1) && Grows(n2, top)
    requires ctx.lay.yfBase <= it < ctx.lay.yfBase + n.yf
    ensures Sim(p, ctx, sc, n, n2, m, h, Run(Normal, Emit(p.w, Land(st, ev)), [ev.v], true, 1), fuel, 11, Running(m3))
    ensures Get(m3.store, it) == Get(m.store, it)
  {
    var f := n.id;
    hide RunFor, Step, IterTail, EnvOf, Find;
    var m2 := PullSteps(p, ctx.lay, n, m, h, it);
    CodeAtIndex(p.code, h + 8, [Br(f)], 0);
    var c1 := EmitRest(p, ctx, sc, n, n2, top, m, m2, 5, ev.v, Land(st, ev), fuel);
    Jump(p, c1.m, f, h - 1);
    m3 := c1.m.(pc := h);
    assert Get(m3.store, it) == Get(m.store, it) by { assert !Writable(ctx, n, n2, it); }
    hide GoodCtx, YieldFromAt, Frame, Writable;
    SimSuffix(p, ctx, sc, n, n2, m, h + 8, h, Run(Normal, Emit(p.w, Land(st, ev)), [ev.v], true, 1),
              fuel, 9, c1, 2, m3);
  }

  /** The loop of a `yield from`, from just after its head label. */
  lemma {:induction false} SimYieldFromLoop(p: Program, ctx: Ctx, sc: Scope, n: Count, n2: Count, top: Count, m: Mach,
                                            h: nat, it: int, st: State, fuel: nat)
    returns (k: nat, c: Config)
    requires GoodCtx(p, ctx, sc, n, top) && ctx.gen && !sc.inTry && Rel(ctx, m, st)
    requires m.hs == [] && m.pc == h && YieldFromAt(p, ctx.lay, n, it, h)
    requires n2 == n.(id := n.id + 7, y := n.y + 1) && Grows(n2, top)
    requires ctx.lay.yfBase <= it < ctx.lay.yfBase + n.yf
    ensures Sim(p, ctx, sc, n, n2, m, h + 18, ExecYieldFrom(p.w, Get(m.store, it), st, fuel), fuel, k, c)
    ensures ExecYieldFrom(p.w, Get(m.store, it), st, fuel).out.Normal? ==> c.Running?
    decreases fuel
  {
    hide RunFor, Step, IterTail, EnvOf, Find, Frame, Writable, GoodCtx;
    var f := n.id;
    if fuel == 0 {
      NoSteps(p, m);
      k, c := 0, Running(m);
    } else {
      var ev := p.w.next(Get(m.store, it), st.mem);
      if ev.Exc? {
        GoodLabels(p, ctx, sc, n, top);
        var m1 := NextSteps(p, m, h, f + 2, f + 1, f + 6, it);
        k, c := SimIterEnd(p, ctx, sc, n, n2, m, m1, 3, h + 9, f + 2, f + 3, f + 4, f + 5, ev, st, fuel);
      } else {
        var m3 := SimYieldFromRound(p, ctx, sc, n, n2, top, m, h, it, st, ev, fuel);
        var r := Run(Normal, Emit(p.w, Land(st, ev)), [ev.v], true, 1);
        var k2;
        k2, c := SimYieldFromLoop(p, ctx, sc, n, n2, top, m3, h, it, r.st, fuel - 1);
        SimRound(p, ctx, sc, n, n2, m, h, h + 18, r, ExecYieldFrom(p.w, Get(m.store, it), r.st, fuel - 1), fuel, 11,
                 Running(m3), k2, c);
        k := 11 + k2;
      }
    }
  }

  lemma NoSteps(p: Program, m: Mach)
    ensures Steps(p, m, 0, [], Running(m))
  {
  }

  lemma GoodLabels(p: Program, ctx: Ctx, sc: Scope, n: Count, top: Count)
    requires GoodCtx(p, ctx, sc, n, top)
    ensures UniqueLabels(p.code)
  {
  }

  lemma SimYieldFrom(p: Program, e: Expr, ctx: Ctx, sc: Scope, n: Count, top: Count, m: Mach, st: State, fuel: nat)
    returns (k: nat, c: Config)
    requires Ready(p, ctx, sc, n, top, m, st, LowerYieldFrom(e, ctx, n)) && ctx.gen && !sc.inTry
    ensures Sim(p, ctx, sc, n, LowerYieldFrom(e, ctx, n).next, m, m.pc + |LowerYieldFrom(e, ctx, n).ins|,
                PySemantics.Exec(p.w, YieldFrom(e), st, fuel), fuel, k, c)
  {
    hide LowerYieldFrom, PySemantics.Exec, ExecYieldFrom, Step, RunFor, Find, EvalIter, GoodCtx, Frame, EnvOf;
    hide YieldFromAt;
    var L, r := LowerYieldFrom(e, ctx, n), PySemantics.Exec(p.w, YieldFrom(e), st, fuel);
    var it, n1 := ctx.lay.yfBase + n.yf, n.(yf := n.yf + 1);
    var ev, h := EvalIter(p.w, e, st.env, st.mem), m.pc + 3;
    YieldFromFacts(p, e, ctx, sc, n, top, st, fuel, ev);
    YieldFromParts(p, e, ctx, n, m.pc);
    GoodLabels(p, ctx, sc, n, top);
    var m1 := GetIterStep(p, m, it, ctx.vars, e, ev, st);
    if ev.Exc? {
      NoSteps(p, m);
      FrameSame(ctx, sc, n, L.next, m.store);
      c := SimRaised(p, ctx, sc, n, L.next, m, m, m.pc + |L.ins|, st, ev, fuel, 0);
      k := 1;
    } else {
      GoodLater(p, ctx, sc, n, n1, top);
      WriteSlot(ctx, sc, n, n1, m.store, it, ev.v);
      Jump(p, m1, n.id, m.pc + 2);
      var m2 := m1.(pc := h);
      Silent(p, m, 1, m1, 2, Running(m2));
      k, c := SimYieldFromLoop(p, ctx, sc, n1, L.next, top, m2, h, it, Land(st, ev), fuel);
      SimPrefix(p, ctx, sc, n, n1, L.next, L.next, m, m2, m.pc + 21, r, fuel, fuel, 3, k, c);
      k := 3 + k;
    }
  }

  lemma YieldFromFacts(p: Program, e: Expr, ctx: Ctx, sc: Scope, n: Count, top: Count, st: State, fuel: nat, ev: Eval)
    requires GoodCtx(p, ctx, sc, n, top) && ctx.gen && !sc.inTry && Grows(LowerYieldFrom(e, ctx, n).next, top)
    requires ev == EvalIter(p.w, e, st.env, st.mem)
    ensures PySemantics.Exec(p.w, YieldFrom(e), st, fuel)
         == if ev.Exc? then Stop(Raised(ev.obj), Land(st, ev)) else ExecYieldFrom(p.w, ev.v, Land(st, ev), fuel)
    ensures LowerYieldFrom(e, ctx, n).next == n.(id := n.id + 7, y := n.y + 1, yf := n.yf + 1)
    ensures ctx.lay.yfBase + n.yf !in ctx.vars.Values && ctx.fin.None? && ctx.lay.yfBase + n.yf != ctx.lay.state
    ensures Writable(ctx, n, n.(yf := n.yf + 1), ctx.lay.yfBase + n.yf)
  {
  }

  lemma FrameSame(ctx: Ctx, sc: Scope, n: Count, n2: Count, a: map<int, int>)
    ensures Frame(ctx, sc, n, n2, a, a)
  {
  }

  /** A write to a slot that is no variable's. */
  /** A part of the text skipped: only the machine moves, and the sites before count. */
  lemma SimSkip(p: Program, ctx: Ctx, sc: Scope, n: Count, n1: Count, n2: Count, m: Mach, m1: Mach, end: nat,
                r: Run, fuel: nat, j: nat, k: nat, c: Config)
    requires Grows(n, n1) && Grows(n1, n2)
    requires Steps(p, m, j, [], Running(m1)) && m1.hs == m.hs && m1.store == m.store
    requires Sim(p, ctx, sc, n1, n2, m1, end, r, fuel, k, c)
    ensures Sim(p, ctx, sc, n, n2, m, end, From(n1.y - n.y, r), fuel, j + k, c)
  {
    hide Sim, Frame, RunFor;
    FrameSame(ctx, sc, n, n1.(y := n.y), m.store);
    SimFrom(p, ctx, sc, n1, n2, n.y, m1, end, r, fuel, k, c);
    SimPrefix(p, ctx, sc, n, n1.(y := n.y), n2, n2, m, m1, end, From(n1.y - n.y, r), fuel, fuel, j, k, c);
  }

  lemma WriteSlot(ctx: Ctx, sc: Scope, n: Count, n2: Count, store: map<int, int>, slot: int, v: int)
    requires slot !in ctx.vars.Values && Writable(ctx, n, n2, slot) && (ctx.fin.Some? ==> slot != ctx.fin.value.pending)
    requires ctx.gen ==> slot != ctx.lay.state
    ensures EnvOf(ctx.vars, store[slot := v]) == EnvOf(ctx.vars, store)
    ensures Frame(ctx, sc, n, n2, store, store[slot := v]) && Quiet(ctx, store, store[slot := v])
  {
  }

  /** The first instruction of an iterator loop. */
  lemma GetIterStep(p: Program, m: Mach, slot: int, vars: Vars, e: Expr, ev: Eval, st: State)
    returns (m1: Mach)
    requires m.pc < |p.code| && p.code[m.pc] == GetIter(slot, vars, e)
    requires EnvOf(vars, m.store) == st.env && m.mem == st.mem && ev == EvalIter(p.w, e, st.env, st.mem)
    ensures !Yields(p, m)
    ensures ev.Exc? ==> Step(p, m) == Unwind(p, m.(mem := ev.mem, inflight := ev.obj))
    ensures ev.Val? ==> Steps(p, m, 1, [], Running(m1))
    ensures ev.Val? ==> m1 == m.(pc := m.pc + 1, store := m.store[slot := ev.v], mem := ev.mem,
                                 inflight := Flight(ev.caught, m.inflight))
  {
    StepsOne(p, m);
    m1 := Step(p, m).m;
  }

  lemma YieldFromIns(e: Expr, ctx: Ctx, n: Count)
    ensures var it := ctx.lay.yfBase + n.yf;
      LowerYieldFrom(e, ctx, n).ins
      == [GetIter(it, ctx.vars, e)] + (YieldFromHead(it, ctx.lay, n.y + 1, n.id)
                                       + IterTail(n.id + 2, n.id + 3, n.id + 4, n.id + 5))
    ensures |LowerYieldFrom(e, ctx, n).ins| == 21
  {
    hide YieldFromHead, IterTail;
  }

  lemma YieldFromParts(p: Program, e: Expr, ctx: Ctx, n: Count, pc: nat)
    requires CodeAt(p.code, pc, LowerYieldFrom(e, ctx, n).ins)
    ensures pc < |p.code| && p.code[pc] == GetIter(ctx.lay.yfBase + n.yf, ctx.vars, e)
    ensures pc + 2 < |p.code| && p.code[pc + 1] == Br(n.id) && p.code[pc + 2] == Lbl(n.id)
    ensures |LowerYieldFrom(e, ctx, n).ins| == 21
    ensures YieldFromAt(p, ctx.lay, n.(yf := n.yf + 1), ctx.lay.yfBase + n.yf, pc + 3)
  {
    hide YieldFromHead, IterTail, LowerYieldFrom, CodeAt;
    var f, it, lay := n.id, ctx.lay.yfBase + n.yf, ctx.lay;
    var tail := IterTail(f + 2, f + 3, f + 4, f + 5);
    var head := YieldFromHead(it, lay, n.y + 1, f);
    var get := [GetIter(it, ctx.vars, e)];
    YieldFromIns(e, ctx, n);
    CodeAtSplit(p.code, pc, get, head + tail);
    CodeAtIndex(p.code, pc, get, 0);
    CodeAtSplit(p.code, pc + 1, head, tail);
    YieldFromHeadParts(p, lay, n, it, pc + 1);
  }

  lemma YieldFromHeadParts(p: Program, lay: Layout, n: Count, it: int, a: nat)
    requires CodeAt(p.code, a, YieldFromHead(it, lay, n.y + 1, n.id))
    ensures |YieldFromHead(it, lay, n.y + 1, n.id)| == 11
    ensures a + 11 <= |p.code| && p.code[a] == Br(n.id) && p.code[a + 1] == Lbl(n.id)
    ensures CodeAt(p.code, a + 2, [Push(n.id + 2, n.id + 1), Lbl(n.id + 1), Next(n.id + 6, it), Pop])
    ensures CodeAt(p.code, a + 6, [Move(lay.value, n.id + 6)])
    ensures CodeAt(p.code, a + 7, [SetConst(lay.state, n.y + 1), Ret(lay.value), Lbl(lay.caseBase + (n.y + 1))])
    ensures CodeAt(p.code, a + 10, [Br(n.id)])
  {
    var head := YieldFromHead(it, lay, n.y + 1, n.id);
    var q := [Push(n.id + 2, n.id + 1), Lbl(n.id + 1), Next(n.id + 6, it), Pop];
    var y := [SetConst(lay.state, n.y + 1), Ret(lay.value), Lbl(lay.caseBase + (n.y + 1))];
    assert head == [Br(n.id), Lbl(n.id)] + (q + ([Move(lay.value, n.id + 6)] + (y + [Br(n.id)])));
    CodeAtSplit(p.code, a, [Br(n.id), Lbl(n.id)], q + ([Move(lay.value, n.id + 6)] + (y + [Br(n.id)])));
    CodeAtIndex(p.code, a, [Br(n.id), Lbl(n.id)], 0);
    CodeAtIndex(p.code, a, [Br(n.id), Lbl(n.id)], 1);
    CodeAtSplit(p.code, a + 2, q, [Move(lay.value, n.id + 6)] + (y + [Br(n.id)]));
    CodeAtSplit(p.code, a + 6, [Move(lay.value, n.id + 6)], y + [Br(n.id)]);
    CodeAtSplit(p.code, a + 7, y, [Br(n.id)]);
  }

  /** Everything the simulation of a piece of code starts from. */
  ghost predicate Ready(p: Program, ctx: Ctx, sc: Scope, n: Count, top: Count, m: Mach, st: State, code: Code) {
    && GoodCtx(p, ctx, sc, n, top) && Grows(n, code.next) && Grows(code.next, top)
    && CodeAt(p.code, m.pc, code.ins) && Rel(ctx, m, st)
    && (!sc.inTry ==> m.hs == [])
  }

  // ---- conditions ----

  /** A branch on `c`, seen up to just after the label it goes to. */
  lemma CondSteps(p: Program, m: Mach, vars: Vars, c: Expr, yes: int, no: int, i: nat, j: nat, ev: Eval)
    returns (m1: Mach)
    requires UniqueLabels(p.code) && m.pc < |p.code| && p.code[m.pc] == CondBr(vars, c, yes, no)
    requires i < |p.code| && p.code[i] == Lbl(yes) && j < |p.code| && p.code[j] == Lbl(no)
    requires ev == c(EnvOf(vars, m.store), m.mem)
    ensures !Yields(p, m)
    ensures ev.Exc? ==> Step(p, m) == Unwind(p, m.(mem := ev.mem, inflight := ev.obj))
    ensures ev.Val? ==> Steps(p, m, 2, [], Running(m1))
    ensures ev.Val? ==> m1 == m.(pc := (if ev.v != 0 then i else j) + 1, mem := ev.mem,
                                 inflight := Flight(ev.caught, m.inflight))
  {
    StepsOne(p, m);
    m1 := Step(p, m).m;
    if ev.Val? {
      var l, t := if ev.v != 0 then yes else no, if ev.v != 0 then i else j;
      SkipLabel(p, m1, l, t);
      Silent(p, m, 1, m1, 1, Running(m1.(pc := t + 1)));
      m1 := m1.(pc := t + 1);
    }
  }

  /** A run that does not end normally, seen as part of more code. */
  lemma SimOutOfHere(p: Program, ctx: Ctx, sc: Scope, n: Count, n2: Count, n3: Count, m: Mach, end: nat, end2: nat,
                     r: Run, fuel: nat, k: nat, c: Config)
    requires Sim(p, ctx, sc, n, n2, m, end, r, fuel, k, c) && !r.out.Normal? && Grows(n2, n3)
    ensures Sim(p, ctx, sc, n, n3, m, end2, r, fuel, k, c)
  {
    if r.faithful && !r.out.OutOfFuel? && c.Running? {
      FrameWiden(ctx, sc, n, n, n2, n3, m.store, c.m.store);
    }
  }

  // ---- if ----

  /** A piece of code followed by a branch to `l`. */
  lemma SimThenJump(p: Program, ctx: Ctx, sc: Scope, n: Count, n2: Count, m: Mach, mid: nat, l: int, i: nat,
                    r: Run, fuel: nat, k: nat, c: Config)
    returns (k2: nat, c2: Config)
    requires Sim(p, ctx, sc, n, n2, m, mid, r, fuel, k, c) && UniqueLabels(p.code)
    requires mid < |p.code| && p.code[mid] == Br(l) && i < |p.code| && p.code[i] == Lbl(l)
    ensures Sim(p, ctx, sc, n, n2, m, i + 1, r, fuel, k2, c2)
  {
    hide RunFor, Step, Find, Frame, EnvOf;
    if r.out.Normal? {
      if r.faithful {
        Jump(p, c.m, l, i);
        SimSuffix(p, ctx, sc, n, n2, m, mid, i + 1, r, fuel, k, c, 2, c.m.(pc := i + 1));
        k2, c2 := k + 2, Running(c.m.(pc := i + 1));
      } else {
        k2, c2 := k, c;
      }
    } else {
      SimElsewhere(p, ctx, sc, n, n2, m, mid, i + 1, r, fuel, k, c);
      k2, c2 := k, c;
    }
  }

  lemma IfParts(p: Program, s: Stmt, ctx: Ctx, n: Count, pc: nat)
    returns (n1: Count, elseL: int, a: Code, z: Code, mid: nat, last: nat)
    requires s.If? && CodeAt(p.code, pc, LowerIf(s, ctx, n).ins)
    ensures n1 == n.(id := if s.els.NoElse? then n.id + 2 else n.id + 3)
    ensures elseL == if s.els.NoElse? then n.id + 1 else n.id + 2
    ensures a == LowerBlock(s.thn, ctx, n1) && z == LowerElifs(s.els, elseL, n.id + 1, 0, ctx, a.next)
    ensures mid == pc + 2 + |a.ins| && last == mid + 1 + |z.ins| && last + 1 == pc + |LowerIf(s, ctx, n).ins|
    ensures last < |p.code| && p.code[pc] == CondBr(ctx.vars, s.c, n.id, elseL) && p.code[pc + 1] == Lbl(n.id)
    ensures CodeAt(p.code, pc + 2, a.ins) && p.code[mid] == Br(n.id + 1)
    ensures CodeAt(p.code, mid + 1, z.ins) && p.code[last] == Lbl(n.id + 1)
    ensures z.next == LowerIf(s, ctx, n).next
  {
    hide LowerBlock, LowerElifs, CodeAt;
    elseL := if s.els.NoElse? then n.id + 1 else n.id + 2;
    n1 := n.(id := if s.els.NoElse? then n.id + 2 else n.id + 3);
    a := LowerBlock(s.thn, ctx, n1);
    z := LowerElifs(s.els, elseL, n.id + 1, 0, ctx, a.next);
    mid := pc + 2 + |a.ins|;
    last := mid + 1 + |z.ins|;
    var head, br, end := [CondBr(ctx.vars, s.c, n.id, elseL), Lbl(n.id)], [Br(n.id + 1)], [Lbl(n.id + 1)];
    CodeAt5(p.code, pc, head, a.ins, br, z.ins, end);
    CodeAtIndex(p.code, pc, head, 0);
    CodeAtIndex(p.code, pc, head, 1);
    CodeAtIndex(p.code, mid, br, 0);
    CodeAtIndex(p.code, last, end, 0);
  }

  lemma IfFacts(w: World, s: Stmt, ctx: Ctx, sc: Scope, st: State, fuel: nat)
    requires s.If? && OkStmt(s, ctx.gen, ctx.void, ctx.vars.Keys, sc)
    ensures OkBlock(s.thn, ctx.gen, ctx.void, ctx.vars.Keys, sc) && OkElifs(s.els, ctx.gen, ctx.void, ctx.vars.Keys, sc)
    ensures var ev := s.c(st.env, st.mem);
      PySemantics.Exec(w, s, st, fuel)
      == if ev.Exc? then Stop(Raised(ev.obj), Land(st, ev))
         else if ev.v != 0 then ExecBlock(w, s.thn, Land(st, ev), fuel)
         else From(SitesOf(s.thn).y, ExecElifs(w, s.els, Land(st, ev), fuel))
  {
  }

  lemma ElifFacts(w: World, els: Elifs, ctx: Ctx, sc: Scope, st: State, fuel: nat)
    requires els.Elif? && OkElifs(els, ctx.gen, ctx.void, ctx.vars.Keys, sc)
    ensures OkBlock(els.b, ctx.gen, ctx.void, ctx.vars.Keys, sc)
    ensures OkElifs(els.rest, ctx.gen, ctx.void, ctx.vars.Keys, sc)
    ensures var ev := els.c(st.env, st.mem);
      ExecElifs(w, els, st, fuel)
      == if ev.Exc? then Stop(Raised(ev.obj), Land(st, ev))
         else if ev.v != 0 then ExecBlock(w, els.b, Land(st, ev), fuel)
         else From(SitesOf(els.b).y, ExecElifs(w, els.rest, Land(st, ev), fuel))
  {
  }

  lemma ElifsFirst(p: Program, els: Elifs, here: int, endL: int, i: nat, ctx: Ctx, n: Count, pc: nat)
    requires !els.NoElse? && CodeAt(p.code, pc, LowerElifs(els, here, endL, i, ctx, n).ins)
    ensures pc < |p.code| && p.code[pc] == Lbl(here)
  {
    hide LowerBlock;
    CodeAtIndex(p.code, pc, LowerElifs(els, here, endL, i, ctx, n).ins, 0);
  }

  lemma ElifParts(p: Program, els: Elifs, here: int, endL: int, i: nat, ctx: Ctx, n: Count, pc: nat)
    returns (f: int, n1: Count, nextL: int, a: Code, z: Code, mid: nat)
    requires els.Elif? && CodeAt(p.code, pc, LowerElifs(els, here, endL, i, ctx, n).ins)
    ensures Grows(n, n1) && n1.y == n.y && nextL == if els.rest.NoElse? then endL else f + 1
    ensures a == LowerBlock(els.b, ctx, n1) && z == LowerElifs(els.rest, nextL, endL, i + 1, ctx, a.next)
    ensures mid == pc + 3 + |a.ins| && mid < |p.code|
    ensures p.code[pc + 1] == CondBr(ctx.vars, els.c, f, nextL) && p.code[pc + 2] == Lbl(f)
    ensures CodeAt(p.code, pc + 3, a.ins) && p.code[mid] == Br(endL)
    ensures CodeAt(p.code, mid + 1, z.ins) && z.next == LowerElifs(els, here, endL, i, ctx, n).next
  {
    hide LowerBlock, CodeAt;
    f := if i > 0 then n.id + 1 else n.id;
    nextL := if els.rest.NoElse? then endL else f + 1;
    n1 := n.(id := if els.rest.NoElse? then f + 1 else f + 2);
    a := LowerBlock(els.b, ctx, n1);
    z := LowerElifs(els.rest, nextL, endL, i + 1, ctx, a.next);
    mid := pc + 3 + |a.ins|;
    var head, br := ElifHead(here, ctx.vars, els.c, f, nextL), [Br(endL)];
    CodeAt4(p.code, pc, head, a.ins, br, z.ins);
    CodeAtIndex(p.code, pc, head, 1);
    CodeAtIndex(p.code, pc, head, 2);
    CodeAtIndex(p.code, mid, br, 0);
  }

  // ---- loops ----

  lemma GoodLoop(p: Program, ctx: Ctx, sc: Scope, n: Count, n2: Count, top: Count, brk: int, cont: int)
    requires GoodCtx(p, ctx, sc, n, top) && Grows(n, n2) && n.id <= brk < n2.id && n.id <= cont < n2.id
    ensures GoodCtx(p, LoopCtx(ctx, brk, cont), sc.(loopOk := true), n2, top)
    ensures ctx.fin.Some? ==> ctx.fin.value.brk != Some(brk) && ctx.fin.value.cont != Some(cont)
  {
  }

  /** Code that only moves the machine, as the simulation of a run that does nothing more. */
  lemma SimQuiet(p: Program, ctx: Ctx, sc: Scope, n: Count, n2: Count, m: Mach, m1: Mach, j: nat, st: State, fuel: nat)
    requires Steps(p, m, j, [], Running(m1)) && Rel(ctx, m1, st) && m1.hs == m.hs
    requires Frame(ctx, sc, n, n2, m.store, m1.store) && Quiet(ctx, m.store, m1.store)
    ensures Sim(p, ctx, sc, n, n2, m, m1.pc, Stop(Normal, st), fuel, j, Running(m1))
  {
  }

  lemma WhileParts(p: Program, s: Stmt, ctx: Ctx, n: Count, pc: nat)
    returns (a: Code, mid: nat)
    requires s.While? && CodeAt(p.code, pc, LowerWhile(s, ctx, n).ins)
    ensures a == LowerBlock(s.body, LoopCtx(ctx, n.id + 2, n.id), n.(id := n.id + 3))
    ensures a.next == LowerWhile(s, ctx, n).next && mid == pc + 4 + |a.ins|
    ensures mid + 2 == pc + |LowerWhile(s, ctx, n).ins| && mid + 2 <= |p.code|
    ensures p.code[pc] == Br(n.id) && p.code[pc + 1] == Lbl(n.id)
    ensures p.code[pc + 2] == CondBr(ctx.vars, s.c, n.id + 1, n.id + 2) && p.code[pc + 3] == Lbl(n.id + 1)
    ensures CodeAt(p.code, pc + 4, a.ins) && p.code[mid] == Br(n.id) && p.code[mid + 1] == Lbl(n.id + 2)
  {
    hide LowerBlock, CodeAt;
    var f := n.id;
    a := LowerBlock(s.body, LoopCtx(ctx, f + 2, f), n.(id := f + 3));
    mid := pc + 4 + |a.ins|;
    var head, tail := WhileHead(ctx.vars, s.c, f), [Br(f), Lbl(f + 2)];
    CodeAt3(p.code, pc, head, a.ins, tail);
    CodeAtIndex(p.code, pc, head, 0);
    CodeAtIndex(p.code, pc, head, 1);
    CodeAtIndex(p.code, pc, head, 2);
    CodeAtIndex(p.code, pc, head, 3);
    CodeAtIndex(p.code, mid, tail, 0);
    CodeAtIndex(p.code, mid, tail, 1);
  }

  lemma WhileUnfold(w: World, s: Stmt, st: State, fuel: nat)
    requires s.While? && fuel > 0
    ensures var ev, r := s.c(st.env, st.mem), PySemantics.Exec(w, s, st, fuel);
      if ev.Exc? then r == Stop(Raised(ev.obj), Land(st, ev))
      else if ev.v == 0 then r == Stop(Normal, Land(st, ev))
      else
        var b := ExecBlock(w, s.body, Land(st, ev), fuel);
        r == if b.out.Normal? || b.out.Continued? then After(b.(out := Normal), PySemantics.Exec(w, s, b.st, fuel - 1))
             else if b.out.Broke? then b.(out := Normal) else b
  {
  }

  lemma NoFuel(w: World, s: Stmt, st: State)
    requires s.While?
    ensures PySemantics.Exec(w, s, st, 0) == Stop(OutOfFuel, st)
  {
  }

  // ---- for over an iterator ----

  lemma ForParts(p: Program, s: Stmt, ctx: Ctx, n: Count, pc: nat)
    returns (a: Code, mid: nat)
    requires s.ForIter? && CodeAt(p.code, pc, LowerFor(s, ctx, n).ins)
    ensures a == LowerBlock(s.body, LoopCtx(ctx, n.id + 6, n.id), n.(id := n.id + 8, fi := n.fi + 1))
    ensures a.next == LowerFor(s, ctx, n).next && mid == pc + 10 + |a.ins|
    ensures mid + 10 == pc + |LowerFor(s, ctx, n).ins| && mid + 10 <= |p.code|
    ensures p.code[pc] == GetIter(ctx.lay.fiBase + n.fi, ctx.vars, s.e) && p.code[pc + 1] == Br(n.id)
    ensures p.code[pc + 2] == Lbl(n.id)
    ensures CodeAt(p.code, pc + 3, [Push(n.id + 3, n.id + 1), Lbl(n.id + 1),
                                    Next(n.id + 7, ctx.lay.fiBase + n.fi), Pop])
    ensures p.code[pc + 7] == Move(Slot(ctx.vars, s.x), n.id + 7) && p.code[pc + 8] == Br(n.id + 2)
    ensures p.code[pc + 9] == Lbl(n.id + 2)
    ensures CodeAt(p.code, pc + 10, a.ins) && p.code[mid] == Br(n.id) && p.code[mid + 9] == Lbl(n.id + 6)
    ensures CodeAt(p.code, mid + 1, IterTail(n.id + 3, n.id + 4, n.id + 5, n.id + 6))
  {
    hide LowerBlock, CodeAt, ForHead, ForTail;
    var f, it := n.id, ctx.lay.fiBase + n.fi;
    a := LowerBlock(s.body, LoopCtx(ctx, f + 6, f), n.(id := f + 8, fi := n.fi + 1));
    mid := pc + 10 + |a.ins|;
    var get := [GetIter(it, ctx.vars, s.e)];
    CodeAt4(p.code, pc, get, ForHead(it, Slot(ctx.vars, s.x), f), a.ins, ForTail(f));
    CodeAtIndex(p.code, pc, get, 0);
    ForHeadParts(p, it, Slot(ctx.vars, s.x), f, pc + 1);
    ForTailParts(p, f, mid);
  }

  lemma ForHeadParts(p: Program, it: int, x: int, f: int, b: nat)
    requires CodeAt(p.code, b, ForHead(it, x, f))
    ensures b + 9 <= |p.code| && p.code[b] == Br(f) && p.code[b + 1] == Lbl(f)
    ensures CodeAt(p.code, b + 2, [Push(f + 3, f + 1), Lbl(f + 1), Next(f + 7, it), Pop])
    ensures p.code[b + 6] == Move(x, f + 7) && p.code[b + 7] == Br(f + 2) && p.code[b + 8] == Lbl(f + 2)
  {
    var u, v, y := [Br(f), Lbl(f)], [Push(f + 3, f + 1), Lbl(f + 1), Next(f + 7, it), Pop],
        [Move(x, f + 7), Br(f + 2), Lbl(f + 2)];
    assert ForHead(it, x, f) == u + (v + y);
    hide CodeAt, ForHead;
    CodeAt3(p.code, b, u, v, y);
    CodeAtIndex(p.code, b, u, 0);
    CodeAtIndex(p.code, b, u, 1);
    CodeAtIndex(p.code, b + 6, y, 0);
    CodeAtIndex(p.code, b + 6, y, 1);
    CodeAtIndex(p.code, b + 6, y, 2);
  }

  lemma ForTailParts(p: Program, f: int, b: nat)
    requires CodeAt(p.code, b, ForTail(f))
    ensures b + 10 <= |p.code| && p.code[b] == Br(f) && p.code[b + 9] == Lbl(f + 6)
    ensures CodeAt(p.code, b + 1, IterTail(f + 3, f + 4, f + 5, f + 6))
  {
    CodeAtSplit(p.code, b, [Br(f)], IterTail(f + 3, f + 4, f + 5, f + 6));
    CodeAtIndex(p.code, b, [Br(f)], 0);
    CodeAtIndex(p.code, b + 1, IterTail(f + 3, f + 4, f + 5, f + 6), 8);
  }

  lemma ForExec(w: World, s: Stmt, st: State, fuel: nat, ev: Eval)
    requires s.ForIter? && ev == EvalIter(w, s.e, st.env, st.mem)
    ensures PySemantics.Exec(w, s, st, fuel)
         == if ev.Exc? then Stop(Raised(ev.obj), Land(st, ev)) else ExecFor(w, s.x, s.body, ev.v, Land(st, ev), fuel)
  {
    hide ExecFor, EvalIter, Land;
  }

  lemma ForGrows(s: Stmt, ctx: Ctx, n: Count)
    requires s.ForIter?
    ensures Grows(n, n.(fi := n.fi + 1)) && Grows(n.(fi := n.fi + 1), LowerFor(s, ctx, n).next)
  {
    hide LowerBlock, ForHead, ForTail;
  }

  /** The field that keeps the iterator is no variable's, nor any other in use. */
  lemma ForSlot(p: Program, ctx: Ctx, sc: Scope, n: Count, top: Count)
    requires GoodCtx(p, ctx, sc, n, top) && ctx.gen && n.fi < top.fi
    ensures var it := ctx.lay.fiBase + n.fi;
      && it !in ctx.vars.Values && it != ctx.lay.state && (ctx.fin.Some? ==> it != ctx.fin.value.pending)
      && Writable(ctx, n, n.(fi := n.fi + 1), it)
  {
    hide GoodSwitch, UniqueLabels, EnvOf;
    var it := ctx.lay.fiBase + n.fi;
    forall x | x in ctx.vars ensures ctx.vars[x] != it {
      assert ctx.vars[x] >= ctx.lay.fields || ctx.vars[x] in ctx.lay.vars.Values;
    }
  }

  lemma ForUnfold(w: World, x: string, body: Block, it: int, st: State, fuel: nat)
    requires fuel > 0
    ensures var ev, r := w.next(it, st.mem), ExecFor(w, x, body, it, st, fuel);
      if ev.Exc? then r == IterEnd(w, ev, st)
      else
        var b := ExecBlock(w, body, Land(st, ev).(env := st.env[x := ev.v]), fuel);
        r == if b.out.Normal? || b.out.Continued? then After(b.(out := Normal), ExecFor(w, x, body, it, b.st, fuel - 1))
             else if b.out.Broke? then b.(out := Normal) else b
  {
    hide ExecBlock;
  }

  /** A round of a loop that ends normally is back at its head. */
  lemma BackAtHead(p: Program, ctx: Ctx, sc: Scope, n: Count, n2: Count, m: Mach, end: nat, r: Run, fuel: nat, k: nat,
                   c: Config)
    requires Sim(p, ctx, sc, n, n2, m, end, r, fuel, k, c) && r.out.Normal? && r.faithful && c.Running?
    ensures c.m.pc == end && c.m.hs == m.hs && Rel(ctx, c.m, r.st) && Frame(ctx, sc, n, n2, m.store, c.m.store)
  {
  }

  /** The iterator kept in the object survives one round. */
  lemma KeptIter(p: Program, ctx: Ctx, sc: Scope, n: Count, n2: Count, top: Count, a: map<int, int>, b: map<int, int>)
    requires GoodCtx(p, ctx, sc, n, top) && ctx.gen && Frame(ctx, sc, n.(fi := n.fi + 1), n2, a, b)
    requires n.fi < n2.fi && Grows(n, n2) && Grows(n2, top)
    ensures Get(b, ctx.lay.fiBase + n.fi) == Get(a, ctx.lay.fiBase + n.fi)
  {
    assert !Writable(ctx, n.(fi := n.fi + 1), n2, ctx.lay.fiBase + n.fi);
  }

  lemma NoFuelFor(w: World, x: string, body: Block, it: int, st: State)
    ensures ExecFor(w, x, body, it, st, 0) == Stop(OutOfFuel, st)
  {
  }

  lemma BindFacts(p: Program, ctx: Ctx, sc: Scope, n: Count, n2: Count, top: Count, store: map<int, int>, x: string,
                  v: int)
    returns (after: map<int, int>)
    requires GoodCtx(p, ctx, sc, n, top) && x in ctx.vars && n2 == n.(id := n.id + 8, fi := n.fi + 1)
    ensures after == store[n.id + 7 := v][ctx.vars[x] := v]
    ensures EnvOf(ctx.vars, after) == EnvOf(ctx.vars, store)[x := v]
    ensures Frame(ctx, sc, n.(fi := n.fi + 1), n2, store, after) && Quiet(ctx, store, after)
  {
    after := store[n.id + 7 := v][ctx.vars[x] := v];
    EnvOther(ctx.vars, store, n.id + 7, v);
    EnvSet(ctx.vars, store[n.id + 7 := v], x, v);
  }

  /** The value goes to the loop variable and control to the body. */
  lemma BindSteps(p: Program, m: Mach, m1: Mach, x: int, f: int, pc: nat, v: int)
    returns (m3: Mach)
    requires UniqueLabels(p.code) && pc + 9 < |p.code|
    requires p.code[pc + 7] == Move(x, f + 7) && p.code[pc + 8] == Br(f + 2) && p.code[pc + 9] == Lbl(f + 2)
    requires Steps(p, m, 4, [], Running(m1)) && m1.pc == pc + 7 && m1.store == m.store[f + 7 := v]
    ensures Steps(p, m, 7, [], Running(m3)) && m3 == m1.(pc := pc + 10, store := m1.store[x := v])
  {
    hide RunFor, Find;
    var m2 := m1.(pc := pc + 8, store := m1.store[x := v]);
    assert Step(p, m1) == Running(m2);
    Advance(p, m, 4, [], m1, Running(m2));
    Jump(p, m2, f + 2, pc + 9);
    m3 := m2.(pc := pc + 10);
    Silent(p, m, 5, m2, 2, Running(m3));
  }
}
