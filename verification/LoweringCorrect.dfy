/**
 The emitted code does what the statements mean: for every covered statement, every
 world, every state and every fuel. One induction over fuel and statements.
 */
module LoweringCorrect {
  import opened Common
  import opened StmtSyntax
  import opened PySemantics
  import opened Machine
  import opened Lowering
  import opened LabelDiscipline
  import opened Simulation
  import opened Covered
  import opened LoweringSteps
  import opened TrySteps

  lemma {:induction false} SimBlock(p: Program, b: Block, ctx: Ctx, sc: Scope, n: Count, top: Count, m: Mach,
                                    st: State, fuel: nat)
    returns (k: nat, c: Config)
    requires Ready(p, ctx, sc, n, top, m, st, LowerBlock(b, ctx, n))
    requires OkBlock(b, ctx.gen, ctx.void, ctx.vars.Keys, sc)
    ensures Sim(p, ctx, sc, n, LowerBlock(b, ctx, n).next, m, m.pc + |LowerBlock(b, ctx, n).ins|,
                ExecBlock(p.w, b, st, fuel), fuel, k, c)
    decreases fuel, b, 0
  {
    hide SitesOf, SitesIn, SitesOfElifs, SitesOfHandlers, PySemantics.Exec, LowerStmt, OkStmt, Step, RunFor, Find;
    hide GoodCtx, Frame, EnvOf;
    match b
    case Nil =>
      NoSteps(p, m);
      FrameSame(ctx, sc, n, n, m.store);
      k, c := 0, Running(m);
    case Cons(s, rest) =>
      var a, r := LowerStmt(s, ctx, n), PySemantics.Exec(p.w, s, st, fuel);
      var z := LowerBlock(rest, ctx, a.next);
      SitesUsedIn(s, ctx, n);
      CodeAtSplit(p.code, m.pc, a.ins, z.ins);
      k, c := SimStmt(p, s, ctx, sc, n, top, m, st, fuel);
      if r.out.Normal? {
        GoodLater(p, ctx, sc, n, a.next, top);
        var k2, c2 := 0, c;
        if r.faithful {
          k2, c2 := SimBlock(p, rest, ctx, sc, a.next, top, c.m, r.st, fuel);
          SimFrom(p, ctx, sc, a.next, z.next, n.y, c.m, m.pc + |a.ins| + |z.ins|,
                  ExecBlock(p.w, rest, r.st, fuel), fuel, k2, c2);
        }
        SimSeq(p, ctx, sc, n, a.next, z.next, m, m.pc + |a.ins|, m.pc + |a.ins| + |z.ins|,
               r, From(SitesIn(s).y, ExecBlock(p.w, rest, r.st, fuel)), fuel, k, c, k2, c2);
        k, c := k + k2, c2;
      } else {
        SimOutOfHere(p, ctx, sc, n, a.next, z.next, m, m.pc + |a.ins|, m.pc + |a.ins| + |z.ins|, r, fuel, k, c);
      }
  }

  lemma {:induction false} SimStmt(p: Program, s: Stmt, ctx: Ctx, sc: Scope, n: Count, top: Count, m: Mach, st: State,
                                   fuel: nat)
    returns (k: nat, c: Config)
    requires Ready(p, ctx, sc, n, top, m, st, LowerStmt(s, ctx, n))
    requires OkStmt(s, ctx.gen, ctx.void, ctx.vars.Keys, sc)
    ensures Sim(p, ctx, sc, n, LowerStmt(s, ctx, n).next, m, m.pc + |LowerStmt(s, ctx, n).ins|,
                PySemantics.Exec(p.w, s, st, fuel), fuel, k, c)
    ensures PySemantics.Exec(p.w, s, st, fuel).out.Normal? && PySemantics.Exec(p.w, s, st, fuel).faithful ==> c.Running?
    decreases fuel, s, 4
  {
    hide PySemantics.Exec, Step, RunFor, Find, GoodCtx, Frame, EnvOf, LowerIf, LowerWhile, LowerFor, LowerTry;
    hide LowerTryFinally, LowerYieldFrom;
    match s
    case If(_, _, _) => k, c := SimIf(p, s, ctx, sc, n, top, m, st, fuel);
    case While(_, _) => k, c := SimWhile(p, s, ctx, sc, n, top, m, st, fuel);
    case ForIter(_, _, _) => k, c := SimFor(p, s, ctx, sc, n, top, m, st, fuel);
    case Yield(_) => k, c := SimYield(p, s, ctx, sc, n, top, m, st, fuel);
    case YieldFrom(e) => k, c := SimYieldFrom(p, e, ctx, sc, n, top, m, st, fuel);
    case Return(v) =>
      if v.None? { k, c := SimReturn(p, s, ctx, sc, n, top, m, st, fuel); }
      else { k, c := SimReturnValue(p, s, ctx, sc, n, top, m, st, fuel); }
    case Break => k, c := SimExit(p, s, ctx, sc, n, top, m, st, fuel);
    case Continue => k, c := SimExit(p, s, ctx, sc, n, top, m, st, fuel);
    case Try(_, _, fin) =>
      if fin.None? { k, c := SimTry(p, s, ctx, sc, n, top, m, st, fuel); }
      else { k, c := SimTryFinally(p, s, ctx, sc, n, top, m, st, fuel); }
    case _ => k, c := SimPlain(p, s, ctx, sc, n, top, m, st, fuel);
  }

  lemma {:induction false} SimIf(p: Program, s: Stmt, ctx: Ctx, sc: Scope, n: Count, top: Count, m: Mach, st: State,
                                 fuel: nat)
    returns (k: nat, c: Config)
    requires s.If? && Ready(p, ctx, sc, n, top, m, st, LowerIf(s, ctx, n))
    requires OkStmt(s, ctx.gen, ctx.void, ctx.vars.Keys, sc)
    ensures Sim(p, ctx, sc, n, LowerIf(s, ctx, n).next, m, m.pc + |LowerIf(s, ctx, n).ins|,
                PySemantics.Exec(p.w, s, st, fuel), fuel, k, c)
    decreases fuel, s, 1
  {
    hide SitesOf, SitesIn, SitesOfElifs, SitesOfHandlers, LowerIf, LowerBlock, LowerElifs, PySemantics.Exec;
    hide ExecBlock, ExecElifs, OkStmt, OkBlock, OkElifs, Writable, Step, RunFor, Find, GoodCtx, Frame, EnvOf;
    hide CodeAt, Sim;
    IfFacts(p.w, s, ctx, sc, st, fuel);
    var n1, elseL, a, z, mid, last := IfParts(p, s, ctx, n, m.pc);
    var ev, r := s.c(st.env, st.mem), PySemantics.Exec(p.w, s, st, fuel);
    GoodLabels(p, ctx, sc, n, top);
    GoodLater(p, ctx, sc, n, n1, top);
    GoodLater(p, ctx, sc, n, a.next, top);
    if !s.els.NoElse? { ElifsFirst(p, s.els, elseL, n.id + 1, 0, ctx, a.next, mid + 1); }
    var m1 := CondSteps(p, m, ctx.vars, s.c, n.id, elseL, m.pc + 1, if s.els.NoElse? then last else mid + 1, ev);
    NoSteps(p, m);
    FrameSame(ctx, sc, n, z.next, m.store);
    FrameSame(ctx, sc, n, n1, m.store);
    if ev.Exc? {
      c := SimRaised(p, ctx, sc, n, z.next, m, m, last + 1, st, ev, fuel, 0);
      k := 1;
    } else if ev.v != 0 {
      var k1, c1 := SimBlock(p, s.thn, ctx, sc, n1, top, m1, Land(st, ev), fuel);
      k1, c1 := SimThenJump(p, ctx, sc, n1, a.next, m1, mid, n.id + 1, last, r, fuel, k1, c1);
      SimPrefix(p, ctx, sc, n, n1, a.next, z.next, m, m1, last + 1, r, fuel, fuel, 2, k1, c1);
      k, c := 2 + k1, c1;
    } else {
      var k1, c1 := SimElifs(p, s.els, elseL, n.id + 1, 0, ctx, sc, a.next, top, m1, mid + 1, last, Land(st, ev), fuel);
      SitesUsed(s.thn, ctx, n1);
      SimSkip(p, ctx, sc, n, a.next, z.next, m, m1, last + 1,
              ExecElifs(p.w, s.els, Land(st, ev), fuel), fuel, 2, k1, c1);
      k, c := 2 + k1, c1;
    }
  }

  /** From just after the label `here`, or after the end label when nothing is left. */
  lemma {:induction false} SimElifs(p: Program, els: Elifs, here: int, endL: int, i: nat, ctx: Ctx, sc: Scope,
                                    n: Count, top: Count, m: Mach, z0: nat, last: nat, st: State, fuel: nat)
    returns (k: nat, c: Config)
    requires var z := LowerElifs(els, here, endL, i, ctx, n);
      && GoodCtx(p, ctx, sc, n, top) && Grows(n, z.next) && Grows(z.next, top) && CodeAt(p.code, z0, z.ins)
      && Rel(ctx, m, st) && (!sc.inTry ==> m.hs == [])
    requires m.pc == (if els.NoElse? then last else z0) + 1
    requires last < |p.code| && p.code[last] == Lbl(endL)
    requires OkElifs(els, ctx.gen, ctx.void, ctx.vars.Keys, sc)
    ensures Sim(p, ctx, sc, n, LowerElifs(els, here, endL, i, ctx, n).next, m, last + 1,
                ExecElifs(p.w, els, st, fuel), fuel, k, c)
    decreases fuel, els, 1
  {
    hide SitesOf, SitesIn, SitesOfElifs, SitesOfHandlers, LowerBlock, Step, RunFor, Find, GoodCtx, Frame, EnvOf, CodeAt;
    match els
    case NoElse =>
      NoSteps(p, m);
      FrameSame(ctx, sc, n, n, m.store);
      k, c := 0, Running(m);
    case Else(b) =>
      var a := LowerBlock(b, ctx, n);
      CodeAtSplit(p.code, z0, [Lbl(here)], a.ins + [Br(endL)]);
      CodeAtSplit(p.code, z0 + 1, a.ins, [Br(endL)]);
      CodeAtIndex(p.code, z0 + 1 + |a.ins|, [Br(endL)], 0);
      GoodLabels(p, ctx, sc, n, top);
      k, c := SimBlock(p, b, ctx, sc, n, top, m, st, fuel);
      k, c := SimThenJump(p, ctx, sc, n, a.next, m, z0 + 1 + |a.ins|, endL, last,
                          ExecBlock(p.w, b, st, fuel), fuel, k, c);
    case Elif(_, _, _) =>
      k, c := SimElif(p, els, here, endL, i, ctx, sc, n, top, m, z0, last, st, fuel);
  }

  lemma {:induction false} SimElif(p: Program, els: Elifs, here: int, endL: int, i: nat, ctx: Ctx, sc: Scope,
                                   n: Count, top: Count, m: Mach, z0: nat, last: nat, st: State, fuel: nat)
    returns (k: nat, c: Config)
    requires els.Elif?
    requires var z := LowerElifs(els, here, endL, i, ctx, n);
      && GoodCtx(p, ctx, sc, n, top) && Grows(n, z.next) && Grows(z.next, top) && CodeAt(p.code, z0, z.ins)
      && Rel(ctx, m, st) && (!sc.inTry ==> m.hs == [])
    requires m.pc == z0 + 1 && last < |p.code| && p.code[last] == Lbl(endL)
    requires OkElifs(els, ctx.gen, ctx.void, ctx.vars.Keys, sc)
    ensures Sim(p, ctx, sc, n, LowerElifs(els, here, endL, i, ctx, n).next, m, last + 1,
                ExecElifs(p.w, els, st, fuel), fuel, k, c)
    decreases fuel, els, 0
  {
    hide SitesOf, SitesIn, SitesOfElifs, SitesOfHandlers, LowerElifs, LowerBlock, ExecElifs, ExecBlock, OkElifs;
    hide OkBlock, Writable, Step, RunFor, Find, GoodCtx, Frame, EnvOf, CodeAt, Sim;
    ElifFacts(p.w, els, ctx, sc, st, fuel);
    var f, n1, nextL, a, z, mid := ElifParts(p, els, here, endL, i, ctx, n, z0);
    var ev, r := els.c(st.env, st.mem), ExecElifs(p.w, els, st, fuel);
    GoodLabels(p, ctx, sc, n, top);
    GoodLater(p, ctx, sc, n, n1, top);
    GoodLater(p, ctx, sc, n, a.next, top);
    if !els.rest.NoElse? { ElifsFirst(p, els.rest, nextL, endL, i + 1, ctx, a.next, mid + 1); }
    var m1 := CondSteps(p, m, ctx.vars, els.c, f, nextL, z0 + 2, if els.rest.NoElse? then last else mid + 1, ev);
    NoSteps(p, m);
    FrameSame(ctx, sc, n, z.next, m.store);
    FrameSame(ctx, sc, n, n1, m.store);
    if ev.Exc? {
      c := SimRaised(p, ctx, sc, n, z.next, m, m, last + 1, st, ev, fuel, 0);
      k := 1;
    } else if ev.v != 0 {
      var k1, c1 := SimBlock(p, els.b, ctx, sc, n1, top, m1, Land(st, ev), fuel);
      k1, c1 := SimThenJump(p, ctx, sc, n1, a.next, m1, mid, endL, last, r, fuel, k1, c1);
      SimPrefix(p, ctx, sc, n, n1, a.next, z.next, m, m1, last + 1, r, fuel, fuel, 2, k1, c1);
      k, c := 2 + k1, c1;
    } else {
      var k1, c1 := SimElifs(p, els.rest, nextL, endL, i + 1, ctx, sc, a.next, top, m1, mid + 1, last,
                             Land(st, ev), fuel);
      SitesUsed(els.b, ctx, n1);
      SimSkip(p, ctx, sc, n, a.next, z.next, m, m1, last + 1,
              ExecElifs(p.w, els.rest, Land(st, ev), fuel), fuel, 2, k1, c1);
      k, c := 2 + k1, c1;
    }
  }

  lemma {:induction false} SimWhile(p: Program, s: Stmt, ctx: Ctx, sc: Scope, n: Count, top: Count, m: Mach,
                                    st: State, fuel: nat)
    returns (k: nat, c: Config)
    requires s.While? && Ready(p, ctx, sc, n, top, m, st, LowerWhile(s, ctx, n))
    requires OkStmt(s, ctx.gen, ctx.void, ctx.vars.Keys, sc)
    ensures Sim(p, ctx, sc, n, LowerWhile(s, ctx, n).next, m, m.pc + |LowerWhile(s, ctx, n).ins|,
                PySemantics.Exec(p.w, s, st, fuel), fuel, k, c)
    decreases fuel, s, 3
  {
    hide LowerWhile, LowerBlock, PySemantics.Exec, OkBlock, Step, RunFor, Find, GoodCtx, Frame, EnvOf, CodeAt, Sim;
    var a, mid := WhileParts(p, s, ctx, n, m.pc);
    GoodLabels(p, ctx, sc, n, top);
    Jump(p, m, n.id, m.pc + 1);
    var m1 := m.(pc := m.pc + 2);
    FrameSame(ctx, sc, n, n, m.store);
    k, c := SimWhileLoop(p, s, ctx, sc, n, top, m1, m.pc, st, fuel);
    SimPrefix(p, ctx, sc, n, n, a.next, a.next, m, m1, mid + 2, PySemantics.Exec(p.w, s, st, fuel),
              fuel, fuel, 2, k, c);
    k := 2 + k;
  }

  /** From just after the label of the condition. */
  lemma {:induction false} SimWhileLoop(p: Program, s: Stmt, ctx: Ctx, sc: Scope, n: Count, top: Count, m: Mach,
                                        pc: nat, st: State, fuel: nat)
    returns (k: nat, c: Config)
    requires s.While? && GoodCtx(p, ctx, sc, n, top) && Grows(LowerWhile(s, ctx, n).next, top)
    requires CodeAt(p.code, pc, LowerWhile(s, ctx, n).ins) && m.pc == pc + 2 && Rel(ctx, m, st)
    requires !sc.inTry ==> m.hs == []
    requires OkBlock(s.body, ctx.gen, ctx.void, ctx.vars.Keys, sc.(loopOk := true))
    ensures Sim(p, ctx, sc, n, LowerWhile(s, ctx, n).next, m, pc + |LowerWhile(s, ctx, n).ins|,
                PySemantics.Exec(p.w, s, st, fuel), fuel, k, c)
    decreases fuel, s, 2
  {
    hide LowerWhile, LowerBlock, PySemantics.Exec, OkBlock, Step, RunFor, Find, GoodCtx, Frame, EnvOf, CodeAt;
    var f := n.id;
    var a, mid := WhileParts(p, s, ctx, n, pc);
    GoodLabels(p, ctx, sc, n, top);
    NoSteps(p, m);
    if fuel == 0 {
      k, c := 0, Running(m);
      NoFuel(p.w, s, st);
    } else {
      WhileUnfold(p.w, s, st, fuel);
      var ev, r := s.c(st.env, st.mem), PySemantics.Exec(p.w, s, st, fuel);
      var m1 := CondSteps(p, m, ctx.vars, s.c, f + 1, f + 2, pc + 3, mid + 1, ev);
      FrameSame(ctx, sc, n, a.next, m.store);
      if ev.Exc? {
        c := SimRaised(p, ctx, sc, n, a.next, m, m, mid + 2, st, ev, fuel, 0);
        k := 1;
      } else if ev.v == 0 {
        SimQuiet(p, ctx, sc, n, a.next, m, m1, 2, Land(st, ev), fuel);
        k, c := 2, Running(m1);
      } else {
        var b := ExecBlock(p.w, s.body, Land(st, ev), fuel);
        var end := if b.out.Broke? then mid + 2 else pc + 2;
        k, c := SimWhileBody(p, s, ctx, sc, n, top, m, m1, pc, a, mid, Land(st, ev), fuel);
        if b.out.Normal? || b.out.Continued? {
          var k2, c2 := 0, c;
          if b.faithful { k2, c2 := SimWhileLoop(p, s, ctx, sc, n, top, c.m, pc, b.st, fuel - 1); }
          SimRound(p, ctx, sc, n, a.next, m, pc + 2, mid + 2, b.(out := Normal),
                   PySemantics.Exec(p.w, s, b.st, fuel - 1), fuel, k, c, k2, c2);
          k, c := k + k2, c2;
        } else if !b.out.Broke? {
          SimElsewhere(p, ctx, sc, n, a.next, m, end, mid + 2, b, fuel, k, c);
        }
      }
    }
  }

  /** The condition held: the body, as seen from outside the loop. */
  lemma {:induction false} SimWhileBody(p: Program, s: Stmt, ctx: Ctx, sc: Scope, n: Count, top: Count, m: Mach,
                                        m1: Mach, pc: nat, a: Code, mid: nat, st: State, fuel: nat)
    returns (k: nat, c: Config)
    requires s.While? && GoodCtx(p, ctx, sc, n, top) && Grows(a.next, top)
    requires a == LowerBlock(s.body, LoopCtx(ctx, n.id + 2, n.id), n.(id := n.id + 3)) && mid == pc + 4 + |a.ins|
    requires mid + 1 < |p.code| && p.code[pc + 1] == Lbl(n.id) && CodeAt(p.code, pc + 4, a.ins)
    requires p.code[mid] == Br(n.id) && p.code[mid + 1] == Lbl(n.id + 2)
    requires Steps(p, m, 2, [], Running(m1)) && m1.pc == pc + 4 && m1.hs == m.hs && m1.store == m.store
    requires Rel(ctx, m1, st) && (!sc.inTry ==> m.hs == [])
    requires OkBlock(s.body, ctx.gen, ctx.void, ctx.vars.Keys, sc.(loopOk := true))
    ensures var b := ExecBlock(p.w, s.body, st, fuel);
      var ends := b.out.Normal? || b.out.Continued? || b.out.Broke?;
      && Sim(p, ctx, sc, n, a.next, m, if b.out.Broke? then mid + 2 else pc + 2,
             if ends then b.(out := Normal) else b, fuel, k, c)
      && (ends && b.faithful ==> c.Running?) && k > 0
    decreases fuel, s, 1
  {
    hide LowerBlock, OkBlock, ExecBlock, Step, RunFor, Find, GoodCtx, Frame, EnvOf, CodeAt, Sim;
    var f, n1 := n.id, n.(id := n.id + 3);
    var b := ExecBlock(p.w, s.body, st, fuel);
    GoodLoop(p, ctx, sc, n, n1, top, f + 2, f);
    GoodLabels(p, ctx, sc, n, top);
    k, c := SimBlock(p, s.body, LoopCtx(ctx, f + 2, f), sc.(loopOk := true), n1, top, m1, st, fuel);
    k, c := SimLoopBody(p, ctx, sc, n1, a.next, m1, mid, pc + 2, mid + 2, f + 2, f, b, fuel, k, c);
    var r := if b.out.Normal? || b.out.Continued? || b.out.Broke? then b.(out := Normal) else b;
    FrameSame(ctx, sc, n, n1, m.store);
    SimPrefix(p, ctx, sc, n, n1, a.next, a.next, m, m1, if b.out.Broke? then mid + 2 else pc + 2, r,
              fuel, fuel, 2, k, c);
    k := 2 + k;
  }

  lemma {:induction false} SimFor(p: Program, s: Stmt, ctx: Ctx, sc: Scope, n: Count, top: Count, m: Mach, st: State,
                                  fuel: nat)
    returns (k: nat, c: Config)
    requires s.ForIter? && Ready(p, ctx, sc, n, top, m, st, LowerFor(s, ctx, n))
    requires OkStmt(s, ctx.gen, ctx.void, ctx.vars.Keys, sc)
    ensures Sim(p, ctx, sc, n, LowerFor(s, ctx, n).next, m, m.pc + |LowerFor(s, ctx, n).ins|,
                PySemantics.Exec(p.w, s, st, fuel), fuel, k, c)
    decreases fuel, s, 3
  {
    hide LowerFor, LowerBlock, PySemantics.Exec, ExecFor, OkBlock, Step, RunFor, Find, EvalIter, GoodCtx, Frame;
    hide EnvOf, CodeAt, Sim;
    var a, mid := ForParts(p, s, ctx, n, m.pc);
    var it, n1, r := ctx.lay.fiBase + n.fi, n.(fi := n.fi + 1), PySemantics.Exec(p.w, s, st, fuel);
    var ev := EvalIter(p.w, s.e, st.env, st.mem);
    ForExec(p.w, s, st, fuel, ev);
    ForGrows(s, ctx, n);
    ForSlot(p, ctx, sc, n, top);
    GoodLabels(p, ctx, sc, n, top);
    var m1 := GetIterStep(p, m, it, ctx.vars, s.e, ev, st);
    if ev.Exc? {
      NoSteps(p, m);
      FrameSame(ctx, sc, n, a.next, m.store);
      c := SimRaised(p, ctx, sc, n, a.next, m, m, mid + 10, st, ev, fuel, 0);
      k := 1;
    } else {
      WriteSlot(ctx, sc, n, n1, m.store, it, ev.v);
      Jump(p, m1, n.id, m.pc + 2);
      var m2 := m1.(pc := m.pc + 3);
      Silent(p, m, 1, m1, 2, Running(m2));
      k, c := SimForLoop(p, s, ctx, sc, n, top, m2, m.pc, Land(st, ev), fuel);
      SimPrefix(p, ctx, sc, n, n1, a.next, a.next, m, m2, mid + 10, r, fuel, fuel, 3, k, c);
      k := 3 + k;
    }
  }

  /** From just after the head label; the iterator is in its field. */
  lemma {:induction false} SimForLoop(p: Program, s: Stmt, ctx: Ctx, sc: Scope, n: Count, top: Count, m: Mach,
                                      pc: nat, st: State, fuel: nat)
    returns (k: nat, c: Config)
    requires s.ForIter? && GoodCtx(p, ctx, sc, n, top) && ctx.gen && Grows(LowerFor(s, ctx, n).next, top)
    requires CodeAt(p.code, pc, LowerFor(s, ctx, n).ins) && m.pc == pc + 3 && Rel(ctx, m, st)
    requires !sc.inTry ==> m.hs == []
    requires s.x in ctx.vars && OkBlock(s.body, ctx.gen, ctx.void, ctx.vars.Keys, sc.(loopOk := true))
    ensures Sim(p, ctx, sc, n.(fi := n.fi + 1), LowerFor(s, ctx, n).next, m, pc + |LowerFor(s, ctx, n).ins|,
                ExecFor(p.w, s.x, s.body, Get(m.store, ctx.lay.fiBase + n.fi), st, fuel), fuel, k, c)
    decreases fuel, s, 2
  {
    hide LowerFor, LowerBlock, ExecFor, ExecBlock, OkBlock, Step, RunFor, Find, GoodCtx, Frame, EnvOf, CodeAt, Sim;
    var f, n1 := n.id, n.(fi := n.fi + 1);
    var a, mid := ForParts(p, s, ctx, n, pc);
    var it := Get(m.store, ctx.lay.fiBase + n.fi);
    GoodLabels(p, ctx, sc, n, top);
    NoSteps(p, m);
    if fuel == 0 {
      k, c := 0, Running(m);
      NoFuelFor(p.w, s.x, s.body, it, st);
      SimCutShort(p, ctx, sc, n1, a.next, m, mid + 10, Stop(OutOfFuel, st), 0, 0, c);
    } else {
      ForUnfold(p.w, s.x, s.body, it, st, fuel);
      var ev := p.w.next(it, st.mem);
      var m1 := NextSteps(p, m, pc + 3, f + 3, f + 1, f + 7, ctx.lay.fiBase + n.fi);
      if ev.Exc? {
        k, c := SimIterEnd(p, ctx, sc, n1, a.next, m, m1, 3, mid + 1, f + 3, f + 4, f + 5, f + 6, ev, st, fuel);
      } else {
        var st1 := Land(st, ev).(env := st.env[s.x := ev.v]);
        var b := ExecBlock(p.w, s.body, st1, fuel);
        var end := if b.out.Broke? then mid + 10 else pc + 3;
        k, c := SimForBody(p, s, ctx, sc, n, top, m, m1, pc, a, mid, ev.v, Land(st, ev), fuel);
        if b.out.Normal? || b.out.Continued? {
          var k2, c2 := 0, c;
          if b.faithful {
            BackAtHead(p, ctx, sc, n1, a.next, m, pc + 3, b.(out := Normal), fuel, k, c);
            KeptIter(p, ctx, sc, n, a.next, top, m.store, c.m.store);
            k2, c2 := SimForLoop(p, s, ctx, sc, n, top, c.m, pc, b.st, fuel - 1);
          }
          SimRound(p, ctx, sc, n1, a.next, m, pc + 3, mid + 10, b.(out := Normal),
                   ExecFor(p.w, s.x, s.body, it, b.st, fuel - 1), fuel, k, c, k2, c2);
          k, c := k + k2, c2;
        } else if !b.out.Broke? {
          SimElsewhere(p, ctx, sc, n1, a.next, m, end, mid + 10, b, fuel, k, c);
        }
      }
    }
  }

  lemma {:induction false} SimForBody(p: Program, s: Stmt, ctx: Ctx, sc: Scope, n: Count, top: Count, m: Mach,
                                      m1: Mach, pc: nat, a: Code, mid: nat, v: int, st: State, fuel: nat)
    returns (k: nat, c: Config)
    requires s.ForIter? && GoodCtx(p, ctx, sc, n, top) && Grows(a.next, top)
    requires a == LowerBlock(s.body, LoopCtx(ctx, n.id + 6, n.id), n.(id := n.id + 8, fi := n.fi + 1))
    requires mid == pc + 10 + |a.ins|
    requires mid + 9 < |p.code| && p.code[pc + 2] == Lbl(n.id) && CodeAt(p.code, pc + 10, a.ins)
    requires p.code[pc + 7] == Move(Slot(ctx.vars, s.x), n.id + 7) && p.code[pc + 8] == Br(n.id + 2)
    requires p.code[pc + 9] == Lbl(n.id + 2)
    requires p.code[mid] == Br(n.id) && p.code[mid + 9] == Lbl(n.id + 6)
    requires Steps(p, m, 4, [], Running(m1)) && m1.pc == pc + 7 && m1.hs == m.hs && m1.store == m.store[n.id + 7 := v]
    requires EnvOf(ctx.vars, m.store) == st.env && (m1.mem, m1.inflight, m1.calls) == (st.mem, st.inflight, st.calls)
    requires !sc.inTry ==> m.hs == []
    requires s.x in ctx.vars && OkBlock(s.body, ctx.gen, ctx.void, ctx.vars.Keys, sc.(loopOk := true))
    ensures var b := ExecBlock(p.w, s.body, st.(env := st.env[s.x := v]), fuel);
      var ends := b.out.Normal? || b.out.Continued? || b.out.Broke?;
      && Sim(p, ctx, sc, n.(fi := n.fi + 1), a.next, m, if b.out.Broke? then mid + 10 else pc + 3,
             if ends then b.(out := Normal) else b, fuel, k, c)
      && (ends && b.faithful ==> c.Running?) && k > 0
    decreases fuel, s, 1
  {
    hide LowerBlock, OkBlock, ExecBlock, Step, RunFor, Find, GoodCtx, Frame, EnvOf, CodeAt, Sim;
    var f, n1, n2 := n.id, n.(fi := n.fi + 1), n.(id := n.id + 8, fi := n.fi + 1);
    var st1 := st.(env := st.env[s.x := v]);
    var b := ExecBlock(p.w, s.body, st1, fuel);
    GoodLoop(p, ctx, sc, n, n2, top, f + 6, f);
    GoodLabels(p, ctx, sc, n, top);
    var after := BindFacts(p, ctx, sc, n, n2, top, m.store, s.x, v);
    var m3 := BindSteps(p, m, m1, ctx.vars[s.x], f, pc, v);
    k, c := SimBlock(p, s.body, LoopCtx(ctx, f + 6, f), sc.(loopOk := true), n2, top, m3, st1, fuel);
    k, c := SimLoopBody(p, ctx, sc, n2, a.next, m3, mid, pc + 3, mid + 10, f + 6, f, b, fuel, k, c);
    var r := if b.out.Normal? || b.out.Continued? || b.out.Broke? then b.(out := Normal) else b;
    SimPrefix(p, ctx, sc, n1, n2, a.next, a.next, m, m3, if b.out.Broke? then mid + 10 else pc + 3, r,
              fuel, fuel, 7, k, c);
    k := 7 + k;
  }

  /** The clauses of a try, entered with `obj` in flight: either one takes it, or
      control falls off the end of their code with nothing changed. */
  lemma {:induction false} SimHandlers(p: Program, hs: Handlers, after: int, i: nat, ctx: Ctx, sc: Scope, n: Count,
                                       top: Count, m: Mach, st: State, fuel: nat)
    returns (k: nat, c: Config)
    requires Ready(p, ctx, sc, n, top, m, st, LowerHandlers(hs, after, ctx, n))
    requires i < |p.code| && p.code[i] == Lbl(after)
    requires OkHandlers(hs, ctx.gen, ctx.void, ctx.vars.Keys, sc)
    ensures var L := LowerHandlers(hs, after, ctx, n);
      if AnyMatch(p.w, hs, st.inflight) then
        Sim(p, ctx, sc, n, L.next, m, i + 1, ExecHandlers(p.w, hs, st.inflight, st, fuel), fuel, k, c)
      else
        && Steps(p, m, k, [], Running(m.(pc := m.pc + |L.ins|)))
        && ExecHandlers(p.w, hs, st.inflight, st, fuel) == Stop(Raised(st.inflight), st)
    decreases fuel, hs, 1
  {
    hide SitesOf, SitesIn, SitesOfElifs, SitesOfHandlers, LowerBlock, LowerHandlers, ExecHandlers, Step, RunFor;
    hide Find, GoodCtx, Frame, EnvOf, CodeAt, Sim, OkBlock, ExecBlock;
    c := Running(m);
    if hs.NoHandler? {
      NoHandlers(p.w, after, ctx, n, st, fuel);
      NoSteps(p, m);
      k := 0;
    } else {
      var a, z, body, mid := HandlerParts(p, hs, after, ctx, n, m.pc);
      var f, obj := n.id, st.inflight;
      GoodLabels(p, ctx, sc, n, top);
      if Matches(p.w, hs.pat, obj) {
        k, c := SimHandler(p, hs, after, i, ctx, sc, n, top, m, a, z, body, mid, st, fuel);
      } else {
        var m1 := m.(pc := mid + 2);
        HandlerSkip(p, m, hs.pat, f, m.pc, mid + 1);
        GoodLater(p, ctx, sc, n, a.next, top);
        HandlersRest(p.w, hs, obj, st, fuel);
        k, c := SimHandlers(p, hs.rest, after, i, ctx, sc, a.next, top, m1, st, fuel);
        if AnyMatch(p.w, hs.rest, obj) {
          SitesUsed(hs.body, HandlerCtx(ctx, hs.pat, f + 2), n.(id := f + 3));
          SimSkip(p, ctx, sc, n, a.next, z.next, m, m1, i + 1,
                  ExecHandlers(p.w, hs.rest, obj, st, fuel), fuel, 2, k, c);
        } else {
          Silent(p, m, 2, m1, k, Running(m1.(pc := mid + 2 + |z.ins|)));
        }
        k := 2 + k;
      }
    }
  }

  lemma {:induction false} SimHandler(p: Program, hs: Handlers, after: int, i: nat, ctx: Ctx, sc: Scope, n: Count,
                                      top: Count, m: Mach, a: Code, z: Code, body: nat, mid: nat, st: State,
                                      fuel: nat)
    returns (k: nat, c: Config)
    requires hs.Handler? && Matches(p.w, hs.pat, st.inflight) && (!sc.inTry ==> m.hs == [])
    requires GoodCtx(p, ctx, sc, n, top) && Rel(ctx, m, st) && Grows(z.next, top) && Grows(a.next, z.next)
    requires i < |p.code| && p.code[i] == Lbl(after)
    requires OkBlock(hs.body, ctx.gen, ctx.void, ctx.vars.Keys + Bound(hs.pat), ClauseScope(sc, hs.pat))
    requires a == LowerBlock(hs.body, HandlerCtx(ctx, hs.pat, n.id + 2), n.(id := n.id + 3))
    requires body == m.pc + 3 + Binds(hs.pat) && mid == body + |a.ins| && mid < |p.code|
    requires p.code[m.pc] == IfExc(hs.pat, n.id, n.id + 1) && p.code[m.pc + 1] == Lbl(n.id)
    requires hs.pat.TypedAs? ==> p.code[m.pc + 2] == BindExc(n.id + 2)
    requires p.code[body - 1] == Clear && CodeAt(p.code, body, a.ins) && p.code[mid] == Br(after)
    ensures Sim(p, ctx, sc, n, z.next, m, i + 1, ExecHandlers(p.w, hs, st.inflight, st, fuel), fuel, k, c)
    decreases fuel, hs, 0
  {
    hide SitesOf, SitesIn, SitesOfElifs, SitesOfHandlers, LowerBlock, Step, RunFor, Find, GoodCtx, Frame, EnvOf;
    hide CodeAt, Sim, OkBlock, ExecBlock, Writable;
    var f, obj, n1, inner := n.id, st.inflight, n.(id := n.id + 3), HandlerCtx(ctx, hs.pat, n.id + 2);
    GoodLabels(p, ctx, sc, n, top);
    var j, m1 := HandlerEnter(p, m, hs.pat, f, m.pc);
    GoodHandler(p, ctx, sc, n, top, hs.pat);
    var stored := BindEnv(p, ctx, sc, n, top, hs.pat, m.store, obj);
    var st1 := st.(env := Bind(hs.pat, st.env, obj), inflight := 0);
    var r := ExecBlock(p.w, hs.body, st1, fuel);
    k, c := SimBlock(p, hs.body, inner, ClauseScope(sc, hs.pat), n1, top, m1, st1, fuel);
    k, c := SimThenJump(p, inner, ClauseScope(sc, hs.pat), n1, a.next, m1, mid, after, i, r, fuel, k, c);
    SimClause(p, ctx, sc, n, a.next, z.next, top, m, m1, hs.pat, obj, i + 1, r, st.env, fuel, j, k, c);
    k := j + k;
  }

  lemma {:induction false} SimTry(p: Program, s: Stmt, ctx: Ctx, sc: Scope, n: Count, top: Count, m: Mach, st: State,
                                  fuel: nat)
    returns (k: nat, c: Config)
    requires s.Try? && s.fin.None? && Ready(p, ctx, sc, n, top, m, st, LowerTry(s, ctx, n))
    requires OkStmt(s, ctx.gen, ctx.void, ctx.vars.Keys, sc)
    ensures Sim(p, ctx, sc, n, LowerTry(s, ctx, n).next, m, m.pc + |LowerTry(s, ctx, n).ins|,
                PySemantics.Exec(p.w, s, st, fuel), fuel, k, c)
    decreases fuel, s, 3
  {
    hide SitesOf, SitesIn, SitesOfElifs, SitesOfHandlers, LowerTry, LowerBlock, LowerHandlers, ExecBlock;
    hide ExecHandlers, OkBlock, OkHandlers, Step, RunFor, Find, GoodCtx, Frame, EnvOf, CodeAt;
    var a, z, q, u := TryParts(p, s, ctx, n, m.pc);
    var n1 := n.(id := n.id + 3);
    GoodLabels(p, ctx, sc, n, top);
    GoodBody(p, ctx, sc, n, n1, top);
    var m1 := EnterTry(p, m, n.id + 1, n.id, m.pc);
    var r := ExecBlock(p.w, s.body, st, fuel);
    ConfinedBlock(p.w, s.body, ctx.gen, ctx.void, ctx.vars.Keys, BodyScope(sc, ctx.gen), st, fuel);
    NoSiteInBody(p.w, s.body, ctx, BodyScope(sc, ctx.gen), n1, st, fuel);
    k, c := SimBlock(p, s.body, ctx, BodyScope(sc, ctx.gen), n1, top, m1, st, fuel);
    if r.out.OutOfFuel? {
      SimOutOfFuel(p, ctx, ctx, sc, BodyScope(sc, ctx.gen), n, z.next, n1, a.next, m, m1, u + 2, q, r, fuel, 2, k, c);
      k := 2 + k;
    } else if !r.faithful || Taken(p.w, s.handlers, r.out) {
      UnfaithfulBody(p.w, s, st, fuel);
      Unfaithful(p, ctx, sc, n, z.next, m, u + 2, PySemantics.Exec(p.w, s, st, fuel), fuel, k, c);
    } else {
      StepsTrans(p, m, 2, [], m1, k, r.trace, c);
      assert [] + r.trace == r.trace;
      FrameNarrow(ctx, sc, BodyScope(sc, ctx.gen), n1, a.next, m.store, c.m.store);
      FrameWiden(ctx, sc, n, n1, a.next, a.next, m.store, c.m.store);
      FrameWiden(ctx, sc, n, n1, a.next, z.next, m.store, c.m.store);
      k, c := SimTryRest(p, s, ctx, sc, n, top, m, c.m, a, z, q, u, r, fuel, 2 + k);
    }
  }

  /** The body of a try has ended in `mb`, its handler still pushed. */
  lemma {:induction false} SimTryRest(p: Program, s: Stmt, ctx: Ctx, sc: Scope, n: Count, top: Count, m: Mach, mb: Mach,
                                      a: Code, z: Code, q: nat, u: nat, r: Run, fuel: nat, j: nat)
    returns (k: nat, c: Config)
    requires s.Try? && GoodCtx(p, ctx, sc, n, top) && Grows(n, a.next) && Grows(a.next, z.next) && Grows(z.next, top)
    requires z == LowerHandlers(s.handlers, n.id + 2, ctx, a.next) && u == q + 4 + |z.ins| && u + 1 < |p.code|
    requires p.code[q] == Pop && p.code[q + 1] == Br(n.id + 2) && p.code[q + 2] == Lbl(n.id + 1) && p.code[q + 3] == Pop
    requires CodeAt(p.code, q + 4, z.ins) && p.code[u] == Rethrow && p.code[u + 1] == Lbl(n.id + 2)
    requires OkHandlers(s.handlers, ctx.gen, ctx.void, ctx.vars.Keys, sc) && a.next.y == n.y && r.site <= 0
    requires r.faithful && (r.out.Normal? || Throws(ctx.gen, r.out)) && Steps(p, m, j, r.trace, Running(mb))
    requires !Taken(p.w, s.handlers, r.out)
    requires mb.hs == [n.id + 1] + m.hs && Rel(ctx, mb, r.st) && Landed(p, ctx, mb.hs, q, r.out, mb)
    requires Frame(ctx, sc, n, a.next, m.store, mb.store) && Marked(ctx, r.site, m.store, mb.store)
    requires Frame(ctx, sc, n, z.next, m.store, mb.store)
    requires !sc.inTry ==> m.hs == []
    ensures Sim(p, ctx, sc, n, z.next, m, u + 2,
                if r.out.Raised? then After(r, ExecHandlers(p.w, s.handlers, r.out.obj, r.st, fuel)) else r, fuel, k, c)
    decreases fuel, s, 0
  {
    hide SitesOf, SitesIn, SitesOfElifs, SitesOfHandlers, LowerBlock, LowerHandlers, ExecHandlers, OkHandlers, Step;
    hide RunFor, Find, GoodCtx, Frame, EnvOf, CodeAt, Sim, Writable;
    GoodLabels(p, ctx, sc, n, top);
    GoodLater(p, ctx, sc, n, a.next, top);
    if r.out.Normal? {
      var m2 := mb.(pc := u + 2, hs := m.hs);
      LeaveTry(p, mb, n.id + 1, m.hs, q, n.id + 2, u + 1);
      StepsTrans(p, m, j, r.trace, mb, 3, [], Running(m2));
      assert r.trace + [] == r.trace;
      SimEnds(p, ctx, sc, n, z.next, m, m2, r, fuel, j + 3);
      k, c := j + 3, Running(m2);
    } else {
      var m2 := mb.(pc := q + 4, hs := m.hs);
      LandTry(p, mb, n.id + 1, m.hs, q + 2);
      StepsTrans(p, m, j, r.trace, mb, 2, [], Running(m2));
      assert r.trace + [] == r.trace;
      k, c := SimHandlers(p, s.handlers, n.id + 2, u + 1, ctx, sc, a.next, top, m2, r.st, fuel);
      if r.out.Raised? && AnyMatch(p.w, s.handlers, r.st.inflight) {
        SimJoin(p, ctx, sc, sc, n, a.next, z.next, m, m2, u + 2, r,
                ExecHandlers(p.w, s.handlers, r.out.obj, r.st, fuel), fuel, j + 2, k, c);
        k := j + 2 + k;
      } else {
        var mu := m2.(pc := u);
        c := SimRethrow(p, ctx, sc, z.next.(y := n.y), m2, mu, u + 2, r.st, fuel, k);
        FrameY(ctx, sc, n, z.next, n.y, m.store, mb.store);
        var on := Stop(Raised(Thrown(r.out)), r.st);
        SimWidenY(p, ctx, sc, z.next.(y := n.y), z.next, m2, u + 2, on, fuel, k + 1, c);
        SimJoin(p, ctx, sc, sc, n, z.next.(y := n.y), z.next, m, m2, u + 2, r, on, fuel, j + 2, k + 1, c);
        k := j + 2 + (k + 1);
        assert r.trace + [] == r.trace;
        if ctx.gen && r.out.Returned? { SimReturned(p, ctx, sc, n, z.next, m, u + 2, r, fuel, k, c); }
      }
    }
  }

  lemma {:induction false} SimCatch(p: Program, s: Stmt, ctx: Ctx, sc: Scope, isc: Scope, n: Count, top: Count,
                                    m1: Mach, hs: seq<int>, pc: nat, a: Code, h: Code, q: nat, u: nat, v: nat,
                                    st: State, fuel: nat)
    returns (k: nat, m2: Mach)
    requires s.Try? && s.fin.Some? && GoodCtx(p, ctx, sc, n, top) && Rel(ctx, m1, st)
    requires Guarded(ctx, isc) && OkBlock(s.body, ctx.gen, ctx.void, ctx.vars.Keys, isc)
    requires OkHandlers(s.handlers, ctx.gen, ctx.void, ctx.vars.Keys, isc)
    requires a == LowerBlock(s.body, Inner(ctx, n.id), n.(id := n.id + 11))
    requires h == LowerHandlers(s.handlers, n.id + 5, Inner(ctx, n.id), a.next) && Grows(h.next, top)
    requires FinallyAt(p, ctx, n.id, pc, q, u, v) && q == pc + 9 + |a.ins| && u == q + 3 + |h.ins|
    requires CodeAt(p.code, pc + 9, a.ins) && CodeAt(p.code, q + 3, h.ins)
    requires m1.pc == pc + 9 && m1.hs == [n.id + 3] + hs
    requires Get(m1.store, n.id + 8) == FALLTHROUGH && Get(m1.store, n.id + 9) == 0
    requires ExecCatch(p.w, s, st, fuel).faithful
    ensures var r := ExecCatch(p.w, s, st, fuel);
      && Steps(p, m1, k, r.trace, Running(m2))
      && if r.out.OutOfFuel? then k >= fuel else
         && AtEntry(p, ctx, n.id, hs, u, AsRaise(ctx.gen, r.out), m2, r.st)
         && Frame(ctx, sc.(inTry := true), n, h.next, m1.store, m2.store) && Marked(ctx, r.site, m1.store, m2.store)
    decreases fuel, s, 2
  {
    hide SitesOf, SitesIn, SitesOfElifs, SitesOfHandlers, LowerBlock, LowerHandlers, ExecBlock, ExecHandlers;
    hide OkBlock, OkHandlers, Step, RunFor, Find, GoodCtx, Frame, EnvOf, CodeAt;
    var f, inner, n1 := n.id, Inner(ctx, n.id), n.(id := n.id + 11);
    GoodLabels(p, ctx, sc, n, top);
    GoodInner(p, ctx, sc, isc, n, n1, top);
    var r := ExecBlock(p.w, s.body, st, fuel);
    NoSiteCaught(p.w, s, ctx, isc, st, fuel);
    NoSiteInBody(p.w, s.body, inner, isc, n1, st, fuel);
    var c;
    k, c := SimBlock(p, s.body, inner, isc, n1, top, m1, st, fuel);
    m2 := c.m;
    if !r.out.OutOfFuel? {
      InnerFrame(p, ctx, sc, isc, n, n1, a.next, top, r.site, m1.store, c.m.store);
      if Throws(ctx.gen, r.out) {
        var k2, obj := 0, Thrown(r.out);
        if r.out.Returned? { NoneTakes(p.w, s.handlers, obj, r.st, fuel); }
        k2, m2 := SimCatchRest(p, s, ctx, sc, isc, n, top, m1.store, c.m, hs, pc, a, h, q, u, v, obj,
                               r.site, r.st, fuel);
        StepsTrans(p, m1, k, r.trace, c.m, k2, ExecHandlers(p.w, s.handlers, obj, r.st, fuel).trace, Running(m2));
        assert r.trace + [] == r.trace;
        k := k + k2;
      } else {
        var k2 := ToEntry(p, ctx, f, hs, q, u, q, r.out, c.m, r.st);
        m2 := c.m.(pc := u + 3);
        StepsTrans(p, m1, k, r.trace, c.m, k2, [], Running(m2));
        assert r.trace + [] == r.trace;
        FrameWiden(ctx, sc.(inTry := true), n, n, a.next, h.next, m1.store, m2.store);
        k := k + k2;
      }
    }
  }

  /** The body raised: the clauses, up to the entry of the finally. */
  lemma {:induction false} SimCatchRest(p: Program, s: Stmt, ctx: Ctx, sc: Scope, isc: Scope, n: Count, top: Count,
                                        store: map<int, int>, mb: Mach, hs: seq<int>, pc: nat, a: Code, h: Code,
                                        q: nat, u: nat, v: nat, obj: int, site: int, st: State, fuel: nat)
    returns (k: nat, m2: Mach)
    requires s.Try? && GoodCtx(p, ctx, sc, n, top) && Rel(ctx, mb, st) && mb.inflight == obj && site <= 0
    requires Guarded(ctx, isc) && OkHandlers(s.handlers, ctx.gen, ctx.void, ctx.vars.Keys, isc)
    requires Grows(n.(id := n.id + 11), a.next) && Grows(a.next, h.next) && Grows(h.next, top)
    requires h == LowerHandlers(s.handlers, n.id + 5, Inner(ctx, n.id), a.next)
    requires FinallyAt(p, ctx, n.id, pc, q, u, v) && u == q + 3 + |h.ins| && CodeAt(p.code, q + 3, h.ins)
    requires mb.pc == Find(p.code, n.id + 3) && mb.hs == [n.id + 3] + hs
    requires Get(mb.store, n.id + 8) == FALLTHROUGH && Get(mb.store, n.id + 9) == 0
    requires Frame(ctx, sc.(inTry := true), n, a.next, store, mb.store) && Marked(ctx, site, store, mb.store)
    requires ExecHandlers(p.w, s.handlers, obj, st, fuel).faithful
    ensures var r := ExecHandlers(p.w, s.handlers, obj, st, fuel);
      && Steps(p, mb, k, r.trace, Running(m2))
      && if r.out.OutOfFuel? then k >= fuel else
         && AtEntry(p, ctx, n.id, hs, u, AsRaise(ctx.gen, r.out), m2, r.st)
         && Frame(ctx, sc.(inTry := true), n, h.next, store, m2.store)
         && Marked(ctx, if r.site != 0 then r.site else site, store, m2.store)
    decreases fuel, s, 1
  {
    hide SitesOf, SitesIn, SitesOfElifs, SitesOfHandlers, LowerHandlers, ExecHandlers, OkHandlers, Step, RunFor;
    hide Find, GoodCtx, Frame, EnvOf, CodeAt, Writable, Confined, AtEntry;
    var f, inner, scT := n.id, Inner(ctx, n.id), sc.(inTry := true);
    GoodLabels(p, ctx, sc, n, top);
    GoodInner(p, ctx, sc, isc, n, a.next, top);
    EnterAt(p, f, u);
    var r := ExecHandlers(p.w, s.handlers, obj, st, fuel);
    NoSitesHandlers(s.handlers, ctx.gen, ctx.void, ctx.vars.Keys, isc);
    SiteInHandlers(p.w, s.handlers, obj, st, fuel);
    var mh := BodyThrew(p, mb, f, pc, q);
    OwnSlot(p, ctx, sc, n, a.next, top, mb.store, f + 9, 1);
    FrameJoin(ctx, scT, n, a.next, store, mb.store, mh.store);
    var k2, c := SimHandlers(p, s.handlers, f + 5, u + 2, inner, isc, a.next, top, mh, st, fuel);
    if AnyMatch(p.w, s.handlers, obj) {
      StepsTrans(p, mb, 4, [], mh, k2, r.trace, c);
      assert [] + r.trace == r.trace;
      k, m2 := 4 + k2, c.m;
      if !r.out.OutOfFuel? {
        InnerFrame(p, ctx, sc, isc, n, a.next, h.next, top, r.site, mh.store, c.m.store);
        FrameTrans2(ctx, scT, n, a.next, h.next, store, mh.store, c.m.store);
        var k3;
        k3, m2 := FromClause(p, ctx, sc, isc, n, h.next, top, store, c.m, hs, pc, q, u,
                             if r.site != 0 then r.site else site, r.out, r.st);
        StepsTrans(p, mb, k, r.trace, c.m, k3, [], Running(m2));
        assert r.trace + [] == r.trace;
        k := k + k3;
      }
    } else {
      m2 := SimMissed(p, ctx, sc, n, a.next, h.next, top, store, mb, mh, hs, u, k2, site, st);
      k := 4 + k2 + 3;
    }
  }

  /** No clause took it: past the clauses, into the finally. */
  lemma SimMissed(p: Program, ctx: Ctx, sc: Scope, n: Count, n1: Count, n2: Count, top: Count, store: map<int, int>,
                  mb: Mach, mh: Mach, hs: seq<int>, u: nat, k: nat, site: int, st: State)
    returns (m2: Mach)
    requires GoodCtx(p, ctx, sc, n, top) && Grows(n.(id := n.id + 11), n1) && Grows(n1, n2)
    requires UniqueLabels(p.code) && CodeAt(p.code, u, FinallyEnter(n.id))
    requires Steps(p, mb, 4, [], Running(mh)) && Steps(p, mh, k, [], Running(mh.(pc := u)))
    requires mh.hs == [n.id + 3] + hs && Rel(ctx, mh, st)
    requires Frame(ctx, sc.(inTry := true), n, n1, store, mh.store) && Marked(ctx, site, store, mh.store)
    ensures Steps(p, mb, 4 + k + 3, [], Running(m2)) && AtEntry(p, ctx, n.id, hs, u, Raised(st.inflight), m2, st)
    ensures Frame(ctx, sc.(inTry := true), n, n2, store, m2.store) && Marked(ctx, site, store, m2.store)
  {
    hide FinallyEnter, Step, RunFor, Find, GoodCtx, Frame, EnvOf, CodeAt, Writable, AtEntry, UniqueLabels;
    FrameWiden(ctx, sc.(inTry := true), n, n, n1, n2, store, mh.store);
    m2 := NoClause(p, ctx, sc, n, n2, top, store, mh.(pc := u), hs, u, site, st);
    Silent(p, mb, 4, mh, k, Running(mh.(pc := u)));
    Silent(p, mb, 4 + k, mh.(pc := u), 3, Running(m2));
  }

  /** From the entry of the finally to the end of the try. */
  lemma {:induction false} SimFinish(p: Program, s: Stmt, ctx: Ctx, sc: Scope, n: Count, top: Count, m: Mach, m2: Mach,
                                     h: Code, z: Code, u: nat, v: nat, r: Run, fuel: nat, j: nat)
    returns (k: nat, c: Config)
    requires s.Try? && s.fin.Some? && GoodCtx(p, ctx, sc, n, top)
    requires OkBlock(s.fin.value, ctx.gen, ctx.void, ctx.vars.Keys, Scope(false, false, true, sc.inFin))
    requires z == LowerBlock(s.fin.value, ctx, h.next)
    requires Grows(n.(id := n.id + 11), h.next) && Grows(h.next, z.next) && Grows(z.next, top)
    requires CodeAt(p.code, u, FinallyEnter(n.id)) && CodeAt(p.code, u + 4, z.ins)
    requires CodeAt(p.code, v, FinallyTail(ctx, n.id))
    requires v == u + 4 + |z.ins|
    requires r.faithful && Steps(p, m, j, r.trace, Running(m2))
    requires AtEntry(p, ctx, n.id, m.hs, u, AsRaise(ctx.gen, r.out), m2, r.st)
    requires Frame(ctx, sc.(inTry := true), n, h.next, m.store, m2.store) && Marked(ctx, r.site, m.store, m2.store)
    requires Confined(r.out, FinallyScope(sc, ctx.gen), ctx.void) && r.site <= 0 && h.next.y == n.y
    ensures Sim(p, ctx, sc, n, z.next, m, v + 6, ExecFinally(p.w, r, 0, s.fin.value, fuel), fuel, k, c)
    decreases fuel, s, 2
  {
    hide LowerBlock, ExecBlock, OkBlock, Step, RunFor, Find, GoodCtx, Frame, EnvOf, CodeAt, Writable, Sim, AtEntry;
    hide ExecFinally, Marked;
    GoodShape(p, ctx, sc, n, top);
    var r2 := r.(out := AsRaise(ctx.gen, r.out));
    k, c := SimFinallyBody(p, s, ctx, sc, n, top, m, m2, h, z, u, v, r2, fuel, j);
    if ctx.gen && r.out.Returned? {
      FinallyAs(p.w, r, s.fin.value, fuel);
      SimReturned(p, ctx, sc, n, z.next, m, v + 6, ExecFinally(p.w, r, 0, s.fin.value, fuel), fuel, k, c);
      if ExecBlock(p.w, s.fin.value, r.st, fuel).out.Normal? { FinallyOut(p.w, r2, s.fin.value, fuel); }
    }
  }

  lemma FinallyOut(w: World, r: Run, fin: Block, fuel: nat)
    requires r.out.Raised? && ExecBlock(w, fin, r.st, fuel).out.Normal?
    ensures ExecFinally(w, r, 0, fin, fuel).out == r.out
  {
    hide ExecBlock;
  }

  /** The finally body and the switch behind it; nothing pending is a return in a generator. */
  lemma {:induction false} SimFinallyBody(p: Program, s: Stmt, ctx: Ctx, sc: Scope, n: Count, top: Count, m: Mach,
                                          m2: Mach, h: Code, z: Code, u: nat, v: nat, r: Run, fuel: nat, j: nat)
    returns (k: nat, c: Config)
    requires s.Try? && s.fin.Some? && GoodCtx(p, ctx, sc, n, top)
    requires OkBlock(s.fin.value, ctx.gen, ctx.void, ctx.vars.Keys, Scope(false, false, true, sc.inFin))
    requires z == LowerBlock(s.fin.value, ctx, h.next) && Grows(n.(id := n.id + 11), h.next) && Grows(h.next, z.next)
    requires Grows(z.next, top)
    requires CodeAt(p.code, u, FinallyEnter(n.id)) && CodeAt(p.code, u + 4, z.ins)
    requires CodeAt(p.code, v, FinallyTail(ctx, n.id))
    requires v == u + 4 + |z.ins|
    requires r.faithful && Steps(p, m, j, r.trace, Running(m2)) && AtEntry(p, ctx, n.id, m.hs, u, r.out, m2, r.st)
    requires Frame(ctx, sc.(inTry := true), n, h.next, m.store, m2.store) && Marked(ctx, r.site, m.store, m2.store)
    requires Confined(r.out, FinallyScope(sc, ctx.gen), ctx.void) && (r.out.Returned? ==> !ctx.gen)
    requires r.site <= 0 && h.next.y == n.y
    ensures Sim(p, ctx, sc, n, z.next, m, v + 6, ExecFinally(p.w, r, 0, s.fin.value, fuel), fuel, k, c)
    decreases fuel, s, 1
  {
    hide SitesOf, SitesIn, SitesOfElifs, SitesOfHandlers, LowerBlock, ExecBlock, OkBlock, Step, RunFor, Find;
    hide GoodCtx, Frame, EnvOf, CodeAt, Writable, Sim;
    var f, sc3 := n.id, Scope(false, false, true, sc.inFin);
    GoodLabels(p, ctx, sc, n, top);
    GoodFin(p, ctx, sc, n, h.next, top);
    var m3 := PopAt(p, m, m2, f, m.hs, u, r.trace, j);
    var w := ExecBlock(p.w, s.fin.value, r.st, fuel);
    NoSiteInBody(p.w, s.fin.value, ctx, sc3, h.next, r.st, fuel);
    k, c := SimBlock(p, s.fin.value, ctx, sc3, h.next, top, m3, r.st, fuel);
    FrameNarrow(ctx, sc, sc.(inTry := true), n, h.next, m.store, m2.store);
    if !w.out.Normal? {
      SimElsewhere(p, ctx, sc3, h.next, z.next, m3, v, v + 6, w, fuel, k, c);
      SimJoin(p, ctx, sc, sc3, n, h.next, z.next, m, m3, v + 6, r, w, fuel, j + 1, k, c);
      k := j + 1 + k;
    } else {
      var r2 := Run(r.out, w.st, w.trace, w.faithful && (r.out.Raised? ==> w.st.inflight == r.out.obj), w.site);
      if w.faithful {
        k, c := SimResume(p, ctx, sc, n, h.next, z.next, top, f, v, m3, r.out, w, fuel, k, c);
      } else {
        Unfaithful(p, ctx, sc3, h.next, z.next, m3, v + 6, r2, fuel, k, c);
      }
      SimJoin(p, ctx, sc, sc3, n, h.next, z.next, m, m3, v + 6, r, r2, fuel, j + 1, k, c);
      k := j + 1 + k;
    }
  }

  lemma {:induction false} SimTryFinally(p: Program, s: Stmt, ctx: Ctx, sc: Scope, n: Count, top: Count, m: Mach,
                                         st: State, fuel: nat)
    returns (k: nat, c: Config)
    requires s.Try? && s.fin.Some? && Ready(p, ctx, sc, n, top, m, st, LowerTryFinally(s, ctx, n))
    requires OkStmt(s, ctx.gen, ctx.void, ctx.vars.Keys, sc)
    ensures Sim(p, ctx, sc, n, LowerTryFinally(s, ctx, n).next, m, m.pc + |LowerTryFinally(s, ctx, n).ins|,
                PySemantics.Exec(p.w, s, st, fuel), fuel, k, c)
    decreases fuel, s, 3
  {
    hide SitesOf, SitesIn, SitesOfElifs, SitesOfHandlers, LowerTryFinally, LowerBlock, LowerHandlers, ExecCatch;
    hide OkBlock, OkHandlers, Step, RunFor, Find, GoodCtx, Frame, EnvOf, CodeAt, Writable, Sim, ExecBlock;
    var inner, a, h, z, q, u, v := FinallyParts(p, s, ctx, n, m.pc);
    var f := n.id;
    GoodLabels(p, ctx, sc, n, top);
    var m1 := EnterFinally(p, m, f, m.pc);
    var r := ExecCatch(p.w, s, st, fuel);
    OwnSlot(p, ctx, sc, n, h.next, top, m.store, f + 8, FALLTHROUGH);
    OwnSlot(p, ctx, sc, n, h.next, top, m.store[f + 8 := FALLTHROUGH], f + 9, 0);
    FrameJoin(ctx, sc.(inTry := true), n, h.next, m.store, m.store[f + 8 := FALLTHROUGH], m1.store);
    GoodShape(p, ctx, sc, n, top);
    ConfinedTry(p.w, s, ctx.gen, ctx.void, ctx.vars.Keys, sc, st, fuel);
    if !r.faithful {
      k, c := 0, Running(m);
      UnfaithfulTry(p.w, s, st, fuel);
      Unfaithful(p, ctx, sc, n, z.next, m, v + 6, PySemantics.Exec(p.w, s, st, fuel), fuel, k, c);
    } else {
      GuardedByFinally(p, ctx, sc, n, top);
      NoSiteCaught(p.w, s, ctx, FinallyScope(sc, ctx.gen), st, fuel);
      SitesUsed(s.body, inner, n.(id := f + 11));
      SitesUsedHandlers(s.handlers, f + 5, inner, a.next);
      var k1, m2 := SimCatch(p, s, ctx, sc, FinallyScope(sc, ctx.gen), n, top, m1, m.hs, m.pc, a, h, q, u, v, st, fuel);
      StepsTrans(p, m, 4, [], m1, k1, r.trace, Running(m2));
      assert [] + r.trace == r.trace;
      if r.out.OutOfFuel? {
        k, c := 4 + k1, Running(m2);
        SimCutShort(p, ctx, sc, n, z.next, m, v + 6, r, fuel, k, c);
      } else {
        FrameJoin(ctx, sc.(inTry := true), n, h.next, m.store, m1.store, m2.store);
        k, c := SimFinish(p, s, ctx, sc, n, top, m, m2, h, z, u, v, r, fuel, 4 + k1);
      }
    }
  }
}
