/**
 Where generators stop being right: yields among the slots of a stack frame, and returns
 that do not get out of the try around them. With the exact condition in each case.
 */
module GeneratorLimits {
  import opened Common
  import opened StmtSyntax
  import opened PySemantics
  import opened Machine
  import opened Lowering
  import opened LabelDiscipline
  import opened Simulation
  import opened Covered
  import opened LoweringSteps
  import opened TrySteps
  import opened Clauses
  import opened LoweringCorrect
  import opened Catching
  import opened Unread
  import opened GeneratorCorrect
  import opened LoweringLimits

  // ---- a return in a try ----

  /** How the finally of `s` ends behind a body that returned. */
  function FinEnds(w: World, s: Stmt, st: State, fuel: nat): Outcome
    requires s.Try?
  {
    if s.fin.None? then Normal else ExecBlock(w, s.fin.value, ExecBlock(w, s.body, st, fuel).st, fuel).out
  }

  /** The return in the body of `s` gets out: no clause takes its StopIteration, and the
      finally ends normally and does not empty the slot it is in. */
  predicate GetsOut(w: World, s: Stmt, st: State, fuel: nat)
    requires s.Try? && ExecBlock(w, s.body, st, fuel).out.Returned?
  {
    var r := ExecBlock(w, s.body, st, fuel);
    && !AnyMatch(w, s.handlers, r.out.v) && FinEnds(w, s, st, fuel).Normal?
    && (s.fin.Some? ==> r.out.v == 0 || !Catches(w, s.fin.value, r.st, fuel))
  }

  /** The finally raises something else in place of the return, in the language too. */
  predicate Overtaken(w: World, s: Stmt, st: State, fuel: nat)
    requires s.Try? && ExecBlock(w, s.body, st, fuel).out.Returned?
  {
    !AnyMatch(w, s.handlers, ExecBlock(w, s.body, st, fuel).out.v) && FinEnds(w, s, st, fuel).Raised?
  }

  /** A body that returns, and a finally that comes to an end. */
  predicate Leaves(w: World, s: Stmt, st: State, fuel: nat)
    requires s.Try?
  {
    var r := ExecBlock(w, s.body, st, fuel);
    && r.faithful && r.out.Returned?
    && (s.fin.Some? ==>
          ExecBlock(w, s.fin.value, r.st, fuel).faithful && !ExecBlock(w, s.fin.value, r.st, fuel).out.OutOfFuel?)
  }

  /** A try whose body returns loses nothing exactly when the return gets out, or its
      finally raises. */
  lemma ReturnKept(w: World, s: Stmt, names: set<string>, sc: Scope, st: State, fuel: nat)
    requires w.gen && s.Try? && OkStmt(s, true, false, names, sc) && Leaves(w, s, st, fuel)
    requires var r := ExecBlock(w, s.body, st, fuel); r.st.inflight == r.out.v
    ensures PySemantics.Exec(w, s, st, fuel).faithful <==> GetsOut(w, s, st, fuel) || Overtaken(w, s, st, fuel)
  {
    hide ExecBlock, ExecHandlers, OkBlock, OkHandlers, Catches, SitesOf, SitesOfHandlers;
    if s.fin.Some? && !AnyMatch(w, s.handlers, ExecBlock(w, s.body, st, fuel).out.v) {
      FinallyEnds(w, s.fin.value, names, sc, ExecBlock(w, s.body, st, fuel).st, fuel);
      if FinEnds(w, s, st, fuel).Normal? { LostExactly(w, s, true, false, names, sc.inFin, st, fuel); }
    }
  }

  /** A covered finally body ends normally or raises, unless it runs on for ever. */
  lemma FinallyEnds(w: World, fin: Block, names: set<string>, sc: Scope, st: State, fuel: nat)
    requires OkBlock(fin, true, false, names, Scope(false, false, true, sc.inFin))
    ensures var o := ExecBlock(w, fin, st, fuel).out; o.Normal? || o.Raised? || o.OutOfFuel?
  {
    hide ExecBlock, OkBlock;
    ConfinedBlock(w, fin, true, false, names, Scope(false, false, true, sc.inFin), st, fuel);
  }

  /** In the body of the first clause of `hs` that takes `obj`, on the stack `stack`. */
  ghost predicate InClause(p: Program, hs: Handlers, obj: int, stack: seq<int>, m: Mach) {
    && m.inflight == 0 && m.hs == stack
    && exists k: nat, slot :: k < Length(hs) && First(p.w, hs, obj, k) && BodyAt(p, m.pc, Clause(hs, k), slot)
  }

  lemma {:induction false} AnyTakes(w: World, hs: Handlers, obj: int, k: nat)
    requires First(w, hs, obj, k)
    ensures AnyMatch(w, hs, obj) <==> k < Length(hs)
    decreases hs
  {
    hide First;
    if hs.Handler? {
      FirstOfRest(w, hs, obj, k);
      if k > 0 { AnyTakes(w, hs.rest, obj, k - 1); }
    }
  }

  /** With clauses that take it, what is in flight gets into the first of them. */
  lemma {:induction false} IntoClause(p: Program, hs: Handlers, after: int, ctx: Ctx, n: Count, m: Mach)
    returns (k: nat, m1: Mach)
    requires UniqueLabels(p.code) && CodeAt(p.code, m.pc, LowerHandlers(hs, after, ctx, n).ins)
    requires AnyMatch(p.w, hs, m.inflight)
    ensures Steps(p, m, k, [], Running(m1)) && InClause(p, hs, m.inflight, m.hs, m1)
    ensures forall slot :: slot < n.id ==> Get(m1.store, slot) == Get(m.store, slot)
  {
    hide LowerHandlers, Step, RunFor, CodeAt, UniqueLabels, First, BodyAt, AnyMatch;
    var f := SomeFirst(p.w, hs, m.inflight);
    AnyTakes(p.w, hs, m.inflight, f);
    var slot;
    k, m1, slot := ClauseEntered(p, hs, after, ctx, n, m, f);
  }

  /** The end of the call that a return in `s` leads to, or the clause that takes it. The
      object is marked as exhausted in either case. */
  ghost predicate ReturnEnds(p: Program, s: Stmt, ctx: Ctx, n: Count, st: State, fuel: nat, c: Config)
    requires s.Try? && ExecBlock(p.w, s.body, st, fuel).out.Returned?
  {
    var r := ExecBlock(p.w, s.body, st, fuel);
    && r.st.inflight == r.out.v && Get(c.m.store, ctx.lay.state) == -1
    && if AnyMatch(p.w, s.handlers, r.out.v) then
         c.Running? && InClause(p, s.handlers, r.out.v, if s.fin.None? then [] else [n.id + 3], c.m)
       else
         && c.Done? && c.m.hs == []
         && c.res == Escaped(if Overtaken(p.w, s, st, fuel) then FinEnds(p.w, s, st, fuel).obj
                             else if GetsOut(p.w, s, st, fuel) then r.out.v else 0)
  }

  lemma GuardedFinally(s: Stmt, ctx: Ctx, sc: Scope)
    requires s.Try? && s.fin.Some? && OkStmt(s, ctx.gen, ctx.void, ctx.vars.Keys, sc)
    ensures OkBlock(s.fin.value, ctx.gen, ctx.void, ctx.vars.Keys, Scope(false, false, true, sc.inFin))
  {
    hide OkBlock, OkHandlers;
  }

  lemma {:induction false} ReturnInTry(p: Program, s: Stmt, ctx: Ctx, sc: Scope, n: Count, top: Count, m: Mach,
                                       st: State, fuel: nat)
    returns (k: nat, t: seq<int>, c: Config)
    requires s.Try? && s.fin.None? && ctx.gen && Ready(p, ctx, sc, n, top, m, st, LowerTry(s, ctx, n)) && m.hs == []
    requires OkStmt(s, ctx.gen, ctx.void, ctx.vars.Keys, sc)
    requires ExecBlock(p.w, s.body, st, fuel).faithful && ExecBlock(p.w, s.body, st, fuel).out.Returned?
    ensures Steps(p, m, k, t, c) && ReturnEnds(p, s, ctx, n, st, fuel, c)
  {
    hide ExecBlock, ExecHandlers, OkBlock, OkHandlers, Step, RunFor, Find, GoodCtx, EnvOf, CodeAt, LowerTry;
    hide LowerHandlers;
    hide LowerBlock, UniqueLabels, InClause, PySemantics.Exec, OkStmt, SitesOf, Frame;
    var r := ExecBlock(p.w, s.body, st, fuel);
    t := r.trace;
    var m2, a, z, q;
    k, m2, a, z, q := ToClauses(p, s, ctx, sc, n, top, m, st, fuel);
    if AnyMatch(p.w, s.handlers, r.out.v) {
      var j, m3 := IntoClause(p, s.handlers, n.id + 2, ctx, a.next, m2);
      StepsTrans(p, m, k, t, m2, j, [], Running(m3));
      assert t + [] == t;
      StateBelow(p, ctx, sc, n, top);
      k, c := k + j, Running(m3);
    } else {
      GoodShape(p, ctx, sc, n, top);
      ReturnRun(p.w, s, st, fuel);
      k, c := SimTry(p, s, ctx, sc, n, top, m, st, fuel);
      ReturnLast(p, s, ctx, sc, st, fuel);
      ReturnLeft(p, ctx, sc, n, LowerTry(s, ctx, n).next, m, m.pc + |LowerTry(s, ctx, n).ins|, r, fuel, k, c);
    }
  }

  /** A body that returned, as seen from outside a try with no clause for that. */
  lemma ReturnRun(w: World, s: Stmt, st: State, fuel: nat)
    requires s.Try? && s.fin.None? && w.gen
    requires var r := ExecBlock(w, s.body, st, fuel); r.faithful && r.out.Returned? && !AnyMatch(w, s.handlers, r.out.v)
    ensures PySemantics.Exec(w, s, st, fuel) == ExecBlock(w, s.body, st, fuel)
  {
    hide ExecBlock, ExecHandlers, SitesOf;
  }

  lemma ReturnLast(p: Program, s: Stmt, ctx: Ctx, sc: Scope, st: State, fuel: nat)
    requires s.Try? && ctx.gen && !ctx.void && p.w.gen && OkStmt(s, true, ctx.void, ctx.vars.Keys, sc)
    ensures ExecBlock(p.w, s.body, st, fuel).out.Returned? ==> ExecBlock(p.w, s.body, st, fuel).site == -1
  {
    hide ExecBlock, OkBlock, OkHandlers;
    var isc := if s.fin.None? then BodyScope(sc, true) else FinallyScope(sc, true);
    ConfinedBlock(p.w, s.body, true, ctx.void, ctx.vars.Keys, isc, st, fuel);
  }

  lemma ReturnLeft(p: Program, ctx: Ctx, sc: Scope, n: Count, n2: Count, m: Mach, end: nat, r: Run, fuel: nat,
                   k: nat, c: Config)
    requires Sim(p, ctx, sc, n, n2, m, end, r, fuel, k, c) && r.faithful && r.out.Returned? && ctx.gen && m.hs == []
    requires r.site == -1
    ensures Steps(p, m, k, r.trace, c) && c.Done? && c.res == Escaped(r.out.v) && c.m.hs == []
    ensures Get(c.m.store, ctx.lay.state) == -1
  {
  }

  lemma StateBelow(p: Program, ctx: Ctx, sc: Scope, n: Count, top: Count)
    requires GoodCtx(p, ctx, sc, n, top) && ctx.gen
    ensures ctx.lay.state < n.id
  {
  }

  /** From the start of a try, through a body that returns, to its clauses. */
  lemma {:induction false} ToClauses(p: Program, s: Stmt, ctx: Ctx, sc: Scope, n: Count, top: Count, m: Mach, st: State,
                                     fuel: nat)
    returns (k: nat, m2: Mach, a: Code, z: Code, q: nat)
    requires s.Try? && s.fin.None? && ctx.gen && Ready(p, ctx, sc, n, top, m, st, LowerTry(s, ctx, n))
    requires OkStmt(s, ctx.gen, ctx.void, ctx.vars.Keys, sc)
    requires ExecBlock(p.w, s.body, st, fuel).faithful && ExecBlock(p.w, s.body, st, fuel).out.Returned?
    ensures a == LowerBlock(s.body, ctx, n.(id := n.id + 3)) && z == LowerHandlers(s.handlers, n.id + 2, ctx, a.next)
    ensures q == m.pc + 2 + |a.ins|
    ensures UniqueLabels(p.code) && CodeAt(p.code, q + 4, z.ins) && Grows(n, a.next)
    ensures var r := ExecBlock(p.w, s.body, st, fuel);
      && Steps(p, m, k, r.trace, Running(m2)) && m2.pc == q + 4 && m2.hs == m.hs
      && m2.inflight == r.out.v == r.st.inflight && Get(m2.store, ctx.lay.state) == -1
  {
    hide ExecBlock, ExecHandlers, OkHandlers, Step, RunFor, Find, GoodCtx, EnvOf, CodeAt, LowerTry, LowerHandlers;
    hide LowerBlock, OkBlock, UniqueLabels, SitesOf, Frame;
    var u;
    a, z, q, u := TryParts(p, s, ctx, n, m.pc);
    var n1, isc := n.(id := n.id + 3), BodyScope(sc, ctx.gen);
    GoodLabels(p, ctx, sc, n, top);
    GoodShape(p, ctx, sc, n, top);
    GoodBody(p, ctx, sc, n, n1, top);
    var m1 := EnterTry(p, m, n.id + 1, n.id, m.pc);
    var r := ExecBlock(p.w, s.body, st, fuel);
    ReturnLast(p, s, ctx, sc, st, fuel);
    var j, c := SimBlock(p, s.body, ctx, isc, n1, top, m1, st, fuel);
    StepsTrans(p, m, 2, [], m1, j, r.trace, c);
    assert [] + r.trace == r.trace;
    LandTry(p, c.m, n.id + 1, m.hs, q + 2);
    m2 := c.m.(pc := q + 4, hs := m.hs);
    StepsTrans(p, m, 2 + j, r.trace, c.m, 2, [], Running(m2));
    assert r.trace + [] == r.trace;
    k := 2 + j + 2;
  }

  lemma {:induction false} ReturnInFinally(p: Program, s: Stmt, ctx: Ctx, sc: Scope, n: Count, top: Count, m: Mach,
                                           st: State, fuel: nat)
    returns (k: nat, t: seq<int>, c: Config)
    requires s.Try? && s.fin.Some? && ctx.gen && Ready(p, ctx, sc, n, top, m, st, LowerTryFinally(s, ctx, n))
    requires m.hs == []
    requires OkStmt(s, ctx.gen, ctx.void, ctx.vars.Keys, sc)
    requires Leaves(p.w, s, st, fuel)
    ensures Steps(p, m, k, t, c) && ReturnEnds(p, s, ctx, n, st, fuel, c)
  {
    hide ExecBlock, ExecHandlers, OkBlock, OkHandlers, Step, RunFor, Find, GoodCtx, EnvOf, CodeAt, LowerTryFinally;
    hide LowerHandlers;
    hide LowerBlock, UniqueLabels, InClause, PySemantics.Exec, SitesOf, SitesOfHandlers, Frame, Catches;
    var r, isc := ExecBlock(p.w, s.body, st, fuel), FinallyScope(sc, true);
    GoodShape(p, ctx, sc, n, top);
    ReturnLast(p, s, ctx, sc, st, fuel);
    GuardedByFinally(p, ctx, sc, n, top);
    if AnyMatch(p.w, s.handlers, r.out.v) {
      var m2, a, h, q;
      k, m2, a, h, q := ToGuardedClauses(p, s, ctx, sc, n, top, m, st, fuel);
      var j, m3 := IntoClause(p, s.handlers, n.id + 5, Inner(ctx, n.id), a.next, m2);
      t := r.trace;
      StepsTrans(p, m, k, t, m2, j, [], Running(m3));
      assert t + [] == t;
      StateBelow(p, ctx, sc, n, top);
      k, c := k + j, Running(m3);
      assert [n.id + 3] + m.hs == [n.id + 3];
    } else if Overtaken(p.w, s, st, fuel) {
      k, c := ReturnOvertaken(p, s, ctx, sc, n, top, m, st, fuel);
      t := PySemantics.Exec(p.w, s, st, fuel).trace;
    } else {
      FinallyEnds(p.w, s.fin.value, ctx.vars.Keys, sc, r.st, fuel);
      NoSiteCaught(p.w, s, ctx, isc, st, fuel);
      NoSiteInBody(p.w, s.fin.value, ctx, Scope(false, false, true, sc.inFin), n, r.st, fuel);
      k, c := RethrowsTheSlot(p, s, ctx, sc, isc, n, top, m, st, fuel);
      t := r.trace + FinRun(p.w, s, st, fuel).trace;
    }
  }

  /** The finally raises: the call ends with that, and the object is exhausted. */
  lemma {:induction false} ReturnOvertaken(p: Program, s: Stmt, ctx: Ctx, sc: Scope, n: Count, top: Count, m: Mach,
                                           st: State, fuel: nat)
    returns (k: nat, c: Config)
    requires s.Try? && s.fin.Some? && ctx.gen && Ready(p, ctx, sc, n, top, m, st, LowerTryFinally(s, ctx, n))
    requires m.hs == []
    requires OkStmt(s, ctx.gen, ctx.void, ctx.vars.Keys, sc) && Leaves(p.w, s, st, fuel)
    requires Overtaken(p.w, s, st, fuel)
    ensures var r := ExecBlock(p.w, s.body, st, fuel);
      && Steps(p, m, k, PySemantics.Exec(p.w, s, st, fuel).trace, c) && r.st.inflight == r.out.v
      && c.Done? && c.m.hs == [] && c.res == Escaped(FinEnds(p.w, s, st, fuel).obj)
      && Get(c.m.store, ctx.lay.state) == -1
  {
    hide ExecBlock, ExecHandlers, OkBlock, OkHandlers, Step, RunFor, Find, GoodCtx, EnvOf, CodeAt, LowerTryFinally;
    hide LowerHandlers;
    hide LowerBlock, UniqueLabels, SitesOf, SitesOfHandlers, Frame, PySemantics.Exec, OkStmt;
    GoodShape(p, ctx, sc, n, top);
    var j, m2, a, h, q := ToGuardedClauses(p, s, ctx, sc, n, top, m, st, fuel);
    OvertakenRun(p, s, ctx, sc, st, fuel);
    k, c := SimTryFinally(p, s, ctx, sc, n, top, m, st, fuel);
    RaisedLeft(p, ctx, sc, n, LowerTryFinally(s, ctx, n).next, m, m.pc + |LowerTryFinally(s, ctx, n).ins|,
               PySemantics.Exec(p.w, s, st, fuel), fuel, k, c);
  }

  lemma OvertakenRun(p: Program, s: Stmt, ctx: Ctx, sc: Scope, st: State, fuel: nat)
    requires s.Try? && s.fin.Some? && ctx.gen && !ctx.void && p.w.gen && OkStmt(s, true, ctx.void, ctx.vars.Keys, sc)
    requires Leaves(p.w, s, st, fuel) && Overtaken(p.w, s, st, fuel)
    ensures var o := PySemantics.Exec(p.w, s, st, fuel);
      o.faithful && o.out == FinEnds(p.w, s, st, fuel) && o.site == -1
  {
    hide ExecBlock, ExecHandlers, OkBlock, OkHandlers, SitesOf, SitesOfHandlers;
    ReturnLast(p, s, ctx, sc, st, fuel);
    NoSites(s.fin.value, true, ctx.void, ctx.vars.Keys, Scope(false, false, true, sc.inFin));
    SiteInText(p.w, s.fin.value, ExecBlock(p.w, s.body, st, fuel).st, fuel);
  }

  lemma RaisedLeft(p: Program, ctx: Ctx, sc: Scope, n: Count, n2: Count, m: Mach, end: nat, r: Run, fuel: nat,
                   k: nat, c: Config)
    requires Sim(p, ctx, sc, n, n2, m, end, r, fuel, k, c) && r.faithful && r.out.Raised? && ctx.gen && m.hs == []
    requires r.site == -1
    ensures Steps(p, m, k, r.trace, c) && c.Done? && c.res == Escaped(r.out.obj) && c.m.hs == []
    ensures Get(c.m.store, ctx.lay.state) == -1
  {
  }

  /** The same where a finally guards body and clauses. */
  lemma {:induction false} ToGuardedClauses(p: Program, s: Stmt, ctx: Ctx, sc: Scope, n: Count, top: Count, m: Mach,
                                            st: State, fuel: nat)
    returns (k: nat, m2: Mach, a: Code, h: Code, q: nat)
    requires s.Try? && s.fin.Some? && ctx.gen && Ready(p, ctx, sc, n, top, m, st, LowerTryFinally(s, ctx, n))
    requires OkStmt(s, ctx.gen, ctx.void, ctx.vars.Keys, sc)
    requires ExecBlock(p.w, s.body, st, fuel).faithful && ExecBlock(p.w, s.body, st, fuel).out.Returned?
    ensures a == LowerBlock(s.body, Inner(ctx, n.id), n.(id := n.id + 11))
    ensures h == LowerHandlers(s.handlers, n.id + 5, Inner(ctx, n.id), a.next)
    ensures UniqueLabels(p.code) && CodeAt(p.code, q + 3, h.ins) && Grows(n, a.next)
    ensures var r := ExecBlock(p.w, s.body, st, fuel);
      && Steps(p, m, k, r.trace, Running(m2)) && m2.pc == q + 3 && m2.hs == [n.id + 3] + m.hs
      && m2.inflight == r.out.v == r.st.inflight && Get(m2.store, ctx.lay.state) == -1
  {
    hide ExecBlock, ExecHandlers, OkHandlers, Step, RunFor, Find, GoodCtx, EnvOf, CodeAt, LowerTryFinally;
    hide LowerHandlers;
    hide LowerBlock, OkBlock, UniqueLabels, SitesOf, SitesOfHandlers, Frame, Writable;
    var inner, z, u, v;
    inner, a, h, z, q, u, v := FinallyParts(p, s, ctx, n, m.pc);
    var n1, isc := n.(id := n.id + 11), FinallyScope(sc, ctx.gen);
    GoodLabels(p, ctx, sc, n, top);
    GoodShape(p, ctx, sc, n, top);
    GuardedByFinally(p, ctx, sc, n, top);
    GoodInner(p, ctx, sc, isc, n, n1, top);
    StateBelow(p, ctx, sc, n, top);
    var m1 := EnterFinally(p, m, n.id, m.pc);
    OwnSlot(p, ctx, sc, n, h.next, top, m.store, n.id + 8, FALLTHROUGH);
    OwnSlot(p, ctx, sc, n, h.next, top, m.store[n.id + 8 := FALLTHROUGH], n.id + 9, 0);
    var r := ExecBlock(p.w, s.body, st, fuel);
    ReturnLast(p, s, ctx, sc, st, fuel);
    var j, c := SimBlock(p, s.body, inner, isc, n1, top, m1, st, fuel);
    StepsTrans(p, m, 4, [], m1, j, r.trace, c);
    assert [] + r.trace == r.trace;
    InnerFrame(p, ctx, sc, isc, n, n1, a.next, top, r.site, m1.store, c.m.store);
    m2 := BodyThrew(p, c.m, n.id, m.pc, q);
    StepsTrans(p, m, 4 + j, r.trace, c.m, 4, [], Running(m2));
    assert r.trace + [] == r.trace;
    k := 4 + j + 4;
  }

  /** A return in a generator from inside a try, with no handler pushed around that: the
      call ends there with its StopIteration if and only if it gets out (or the finally
      happens to raise that very object). When a clause takes it, the call goes on in that
      clause instead; when the finally empties the slot, an empty slot is thrown. */
  lemma {:induction false} GeneratorReturn(p: Program, s: Stmt, ctx: Ctx, sc: Scope, n: Count, top: Count, m: Mach,
                                           st: State, fuel: nat)
    returns (k: nat, t: seq<int>, c: Config)
    requires s.Try? && ctx.gen && Ready(p, ctx, sc, n, top, m, st, LowerStmt(s, ctx, n)) && m.hs == []
    requires OkStmt(s, ctx.gen, ctx.void, ctx.vars.Keys, sc)
    requires Leaves(p.w, s, st, fuel)
    ensures var r := ExecBlock(p.w, s.body, st, fuel); var kept := GetsOut(p.w, s, st, fuel);
      && Steps(p, m, k, t, c) && ReturnEnds(p, s, ctx, n, st, fuel, c)
      && (c.Done? && c.res == Escaped(r.out.v) <==>
            kept || (Overtaken(p.w, s, st, fuel) && FinEnds(p.w, s, st, fuel) == Raised(r.out.v)))
      && (PySemantics.Exec(p.w, s, st, fuel).faithful <==> kept || Overtaken(p.w, s, st, fuel))
  {
    hide ExecBlock, OkBlock, OkHandlers, Catches, Step, RunFor, Find, GoodCtx, EnvOf, CodeAt, LowerTry, LowerTryFinally;
    hide UniqueLabels, Steps, InClause, PySemantics.Exec, OkStmt;
    var r := ExecBlock(p.w, s.body, st, fuel);
    GoodShape(p, ctx, sc, n, top);
    if s.fin.None? {
      k, t, c := ReturnInTry(p, s, ctx, sc, n, top, m, st, fuel);
    } else {
      k, t, c := ReturnInFinally(p, s, ctx, sc, n, top, m, st, fuel);
    }
    if s.fin.Some? && !AnyMatch(p.w, s.handlers, r.out.v) {
      GuardedFinally(s, ctx, sc);
      FinallyEnds(p.w, s.fin.value, ctx.vars.Keys, sc, r.st, fuel);
    }
    ReturnKept(p.w, s, ctx.vars.Keys, sc, st, fuel);
  }

  // ---- a yield and the stack frame ----

  /** At a yield `__next__` returns and leaves whatever handlers it has pushed on the
      stack; the next call comes back behind the yield with none, and with every slot of
      the old stack frame, the pending and phase slots among them, gone. */
  lemma YieldForgets(p: Program, w: World, body: Block, lay: Layout, n: Count, ctx: Ctx, n1: Count, e: Expr, m: Mach)
    returns (m2: Mach, m3: Mach)
    requires GoodLayout(body, lay, n) && w.gen && p == GenProgram(w, body, lay, n) && n1.y < SitesOf(body).y
    requires ctx.lay == lay && CodeAt(p.code, m.pc, LowerStmt(Yield(e), ctx, n1).ins)
    requires e(EnvOf(ctx.vars, m.store), m.mem).Val?
    ensures Answers(p, m, RetVal(e(EnvOf(ctx.vars, m.store), m.mem).v), m2)
    ensures m2.hs == m.hs && Get(m2.store, lay.state) == n1.y + 1
    ensures Steps(p, Resume(p, m2), 2, [], Running(m3)) && m3.pc == m.pc + 4 && m3.hs == []
    ensures forall slot :: Get(m3.store, slot) == if slot < lay.fields then Get(m2.store, slot) else 0
  {
    hide GoodLayout, GenProgram, GoodCtx, CodeAt, Step, RunFor, LowerBlock, Find, EnvOf, SitesOf, UniqueLabels;
    var ev, ins := e(EnvOf(ctx.vars, m.store), m.mem), LowerStmt(Yield(e), ctx, n1).ins;
    CodeAtIndex(p.code, m.pc, ins, 0);
    CodeAtIndex(p.code, m.pc, ins, 1);
    CodeAtIndex(p.code, m.pc, ins, 2);
    CodeAtIndex(p.code, m.pc, ins, 3);
    LayoutApart(p, w, body, lay, n);
    m2 := YieldReturns(p, lay, n1.y + 1, ctx.vars, e, m);
    var i := ReentersAt(p, w, body, lay, n, Resume(p, m2), n1.y + 1);
    OneLabel(p, w, body, lay, n, i, m.pc + 3);
    m3 := Resume(p, m2).(pc := i + 1);
  }

  lemma YieldReturns(p: Program, lay: Layout, k: int, vars: Vars, e: Expr, m: Mach)
    returns (m2: Mach)
    requires m.pc + 2 < |p.code| && p.code[m.pc] == Set(lay.value, vars, e)
    requires p.code[m.pc + 1] == SetConst(lay.state, k)
    requires p.code[m.pc + 2] == Ret(lay.value) && e(EnvOf(vars, m.store), m.mem).Val? && lay.state != lay.value
    ensures Answers(p, m, RetVal(e(EnvOf(vars, m.store), m.mem).v), m2) && m2.hs == m.hs
    ensures Get(m2.store, lay.state) == k
  {
    var ev := e(EnvOf(vars, m.store), m.mem);
    var a := Step(p, m).m;
    var b := Step(p, a).m;
    m2 := b;
    assert CallFor(p, b, 1) == Done(RetVal(ev.v), b);
    assert CallFor(p, a, 2) == Done(RetVal(ev.v), b);
    assert CallFor(p, m, 3) == Done(RetVal(ev.v), b);
  }

  lemma LayoutApart(p: Program, w: World, body: Block, lay: Layout, n: Count)
    requires GoodLayout(body, lay, n) && w.gen && p == GenProgram(w, body, lay, n)
    ensures 0 <= lay.state < lay.value < lay.fields && p.fields == lay.fields
  {
    hide LowerBlock;
  }

  lemma OneLabel(p: Program, w: World, body: Block, lay: Layout, n: Count, i: nat, j: nat)
    requires GoodLayout(body, lay, n) && w.gen && p == GenProgram(w, body, lay, n)
    requires i < |p.code| && j < |p.code| && p.code[i].Lbl? && p.code[i] == p.code[j]
    ensures i == j
  {
    hide GoodLayout, GenProgram, LowerBlock;
    var L, e := GenParts(p, w, body, lay, n);
    if i < j { assert false; } else if j < i { assert false; }
  }

  /** The variables as a call finds them behind a yield: what lives in the stack frame,
      the name that an except clause binds, reads 0. */
  function Forgotten(ctx: Ctx, env: Env): Env {
    map x | x in env :: if x in ctx.vars && ctx.vars[x] >= ctx.lay.fields then 0 else env[x]
  }

  function FrameNames(ctx: Ctx): set<string> { set x | x in ctx.vars && ctx.vars[x] >= ctx.lay.fields }

  /** Like `r`, but what the yield `s` left in the stack frame is forgotten. */
  function Forget(s: Stmt, ctx: Ctx, r: Run): Run {
    if s.Yield? && r.out.Normal? then r.(st := r.st.(env := Forgotten(ctx, r.st.env))) else r
  }

  /** `b` as the language runs it, except that behind each of its yields the names in the
      stack frame read 0. */
  function LossyRun(w: World, b: Block, ctx: Ctx, st: State, fuel: nat): Run
    decreases b
  {
    match b
    case Nil => Stop(Normal, st)
    case Cons(s, rest) =>
      var r := Forget(s, ctx, PySemantics.Exec(w, s, st, fuel));
      if r.out.Normal? then After(r, From(SitesIn(s).y, LossyRun(w, rest, ctx, r.st, fuel))) else r
  }

  /** Covered statements, and yields among them although the scope has none. */
  ghost predicate YieldsBetween(b: Block, ctx: Ctx, sc: Scope) {
    b.Cons? ==>
      && (b.head.Yield? || OkStmt(b.head, ctx.gen, ctx.void, ctx.vars.Keys, sc))
      && YieldsBetween(b.tail, ctx, sc)
  }

  /** No name of `xs` is read behind a yield of `b` before it is assigned there. */
  ghost predicate Harmless(b: Block, xs: set<string>) {
    b.Cons? ==> (b.head.Yield? ==> Unread.Unread(b.tail, xs)) && Harmless(b.tail, xs)
  }

  /** `k` steps do what `r` says and end where it ends; nothing is said of other slots. */
  ghost predicate ComesTo(p: Program, ctx: Ctx, m: Mach, end: nat, r: Run, k: nat, c: Config) {
    && Steps(p, m, k, r.trace, c)
    && if r.out.OutOfFuel? then c.Running?
       else
         && c.m.hs == [] && c.m.mem == r.st.mem && c.m.inflight == r.st.inflight
         && match c
            case Running(m2) => Rel(ctx, m2, r.st) && Landed(p, ctx, [], end, r.out, m2)
            case Done(res, _) => Left(ctx, [], r.out, res)
  }

  /** An except clause that binds a name and yields, with no handler pushed: behind each
      yield the code reads that name as 0, where the language keeps the exception. The two
      run alike when the name is not read behind a yield before it is assigned there. */
  lemma {:induction false} BoundNameForgotten(p: Program, b: Block, ctx: Ctx, sc: Scope, n: Count, top: Count, m: Mach,
                                              st: State, fuel: nat)
    returns (k: nat, c: Config)
    requires ctx.gen && sc.inTry && m.hs == [] && Ready(p, ctx, sc, n, top, m, st, LowerBlock(b, ctx, n))
    requires YieldsBetween(b, ctx, sc) && LossyRun(p.w, b, ctx, st, fuel).faithful
    ensures ComesTo(p, ctx, m, m.pc + |LowerBlock(b, ctx, n).ins|, LossyRun(p.w, b, ctx, st, fuel), k, c)
    ensures Harmless(b, FrameNames(ctx)) ==>
      Alike(FrameNames(ctx), LossyRun(p.w, b, ctx, st, fuel), ExecBlock(p.w, b, st, fuel))
  {
    hide LowerBlock, LossyRun, YieldsBetween, ComesTo, ExecBlock, Harmless, Alike, GoodCtx, EnvOf, CodeAt;
    k, c := ForgetfulSteps(p, b, ctx, sc, n, top, m, st, fuel);
    if Harmless(b, FrameNames(ctx)) {
      HarmlessAlike(p.w, b, ctx, {}, st, st, fuel);
    }
  }

  lemma {:induction false} ForgetfulSteps(p: Program, b: Block, ctx: Ctx, sc: Scope, n: Count, top: Count, m: Mach,
                                          st: State, fuel: nat)
    returns (k: nat, c: Config)
    requires ctx.gen && sc.inTry && m.hs == [] && Ready(p, ctx, sc, n, top, m, st, LowerBlock(b, ctx, n))
    requires YieldsBetween(b, ctx, sc) && LossyRun(p.w, b, ctx, st, fuel).faithful
    ensures ComesTo(p, ctx, m, m.pc + |LowerBlock(b, ctx, n).ins|, LossyRun(p.w, b, ctx, st, fuel), k, c)
    decreases b
  {
    hide LowerStmt, PySemantics.Exec, OkStmt, Step, RunFor, Find, GoodCtx, EnvOf, CodeAt, Forgotten, SitesIn;
    hide ComesTo, Grows;
    match b
    case Nil =>
      NoSteps(p, m);
      k, c := 0, Running(m);
      NilComes(p, ctx, m, st);
    case Cons(s, rest) =>
      var r, a := Forget(s, ctx, PySemantics.Exec(p.w, s, st, fuel)), LowerStmt(s, ctx, n);
      var z := LowerBlock(rest, ctx, a.next);
      ConsLowers(s, rest, ctx, n);
      CodeAtSplit(p.code, m.pc, a.ins, z.ins);
      GrowsTrans(n, a.next, z.next, top);
      k, c := ForgetfulStep(p, s, ctx, sc, n, top, m, st, fuel);
      if r.out.Normal? {
        LandedHere(p, ctx, m, m.pc + |a.ins|, r, k, c);
        GoodLater(p, ctx, sc, n, a.next, top);
        var k2, c2 := ForgetfulSteps(p, rest, ctx, sc, a.next, top, c.m, r.st, fuel);
        ComesThen(p, ctx, m, k, r, c.m, k2, LossyRun(p.w, rest, ctx, r.st, fuel), SitesIn(s).y, c2,
                  m.pc + |a.ins| + |z.ins|);
        k, c := k + k2, c2;
      } else {
        ComesAnyway(p, ctx, m, m.pc + |a.ins|, m.pc + |a.ins| + |z.ins|, r, k, c);
      }
  }

  lemma GrowsTrans(n: Count, a: Count, z: Count, top: Count)
    requires Grows(n, a) && Grows(a, z) && Grows(z, top)
    ensures Grows(a, top) && Grows(n, top)
  {
  }

  lemma NilComes(p: Program, ctx: Ctx, m: Mach, st: State)
    requires Rel(ctx, m, st) && m.hs == [] && Steps(p, m, 0, [], Running(m))
    ensures ComesTo(p, ctx, m, m.pc, Stop(Normal, st), 0, Running(m))
  {
    hide EnvOf, RunFor;
  }

  lemma LandedHere(p: Program, ctx: Ctx, m: Mach, end: nat, r: Run, k: nat, c: Config)
    requires ComesTo(p, ctx, m, end, r, k, c) && r.out.Normal?
    ensures c.Running? && c.m.pc == end && c.m.hs == [] && Rel(ctx, c.m, r.st)
  {
    hide EnvOf, RunFor;
  }

  lemma ComesThen(p: Program, ctx: Ctx, m: Mach, k: nat, r: Run, m1: Mach, k2: nat, r2: Run, y: nat, c: Config,
                  end: nat)
    requires ComesTo(p, ctx, m, m1.pc, r, k, Running(m1)) && ComesTo(p, ctx, m1, end, r2, k2, c)
    ensures ComesTo(p, ctx, m, end, After(r, From(y, r2)), k + k2, c)
  {
    hide EnvOf, RunFor, Find;
    StepsTrans(p, m, k, r.trace, m1, k2, r2.trace, c);
  }

  lemma ComesAnyway(p: Program, ctx: Ctx, m: Mach, end: nat, end2: nat, r: Run, k: nat, c: Config)
    requires ComesTo(p, ctx, m, end, r, k, c) && !r.out.Normal?
    ensures ComesTo(p, ctx, m, end2, r, k, c)
  {
    hide EnvOf, RunFor, Find;
  }

  lemma {:induction false} ForgetfulStep(p: Program, s: Stmt, ctx: Ctx, sc: Scope, n: Count, top: Count, m: Mach,
                                         st: State, fuel: nat)
    returns (k: nat, c: Config)
    requires ctx.gen && sc.inTry && m.hs == [] && Ready(p, ctx, sc, n, top, m, st, LowerStmt(s, ctx, n))
    requires s.Yield? || OkStmt(s, ctx.gen, ctx.void, ctx.vars.Keys, sc)
    requires PySemantics.Exec(p.w, s, st, fuel).faithful
    ensures ComesTo(p, ctx, m, m.pc + |LowerStmt(s, ctx, n).ins|,
                    Forget(s, ctx, PySemantics.Exec(p.w, s, st, fuel)), k, c)
  {
    hide LowerStmt, PySemantics.Exec, OkStmt, Step, RunFor, Find, GoodCtx, EnvOf, CodeAt, Frame;
    if s.Yield? {
      k, c := ForgetfulYield(p, s, ctx, sc, n, top, m, st, fuel);
    } else {
      k, c := SimStmt(p, s, ctx, sc, n, top, m, st, fuel);
    }
  }

  lemma ForgetfulYield(p: Program, s: Stmt, ctx: Ctx, sc: Scope, n: Count, top: Count, m: Mach, st: State, fuel: nat)
    returns (k: nat, c: Config)
    requires s.Yield? && ctx.gen && sc.inTry && m.hs == [] && Ready(p, ctx, sc, n, top, m, st, LowerStmt(s, ctx, n))
    ensures ComesTo(p, ctx, m, m.pc + |LowerStmt(s, ctx, n).ins|,
                    Forget(s, ctx, PySemantics.Exec(p.w, s, st, fuel)), k, c)
  {
    hide LowerStmt, PySemantics.Exec, Step, RunFor, Find, GoodCtx, EnvOf, CodeAt, Forgotten, GoodProgram;
    hide GoodSwitch, UniqueLabels;
    var ev, lay := s.e(st.env, st.mem), ctx.lay;
    YieldHead(p, s, ctx, n, m.pc);
    YieldRun(p.w, s, st, fuel);
    if ev.Exc? {
      SetRaises(p, m, lay.value, ctx.vars, s.e);
      StepsOne(p, m);
      k, c := 1, Step(p, m);
    } else {
      ShapeParts(p, ctx, sc, n, n.(y := n.y + 1), top);
      var m1 := SetStep(p, m, lay.value, ctx.vars, s.e);
      var m2 := EmitSteps(p, lay, top, m1, m1.pc, n.y + 1, ev.v);
      StepsTrans(p, m, 1, [], m1, 4, [ev.v], Running(m2));
      assert [] + [ev.v] == [ev.v];
      FrameGone(p, ctx, sc, n, top, m.store, m2.store);
      k, c := 5, Running(m2);
    }
  }

  /** While no name in the stack frame matters, forgetting them changes nothing. */
  lemma {:induction false} HarmlessAlike(w: World, b: Block, ctx: Ctx, xs: set<string>, s1: State, s2: State, fuel: nat)
    requires Harmless(b, FrameNames(ctx)) && xs <= FrameNames(ctx)
    requires SameBut(xs, s1, s2) && (s1 == s2 || Unread.Unread(b, xs))
    ensures Alike(FrameNames(ctx), LossyRun(w, b, ctx, s1, fuel), ExecBlock(w, b, s2, fuel))
    decreases b
  {
    hide PySemantics.Exec, UnreadIn, SitesIn, Forgotten, FrameNames, SameBut, After, From;
    if b.Cons? {
      var r1, r2 := PySemantics.Exec(w, b.head, s1, fuel), PySemantics.Exec(w, b.head, s2, fuel);
      var ys := HeadAlike(w, b, ctx, xs, s1, s2, fuel);
      if r1.out.Normal? {
        var f := Forget(b.head, ctx, r1);
        HarmlessAlike(w, b.tail, ctx, ys, f.st, r2.st, fuel);
        AlikeThen(FrameNames(ctx), f, LossyRun(w, b.tail, ctx, f.st, fuel), r2, ExecBlock(w, b.tail, r2.st, fuel),
                  SitesIn(b.head).y);
      }
    } else {
      SameWider(xs, FrameNames(ctx), s1, s2);
    }
  }

  lemma SameWider(xs: set<string>, ys: set<string>, a: State, b: State)
    requires SameBut(xs, a, b) && xs <= ys
    ensures SameBut(ys, a, b)
  {
  }

  lemma AlikeThen(xs: set<string>, a: Run, a2: Run, b: Run, b2: Run, y: nat)
    requires (a.trace, a.faithful, a.site) == (b.trace, b.faithful, b.site) && Alike(xs, a2, b2)
    ensures Alike(xs, After(a, From(y, a2)), After(b, From(y, b2)))
  {
    hide SameBut;
  }

  /** One statement: `ys` are the names that differ behind it. */
  lemma HeadAlike(w: World, b: Block, ctx: Ctx, xs: set<string>, s1: State, s2: State, fuel: nat)
    returns (ys: set<string>)
    requires b.Cons? && Harmless(b, FrameNames(ctx)) && xs <= FrameNames(ctx)
    requires SameBut(xs, s1, s2) && (s1 == s2 || Unread.Unread(b, xs))
    ensures var r1, r2 := PySemantics.Exec(w, b.head, s1, fuel), PySemantics.Exec(w, b.head, s2, fuel);
      var f := Forget(b.head, ctx, r1);
      && Alike(FrameNames(ctx), f, r2) && ys <= FrameNames(ctx)
      && (r1.out.Normal? ==> SameBut(ys, f.st, r2.st) && (f.st == r2.st || Unread.Unread(b.tail, ys)))
  {
    hide PySemantics.Exec, UnreadIn, Forgotten, FrameNames;
    var r1, r2 := PySemantics.Exec(w, b.head, s1, fuel), PySemantics.Exec(w, b.head, s2, fuel);
    ys := if b.head.Yield? then FrameNames(ctx)
          else if s1 == s2 then {}
          else if b.head.Assign? then xs - {b.head.x}
          else xs;
    if s1 != s2 { UnreadStmt(w, b.head, xs, s1, s2, fuel); }
    if r1.out.Normal? {
      if b.head.Yield? {
        ForgottenOff(ctx, xs, r1.st.env, r2.st.env);
      } else if s1 != s2 && b.head.Assign? {
        AssignedAlike(w, b.head, xs, s1, s2, fuel);
      }
    }
  }

  lemma ForgottenOff(ctx: Ctx, xs: set<string>, a: Env, b: Env)
    requires AgreeOff(xs, a, b) && xs <= FrameNames(ctx)
    ensures AgreeOff(FrameNames(ctx), Forgotten(ctx, a), b)
  {
  }

  lemma ShapeParts(p: Program, ctx: Ctx, sc: Scope, n: Count, n2: Count, top: Count)
    requires GoodCtx(p, ctx, sc, n, top) && ctx.gen && n2 == n.(y := n.y + 1)
    ensures GoodProgram(p, ctx.lay) && GoodSwitch(p, ctx.lay, top) && p.w.gen && GoodCtx(p, ctx, sc, n2, top)
  {
    hide GoodProgram, GoodSwitch;
  }

  lemma ConsLowers(s: Stmt, rest: Block, ctx: Ctx, n: Count)
    ensures var one := LowerStmt(s, ctx, n);
      var z := LowerBlock(rest, ctx, one.next);
      LowerBlock(Cons(s, rest), ctx, n) == Code(one.ins + z.ins, z.next)
  {
    hide LowerStmt;
  }

  lemma YieldHead(p: Program, s: Stmt, ctx: Ctx, n: Count, pc: nat)
    requires s.Yield? && CodeAt(p.code, pc, LowerStmt(s, ctx, n).ins)
    ensures LowerStmt(s, ctx, n).next == n.(y := n.y + 1) && |LowerStmt(s, ctx, n).ins| == 4
    ensures pc < |p.code| && p.code[pc] == Set(ctx.lay.value, ctx.vars, s.e)
    ensures CodeAt(p.code, pc + 1,
                   [SetConst(ctx.lay.state, n.y + 1), Ret(ctx.lay.value), Lbl(ctx.lay.caseBase + (n.y + 1))])
  {
    hide CodeAt, LowerStmt;
    YieldCode(s, ctx, TOP, n);
    CodeAtSplit(p.code, pc, [Set(ctx.lay.value, ctx.vars, s.e)],
                [SetConst(ctx.lay.state, n.y + 1), Ret(ctx.lay.value), Lbl(ctx.lay.caseBase + (n.y + 1))]);
    CodeAtIndex(p.code, pc, [Set(ctx.lay.value, ctx.vars, s.e)], 0);
  }

  /** What is left of the variables once only the fields are. */
  lemma FrameGone(p: Program, ctx: Ctx, sc: Scope, n: Count, top: Count, a: map<int, int>, b: map<int, int>)
    requires GoodCtx(p, ctx, sc, n, top) && ctx.gen
    requires forall slot :: slot < ctx.lay.fields && slot != ctx.lay.state && slot != ctx.lay.value ==>
      Get(b, slot) == Get(a, slot)
    requires forall slot :: slot >= ctx.lay.fields ==> Get(b, slot) == 0
    ensures EnvOf(ctx.vars, b) == Forgotten(ctx, EnvOf(ctx.vars, a))
  {
    hide GoodSwitch;
    forall x | x in ctx.vars && ctx.vars[x] < ctx.lay.fields ensures Get(b, ctx.vars[x]) == Get(a, ctx.vars[x]) {
      assert ctx.vars[x] in ctx.lay.vars.Values;
    }
  }
}
