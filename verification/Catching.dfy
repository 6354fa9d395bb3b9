/**
 Whether a run catches anything: an exception inside an expression, one taken by an
 except clause, or the StopIteration that ends a loop over an iterator. With one slot
 for the exception in flight, that is what decides whether the slot is emptied.
 */
module Catching {
  import opened Common
  import opened StmtSyntax
  import opened PySemantics
  import opened Covered

  predicate CaughtIn(ev: Eval) { ev.Val? && ev.caught }

  predicate Catches(w: World, b: Block, st: State, fuel: nat)
    decreases fuel, b, 0
  {
    b.Cons? &&
    (CatchesStmt(w, b.head, st, fuel)
     || var r := PySemantics.Exec(w, b.head, st, fuel); r.out.Normal? && Catches(w, b.tail, r.st, fuel))
  }

  predicate CatchesStmt(w: World, s: Stmt, st: State, fuel: nat)
    decreases fuel, s, 2
  {
    match s
    case Eval(e) => CaughtIn(e(st.env, st.mem))
    case Assign(_, e) => CaughtIn(e(st.env, st.mem))
    case Raise(e) => CaughtIn(e(st.env, st.mem))
    case Yield(e) => CaughtIn(e(st.env, st.mem))
    case Return(v) => v.Some? && CaughtIn(v.value(st.env, st.mem))
    case If(c, thn, els) =>
      var ev := c(st.env, st.mem);
      CaughtIn(ev) || (ev.Val? && if ev.v != 0 then Catches(w, thn, Land(st, ev), fuel)
                       else CatchesElifs(w, els, Land(st, ev), fuel))
    case While(c, body) =>
      fuel > 0 &&
      var ev := c(st.env, st.mem);
      CaughtIn(ev) || (ev.Val? && ev.v != 0 &&
        (Catches(w, body, Land(st, ev), fuel)
         || var r := ExecBlock(w, body, Land(st, ev), fuel);
            (r.out.Normal? || r.out.Continued?) && CatchesStmt(w, s, r.st, fuel - 1)))
    case ForIter(x, e, body) =>
      var ev := EvalIter(w, e, st.env, st.mem);
      CaughtIn(ev) || (ev.Val? && CatchesFor(w, x, body, ev.v, Land(st, ev), fuel))
    case YieldFrom(e) =>
      var ev := EvalIter(w, e, st.env, st.mem);
      CaughtIn(ev) || (ev.Val? && CatchesYieldFrom(w, ev.v, Land(st, ev), fuel))
    case Try(_, _, _) => CatchesTry(w, s, st, fuel)
    case _ => false
  }

  predicate CatchesElifs(w: World, els: Elifs, st: State, fuel: nat)
    decreases fuel, els, 0
  {
    match els
    case NoElse => false
    case Else(b) => Catches(w, b, st, fuel)
    case Elif(c, b, rest) =>
      var ev := c(st.env, st.mem);
      CaughtIn(ev) || (ev.Val? && if ev.v != 0 then Catches(w, b, Land(st, ev), fuel)
                       else CatchesElifs(w, rest, Land(st, ev), fuel))
  }

  predicate CatchesFor(w: World, x: string, body: Block, it: int, st: State, fuel: nat)
    decreases fuel, body, 1
  {
    fuel > 0 &&
    var ev := w.next(it, st.mem);
    if ev.Exc? then w.isA(ev.obj, w.stopClass)
    else
      CaughtIn(ev) ||
      var st1 := Land(st, ev).(env := st.env[x := ev.v]);
      Catches(w, body, st1, fuel)
      || var r := ExecBlock(w, body, st1, fuel);
         (r.out.Normal? || r.out.Continued?) && CatchesFor(w, x, body, it, r.st, fuel - 1)
  }

  predicate CatchesYieldFrom(w: World, it: int, st: State, fuel: nat)
    decreases fuel
  {
    fuel > 0 &&
    var ev := w.next(it, st.mem);
    if ev.Exc? then w.isA(ev.obj, w.stopClass)
    else CaughtIn(ev) || CatchesYieldFrom(w, it, Emit(w, Land(st, ev)), fuel - 1)
  }

  predicate CatchesTry(w: World, s: Stmt, st: State, fuel: nat)
    requires s.Try?
    decreases fuel, s, 1
  {
    || CatchesGuarded(w, s, st, fuel)
    || (s.fin.Some? && var r := ExecCatch(w, s, st, fuel); !r.out.OutOfFuel? && Catches(w, s.fin.value, r.st, fuel))
  }

  /** The body of a try and its clauses. */
  predicate CatchesGuarded(w: World, s: Stmt, st: State, fuel: nat)
    requires s.Try?
    decreases fuel, s, 0
  {
    Catches(w, s.body, st, fuel)
    || var r := ExecBlock(w, s.body, st, fuel); r.out.Raised? && AnyMatch(w, s.handlers, r.out.obj)
  }

  // ---- the slot ----

  /** What a run that throws nothing leaves in flight: nothing if it caught something,
      and otherwise what it found there. */
  ghost predicate SlotIs(gen: bool, st: State, caught: bool, r: Run) {
    Throws(gen, r.out) || r.out.OutOfFuel? || r.st.inflight == if caught then 0 else st.inflight
  }

  lemma {:induction false} SlotAfter(w: World, b: Block, gen: bool, void: bool, names: set<string>, sc: Scope,
                                     st: State, fuel: nat)
    requires OkBlock(b, gen, void, names, sc) && (sc.inTry || !gen) && (w.gen ==> gen && !void)
    ensures SlotIs(w.gen, st, Catches(w, b, st, fuel), ExecBlock(w, b, st, fuel))
    decreases fuel, b, 0
  {
    hide PySemantics.Exec, CatchesStmt, OkStmt;
    if b.Cons? {
      SlotAfterStmt(w, b.head, gen, void, names, sc, st, fuel);
      var r := PySemantics.Exec(w, b.head, st, fuel);
      if r.out.Normal? { SlotAfter(w, b.tail, gen, void, names, sc, r.st, fuel); }
    }
  }

  lemma {:induction false} SlotAfterStmt(w: World, s: Stmt, gen: bool, void: bool, names: set<string>, sc: Scope,
                                         st: State, fuel: nat)
    requires OkStmt(s, gen, void, names, sc) && (sc.inTry || !gen) && (w.gen ==> gen && !void)
    ensures SlotIs(w.gen, st, CatchesStmt(w, s, st, fuel), PySemantics.Exec(w, s, st, fuel))
    decreases fuel, s, 3
  {
    hide ExecBlock, ExecElifs, ExecFor, ExecCatch, ExecFinally, Catches, CatchesElifs, CatchesFor, CatchesTry;
    hide OkBlock, OkElifs, OkHandlers;
    match s
    case If(c, thn, els) =>
      var st1 := Land(st, c(st.env, st.mem));
      SlotAfter(w, thn, gen, void, names, sc, st1, fuel);
      SlotAfterElifs(w, els, gen, void, names, sc, st1, fuel);
    case While(c, body) => SlotAfterWhile(w, s, gen, void, names, sc, st, fuel);
    case ForIter(x, e, body) =>
      var ev := EvalIter(w, e, st.env, st.mem);
      if ev.Val? { SlotAfterFor(w, x, body, ev.v, gen, void, names, sc, Land(st, ev), fuel); }
    case Try(_, _, _) => SlotAfterTry(w, s, gen, void, names, sc, st, fuel);
    case _ =>
  }

  lemma {:induction false} SlotAfterWhile(w: World, s: Stmt, gen: bool, void: bool, names: set<string>, sc: Scope,
                                          st: State, fuel: nat)
    requires s.While? && OkStmt(s, gen, void, names, sc) && (sc.inTry || !gen) && (w.gen ==> gen && !void)
    ensures SlotIs(w.gen, st, CatchesStmt(w, s, st, fuel), PySemantics.Exec(w, s, st, fuel))
    decreases fuel, s, 1
  {
    hide ExecBlock, Catches, OkBlock;
    if fuel > 0 {
      var st1 := Land(st, s.c(st.env, st.mem));
      SlotAfter(w, s.body, gen, void, names, sc.(loopOk := true), st1, fuel);
      SlotAfterStmt(w, s, gen, void, names, sc, ExecBlock(w, s.body, st1, fuel).st, fuel - 1);
    }
  }

  lemma {:induction false} SlotAfterElifs(w: World, els: Elifs, gen: bool, void: bool, names: set<string>, sc: Scope,
                                          st: State, fuel: nat)
    requires OkElifs(els, gen, void, names, sc) && (sc.inTry || !gen) && (w.gen ==> gen && !void)
    ensures SlotIs(w.gen, st, CatchesElifs(w, els, st, fuel), ExecElifs(w, els, st, fuel))
    decreases fuel, els, 0
  {
    hide ExecBlock, Catches, OkBlock;
    match els
    case NoElse =>
    case Else(b) => SlotAfter(w, b, gen, void, names, sc, st, fuel);
    case Elif(c, b, rest) =>
      var st1 := Land(st, c(st.env, st.mem));
      SlotAfter(w, b, gen, void, names, sc, st1, fuel);
      SlotAfterElifs(w, rest, gen, void, names, sc, st1, fuel);
  }

  lemma {:induction false} SlotAfterFor(w: World, x: string, body: Block, it: int, gen: bool, void: bool,
                                        names: set<string>, sc: Scope, st: State, fuel: nat)
    requires OkBlock(body, gen, void, names, sc.(loopOk := true)) && (sc.inTry || !gen) && (w.gen ==> gen && !void)
    ensures SlotIs(w.gen, st, CatchesFor(w, x, body, it, st, fuel), ExecFor(w, x, body, it, st, fuel))
    decreases fuel, body, 1
  {
    hide ExecBlock, Catches, OkBlock;
    if fuel > 0 {
      var ev := w.next(it, st.mem);
      if ev.Val? {
        var st1 := Land(st, ev).(env := st.env[x := ev.v]);
        SlotAfter(w, body, gen, void, names, sc.(loopOk := true), st1, fuel);
        SlotAfterFor(w, x, body, it, gen, void, names, sc, ExecBlock(w, body, st1, fuel).st, fuel - 1);
      }
    }
  }

  lemma {:induction false} SlotAfterTry(w: World, s: Stmt, gen: bool, void: bool, names: set<string>, sc: Scope,
                                        st: State, fuel: nat)
    requires s.Try? && OkStmt(s, gen, void, names, sc) && (sc.inTry || !gen) && (w.gen ==> gen && !void)
    ensures SlotIs(w.gen, st, CatchesTry(w, s, st, fuel), PySemantics.Exec(w, s, st, fuel))
    decreases fuel, s, 1
  {
    hide ExecBlock, ExecCatch, Catches, CatchesGuarded, OkBlock, OkHandlers;
    var inner := if s.fin.None? then BodyScope(sc, gen) else FinallyScope(sc, gen);
    SlotAfterGuarded(w, s, gen, void, names, inner, if s.fin.None? then sc else inner, st, fuel);
    if s.fin.Some? {
      var fsc, r := Scope(false, false, true, sc.inFin), ExecCatch(w, s, st, fuel);
      ConfinedBlock(w, s.fin.value, gen, void, names, fsc, r.st, fuel);
      SlotAfter(w, s.fin.value, gen, void, names, fsc, r.st, fuel);
    }
  }

  lemma {:induction false} SlotAfterGuarded(w: World, s: Stmt, gen: bool, void: bool, names: set<string>, isc: Scope,
                                            hsc: Scope, st: State, fuel: nat)
    requires s.Try? && OkBlock(s.body, gen, void, names, isc) && (isc.inTry || !gen)
    requires OkHandlers(s.handlers, gen, void, names, hsc) && (hsc.inTry || !gen) && (w.gen ==> gen && !void)
    ensures SlotIs(w.gen, st, CatchesGuarded(w, s, st, fuel), ExecCatch(w, s, st, fuel))
    decreases fuel, s, 0
  {
    hide ExecBlock, ExecHandlers, Catches, OkBlock, OkHandlers;
    var r := ExecBlock(w, s.body, st, fuel);
    SlotAfter(w, s.body, gen, void, names, isc, st, fuel);
    if r.out.Raised? { SlotAfterClauses(w, s.handlers, r.out.obj, gen, void, names, hsc, r.st, fuel); }
  }

  /** A clause starts on an empty slot, whatever was in flight before. */
  lemma {:induction false} SlotAfterClauses(w: World, hs: Handlers, obj: int, gen: bool, void: bool, names: set<string>,
                                            sc: Scope, st: State, fuel: nat)
    requires OkHandlers(hs, gen, void, names, sc) && (sc.inTry || !gen) && (w.gen ==> gen && !void)
    ensures AnyMatch(w, hs, obj) ==> SlotIs(w.gen, st, true, ExecHandlers(w, hs, obj, st, fuel))
    ensures !AnyMatch(w, hs, obj) ==> ExecHandlers(w, hs, obj, st, fuel).out == Raised(obj)
    decreases fuel, hs, 0
  {
    hide ExecBlock, OkBlock;
    if hs.Handler? {
      SlotAfter(w, hs.body, gen, void, names + Bound(hs.pat), ClauseScope(sc, hs.pat),
                st.(env := Bind(hs.pat, st.env, obj), inflight := 0), fuel);
      SlotAfterClauses(w, hs.rest, obj, gen, void, names, sc, st, fuel);
    }
  }

  // ---- what a finally loses ----

  /** A finally that ends normally while something is thrown through it loses that exactly
      when its body catches something. */
  lemma LostExactly(w: World, s: Stmt, gen: bool, void: bool, names: set<string>, inFin: bool, st: State, fuel: nat)
    requires s.Try? && s.fin.Some? && OkBlock(s.fin.value, gen, void, names, Scope(false, false, true, inFin))
    requires w.gen ==> gen && !void
    requires var r := ExecCatch(w, s, st, fuel); r.faithful && Throws(w.gen, r.out) && r.st.inflight == Thrown(r.out)
    requires var f := ExecBlock(w, s.fin.value, ExecCatch(w, s, st, fuel).st, fuel); f.faithful && f.out.Normal?
    ensures var r := ExecCatch(w, s, st, fuel);
      PySemantics.Exec(w, s, st, fuel).faithful <==> Thrown(r.out) == 0 || !Catches(w, s.fin.value, r.st, fuel)
  {
    hide ExecCatch, ExecBlock, Catches, OkBlock;
    SlotAfter(w, s.fin.value, gen, void, names, Scope(false, false, true, inFin), ExecCatch(w, s, st, fuel).st, fuel);
  }
}
