/**
 Which statements the theorems cover, and that a covered statement only ends in ways
 that are in order where it stands.
 */
module Covered {
  import opened Common
  import opened StmtSyntax
  import opened PySemantics

  /** Where a statement stands. `retOk` and `loopOk`: a return, or a break or continue
      of the innermost loop, may leave from here; `inTry`: a handler may be pushed or
      the name of an except clause bound; `inFin`: a finally is open around it. */
  datatype Scope = Scope(retOk: bool, loopOk: bool, inTry: bool, inFin: bool)

  const TOP := Scope(true, false, false, false)

  ghost predicate OkBlock(b: Block, gen: bool, void: bool, names: set<string>, sc: Scope) {
    match b
    case Nil => true
    case Cons(s, rest) => OkStmt(s, gen, void, names, sc) && OkBlock(rest, gen, void, names, sc)
  }

  /** No break or continue leaves the body of a try without a finally, nor a return in
      an ordinary function; one that goes through a finally has no other finally around
      it (a return in a generator, which is a throw, may go through any number);
      nothing yields where a handler is pushed, or where the name of an except clause
      is bound, which is no field; iterator loops occur in generators only. */
  ghost predicate OkStmt(s: Stmt, gen: bool, void: bool, names: set<string>, sc: Scope) {
    match s
    case Eval(e) => true
    case Assign(x, e) => x in names
    case If(c, thn, els) => OkBlock(thn, gen, void, names, sc) && OkElifs(els, gen, void, names, sc)
    case While(c, body) => OkBlock(body, gen, void, names, sc.(loopOk := true))
    case ForIter(x, e, body) => gen && x in names && OkBlock(body, gen, void, names, sc.(loopOk := true))
    case Break => sc.loopOk
    case Continue => sc.loopOk
    case Return(v) => sc.retOk && (if v.None? then gen || void else !gen && !void)
    case Raise(e) => true
    case Yield(e) => gen && !sc.inTry
    case YieldFrom(e) => gen && !sc.inTry
    case Try(body, hs, None) =>
      && OkBlock(body, gen, void, names, BodyScope(sc, gen))
      && OkHandlers(hs, gen, void, names, sc)
    case Try(body, hs, Some(fin)) =>
      && OkBlock(body, gen, void, names, FinallyScope(sc, gen))
      && OkHandlers(hs, gen, void, names, FinallyScope(sc, gen))
      && OkBlock(fin, gen, void, names, Scope(false, false, true, sc.inFin))
  }

  ghost predicate OkElifs(els: Elifs, gen: bool, void: bool, names: set<string>, sc: Scope) {
    match els
    case NoElse => true
    case Else(b) => OkBlock(b, gen, void, names, sc)
    case Elif(c, b, rest) => OkBlock(b, gen, void, names, sc) && OkElifs(rest, gen, void, names, sc)
  }

  ghost predicate OkHandlers(hs: Handlers, gen: bool, void: bool, names: set<string>, sc: Scope) {
    match hs
    case NoHandler => true
    case Handler(p, body, rest) =>
      OkBlock(body, gen, void, names + Bound(p), ClauseScope(sc, p)) && OkHandlers(rest, gen, void, names, sc)
  }

  function Bound(p: Pattern): set<string> {
    if p.TypedAs? then {p.name} else {}
  }

  function ClauseScope(sc: Scope, p: Pattern): Scope {
    if p.TypedAs? then sc.(inTry := true) else sc
  }

  function BodyScope(sc: Scope, gen: bool): Scope {
    sc.(retOk := sc.retOk && gen, loopOk := false, inTry := true)
  }

  function FinallyScope(sc: Scope, gen: bool): Scope {
    Scope(sc.retOk && (gen || !sc.inFin), sc.loopOk && !sc.inFin, true, true)
  }

  /** Only exits that may leave from here, and no value out of a function without one. */
  ghost predicate Confined(out: Outcome, sc: Scope, void: bool) {
    && (!sc.retOk ==> !out.Returned?) && (!sc.loopOk ==> !out.Broke? && !out.Continued?)
    && (void && out.Returned? ==> out.v == 0)
  }

  /** And in a generator, a return throws a StopIteration it made, with no yield after it. */
  ghost predicate ConfinedRun(w: World, r: Run, sc: Scope, void: bool) {
    Confined(r.out, sc, void) && (w.gen && r.out.Returned? ==> r.site == -1 && IsStop(w, r.out.v))
  }

  lemma {:induction false} ConfinedBlock(w: World, b: Block, gen: bool, void: bool, names: set<string>, sc: Scope,
                                         st: State, fuel: nat)
    requires OkBlock(b, gen, void, names, sc) && (w.gen ==> gen && !void)
    ensures ConfinedRun(w, ExecBlock(w, b, st, fuel), sc, void)
    decreases fuel, b, 0
  {
    match b
    case Nil =>
    case Cons(s, rest) =>
      ConfinedStmt(w, s, gen, void, names, sc, st, fuel);
      ConfinedBlock(w, rest, gen, void, names, sc, PySemantics.Exec(w, s, st, fuel).st, fuel);
  }

  lemma {:induction false} ConfinedStmt(w: World, s: Stmt, gen: bool, void: bool, names: set<string>, sc: Scope,
                                        st: State, fuel: nat)
    requires OkStmt(s, gen, void, names, sc) && (w.gen ==> gen && !void)
    ensures ConfinedRun(w, PySemantics.Exec(w, s, st, fuel), sc, void)
    decreases fuel, s, 1
  {
    match s
    case If(c, thn, els) =>
      var st1 := Land(st, c(st.env, st.mem));
      ConfinedBlock(w, thn, gen, void, names, sc, st1, fuel);
      ConfinedElifs(w, els, gen, void, names, sc, st1, fuel);
    case While(c, body) =>
      if fuel > 0 {
        var st1 := Land(st, c(st.env, st.mem));
        ConfinedBlock(w, body, gen, void, names, sc.(loopOk := true), st1, fuel);
        ConfinedStmt(w, s, gen, void, names, sc, ExecBlock(w, body, st1, fuel).st, fuel - 1);
      }
    case ForIter(x, e, body) =>
      var ev := EvalIter(w, e, st.env, st.mem);
      if ev.Val? { ConfinedFor(w, x, body, ev.v, gen, void, names, sc, Land(st, ev), fuel); }
    case YieldFrom(e) =>
      var ev := EvalIter(w, e, st.env, st.mem);
      if ev.Val? { ConfinedYieldFrom(w, ev.v, void, sc, Land(st, ev), fuel); }
    case Try(_, _, _) => ConfinedTry(w, s, gen, void, names, sc, st, fuel);
    case _ =>
  }

  lemma {:induction false} ConfinedElifs(w: World, els: Elifs, gen: bool, void: bool, names: set<string>, sc: Scope,
                                         st: State, fuel: nat)
    requires OkElifs(els, gen, void, names, sc) && (w.gen ==> gen && !void)
    ensures ConfinedRun(w, ExecElifs(w, els, st, fuel), sc, void)
    decreases fuel, els, 0
  {
    match els
    case NoElse =>
    case Else(b) => ConfinedBlock(w, b, gen, void, names, sc, st, fuel);
    case Elif(c, b, rest) =>
      var st1 := Land(st, c(st.env, st.mem));
      ConfinedBlock(w, b, gen, void, names, sc, st1, fuel);
      ConfinedElifs(w, rest, gen, void, names, sc, st1, fuel);
  }

  lemma {:induction false} ConfinedFor(w: World, x: string, body: Block, it: int, gen: bool, void: bool,
                                       names: set<string>, sc: Scope, st: State, fuel: nat)
    requires OkBlock(body, gen, void, names, sc.(loopOk := true)) && (w.gen ==> gen && !void)
    ensures ConfinedRun(w, ExecFor(w, x, body, it, st, fuel), sc, void)
    decreases fuel, body, 1
  {
    if fuel > 0 {
      var ev := w.next(it, st.mem);
      if ev.Val? {
        var st1 := Land(st, ev).(env := st.env[x := ev.v]);
        ConfinedBlock(w, body, gen, void, names, sc.(loopOk := true), st1, fuel);
        ConfinedFor(w, x, body, it, gen, void, names, sc, ExecBlock(w, body, st1, fuel).st, fuel - 1);
      }
    }
  }

  lemma {:induction false} ConfinedYieldFrom(w: World, it: int, void: bool, sc: Scope, st: State, fuel: nat)
    ensures ConfinedRun(w, ExecYieldFrom(w, it, st, fuel), sc, void)
    decreases fuel
  {
    if fuel > 0 {
      var ev := w.next(it, st.mem);
      if ev.Val? { ConfinedYieldFrom(w, it, void, sc, Emit(w, Land(st, ev)), fuel - 1); }
    }
  }

  lemma {:induction false} ConfinedTry(w: World, s: Stmt, gen: bool, void: bool, names: set<string>, sc: Scope,
                                       st: State, fuel: nat)
    requires s.Try? && OkStmt(s, gen, void, names, sc) && (w.gen ==> gen && !void)
    ensures ConfinedRun(w, PySemantics.Exec(w, s, st, fuel), sc, void)
    ensures s.fin.Some? ==> ConfinedRun(w, ExecCatch(w, s, st, fuel), FinallyScope(sc, gen), void)
    decreases fuel, s, 0
  {
    hide ExecBlock, ExecHandlers, OkBlock, OkHandlers, SitesOf, SitesOfHandlers, IsStop;
    var inner := if s.fin.None? then BodyScope(sc, gen) else FinallyScope(sc, gen);
    var b := ExecBlock(w, s.body, st, fuel);
    ConfinedBlock(w, s.body, gen, void, names, inner, st, fuel);
    if b.out.Raised? {
      ConfinedHandlers(w, s.handlers, b.out.obj, gen, void, names, if s.fin.None? then sc else inner, b.st, fuel);
    }
    if s.fin.Some? {
      NoSites(s.fin.value, gen, void, names, Scope(false, false, true, sc.inFin));
      SiteInText(w, s.fin.value, ExecCatch(w, s, st, fuel).st, fuel);
      ConfinedBlock(w, s.fin.value, gen, void, names, Scope(false, false, true, sc.inFin),
                    ExecCatch(w, s, st, fuel).st, fuel);
    }
  }

  lemma {:induction false} ConfinedHandlers(w: World, hs: Handlers, obj: int, gen: bool, void: bool, names: set<string>,
                                            sc: Scope, st: State, fuel: nat)
    requires OkHandlers(hs, gen, void, names, sc) && (w.gen ==> gen && !void)
    ensures ConfinedRun(w, ExecHandlers(w, hs, obj, st, fuel), sc, void)
    decreases fuel, hs, 0
  {
    match hs
    case NoHandler =>
    case Handler(p, body, rest) =>
      if Matches(w, p, obj) {
        ConfinedBlock(w, body, gen, void, names + Bound(p), ClauseScope(sc, p),
                      st.(env := Bind(p, st.env, obj), inflight := 0), fuel);
      } else {
        ConfinedHandlers(w, rest, obj, gen, void, names, sc, st, fuel);
      }
  }

  // ---- sites ----

  /** Nothing yields in a try, or in an ordinary function. */
  lemma {:induction false} NoSites(b: Block, gen: bool, void: bool, names: set<string>, sc: Scope)
    requires OkBlock(b, gen, void, names, sc) && (sc.inTry || !gen)
    ensures SitesOf(b).y == 0
    decreases b, 0
  {
    if b.Cons? {
      NoSitesIn(b.head, gen, void, names, sc);
      NoSites(b.tail, gen, void, names, sc);
    }
  }

  lemma {:induction false} NoSitesIn(s: Stmt, gen: bool, void: bool, names: set<string>, sc: Scope)
    requires OkStmt(s, gen, void, names, sc) && (sc.inTry || !gen)
    ensures SitesIn(s).y == 0
    decreases s, 1
  {
    match s
    case If(_, thn, els) =>
      NoSites(thn, gen, void, names, sc);
      NoSitesElifs(els, gen, void, names, sc);
    case While(_, body) => NoSites(body, gen, void, names, sc.(loopOk := true));
    case ForIter(_, _, body) => NoSites(body, gen, void, names, sc.(loopOk := true));
    case Try(body, hs, fin) =>
      var inner := if fin.None? then BodyScope(sc, gen) else FinallyScope(sc, gen);
      NoSites(body, gen, void, names, inner);
      NoSitesHandlers(hs, gen, void, names, if fin.None? then sc else inner);
      if fin.Some? { NoSites(fin.value, gen, void, names, Scope(false, false, true, sc.inFin)); }
    case _ =>
  }

  lemma {:induction false} NoSitesElifs(els: Elifs, gen: bool, void: bool, names: set<string>, sc: Scope)
    requires OkElifs(els, gen, void, names, sc) && (sc.inTry || !gen)
    ensures SitesOfElifs(els).y == 0
    decreases els, 0
  {
    match els
    case NoElse =>
    case Else(b) => NoSites(b, gen, void, names, sc);
    case Elif(_, b, rest) =>
      NoSites(b, gen, void, names, sc);
      NoSitesElifs(rest, gen, void, names, sc);
  }

  lemma {:induction false} NoSitesHandlers(hs: Handlers, gen: bool, void: bool, names: set<string>, sc: Scope)
    requires OkHandlers(hs, gen, void, names, sc) && (sc.inTry || !gen)
    ensures SitesOfHandlers(hs).y == 0
    decreases hs, 0
  {
    if hs.Handler? {
      NoSites(hs.body, gen, void, names + Bound(hs.pat), ClauseScope(sc, hs.pat));
      NoSitesHandlers(hs.rest, gen, void, names, sc);
    }
  }

  /** The last site a run passed is one of its text. */
  lemma {:induction false} SiteInText(w: World, b: Block, st: State, fuel: nat)
    ensures -1 <= ExecBlock(w, b, st, fuel).site <= SitesOf(b).y
    decreases fuel, b, 0
  {
    if b.Cons? {
      SiteInStmt(w, b.head, st, fuel);
      SiteInText(w, b.tail, PySemantics.Exec(w, b.head, st, fuel).st, fuel);
    }
  }

  lemma {:induction false} SiteInStmt(w: World, s: Stmt, st: State, fuel: nat)
    ensures -1 <= PySemantics.Exec(w, s, st, fuel).site <= SitesIn(s).y
    decreases fuel, s, 2
  {
    hide ExecBlock, ExecElifs, ExecFor, ExecYieldFrom, ExecCatch, ExecFinally, SitesOf, SitesOfElifs, SitesOfHandlers;
    match s
    case If(c, thn, els) =>
      var st1 := Land(st, c(st.env, st.mem));
      SiteInText(w, thn, st1, fuel);
      SiteInElifs(w, els, st1, fuel);
    case While(c, body) =>
      if fuel > 0 {
        var st1 := Land(st, c(st.env, st.mem));
        SiteInText(w, body, st1, fuel);
        SiteInStmt(w, s, ExecBlock(w, body, st1, fuel).st, fuel - 1);
      }
    case ForIter(x, e, body) =>
      var ev := EvalIter(w, e, st.env, st.mem);
      if ev.Val? { SiteInFor(w, x, body, ev.v, Land(st, ev), fuel); }
    case YieldFrom(e) =>
      var ev := EvalIter(w, e, st.env, st.mem);
      if ev.Val? { SiteInYieldFrom(w, ev.v, Land(st, ev), fuel); }
    case Try(_, _, _) => SiteInTry(w, s, st, fuel);
    case _ =>
  }

  lemma {:induction false} SiteInTry(w: World, s: Stmt, st: State, fuel: nat)
    requires s.Try?
    ensures -1 <= PySemantics.Exec(w, s, st, fuel).site <= SitesIn(s).y
    decreases fuel, s, 1
  {
    hide ExecBlock, ExecHandlers, SitesOf, SitesOfHandlers;
    var r := ExecBlock(w, s.body, st, fuel);
    SiteInText(w, s.body, st, fuel);
    if r.out.Raised? { SiteInHandlers(w, s.handlers, r.out.obj, r.st, fuel); }
    if s.fin.Some? { SiteInText(w, s.fin.value, ExecCatch(w, s, st, fuel).st, fuel); }
  }

  lemma {:induction false} SiteInElifs(w: World, els: Elifs, st: State, fuel: nat)
    ensures -1 <= ExecElifs(w, els, st, fuel).site <= SitesOfElifs(els).y
    decreases fuel, els, 0
  {
    match els
    case NoElse =>
    case Else(b) => SiteInText(w, b, st, fuel);
    case Elif(c, b, rest) =>
      SiteInText(w, b, Land(st, c(st.env, st.mem)), fuel);
      SiteInElifs(w, rest, Land(st, c(st.env, st.mem)), fuel);
  }

  lemma {:induction false} SiteInFor(w: World, x: string, body: Block, it: int, st: State, fuel: nat)
    ensures -1 <= ExecFor(w, x, body, it, st, fuel).site <= SitesOf(body).y
    decreases fuel, body, 1
  {
    hide ExecBlock, SitesOf;
    if fuel > 0 {
      var ev := w.next(it, st.mem);
      if ev.Val? {
        var st1 := Land(st, ev).(env := st.env[x := ev.v]);
        SiteInText(w, body, st1, fuel);
        SiteInFor(w, x, body, it, ExecBlock(w, body, st1, fuel).st, fuel - 1);
      }
    }
  }

  lemma {:induction false} SiteInYieldFrom(w: World, it: int, st: State, fuel: nat)
    ensures -1 <= ExecYieldFrom(w, it, st, fuel).site <= 1
    decreases fuel
  {
    if fuel > 0 && w.next(it, st.mem).Val? {
      SiteInYieldFrom(w, it, Emit(w, Land(st, w.next(it, st.mem))), fuel - 1);
    }
  }

  lemma {:induction false} SiteInHandlers(w: World, hs: Handlers, obj: int, st: State, fuel: nat)
    ensures -1 <= ExecHandlers(w, hs, obj, st, fuel).site <= SitesOfHandlers(hs).y
    decreases fuel, hs, 0
  {
    if hs.Handler? {
      SiteInText(w, hs.body, st.(env := Bind(hs.pat, st.env, obj), inflight := 0), fuel);
      SiteInHandlers(w, hs.rest, obj, st, fuel);
    }
  }
}
