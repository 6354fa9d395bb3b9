/**
 When no pending exception can be lost: a condition on the text of a body under
 which every one of its runs is faithful.
 */
module Faithful {
  import opened Common
  import opened StmtSyntax
  import opened PySemantics

  /** Evaluating `e` catches no exception of its own. */
  ghost predicate QuietExpr(e: Expr) {
    forall env, mem :: e(env, mem).Val? ==> !e(env, mem).caught
  }

  /** Nothing in `b` catches an exception: no try, no loop over an iterator, no yield. */
  ghost predicate QuietBlock(b: Block) {
    b.Cons? ==> QuietStmt(b.head) && QuietBlock(b.tail)
  }

  ghost predicate QuietStmt(s: Stmt) {
    match s
    case Eval(e) => QuietExpr(e)
    case Assign(_, e) => QuietExpr(e)
    case If(c, thn, els) => QuietExpr(c) && QuietBlock(thn) && QuietElifs(els)
    case While(c, body) => QuietExpr(c) && QuietBlock(body)
    case Return(v) => v.Some? ==> QuietExpr(v.value)
    case Raise(_) => true
    case Break => true
    case Continue => true
    case _ => false
  }

  ghost predicate QuietElifs(els: Elifs) {
    match els
    case NoElse => true
    case Else(b) => QuietBlock(b)
    case Elif(c, b, rest) => QuietExpr(c) && QuietBlock(b) && QuietElifs(rest)
  }

  // ---- returns in a generator ----

  predicate HasReturn(b: Block) {
    b.Cons? && (HasReturnIn(b.head) || HasReturn(b.tail))
  }

  predicate HasReturnIn(s: Stmt) {
    match s
    case Return(_) => true
    case If(_, thn, els) => HasReturn(thn) || HasReturnElifs(els)
    case While(_, body) => HasReturn(body)
    case ForIter(_, _, body) => HasReturn(body)
    case Try(body, hs, fin) => HasReturn(body) || HasReturnHandlers(hs) || (fin.Some? && HasReturn(fin.value))
    case _ => false
  }

  predicate HasReturnElifs(els: Elifs) {
    match els
    case NoElse => false
    case Else(b) => HasReturn(b)
    case Elif(_, b, rest) => HasReturn(b) || HasReturnElifs(rest)
  }

  predicate HasReturnHandlers(hs: Handlers) {
    hs.Handler? && (HasReturn(hs.body) || HasReturnHandlers(hs.rest))
  }

  /** None of the clauses takes the StopIteration of a return. */
  ghost predicate PassStops(w: World, hs: Handlers) { forall obj :: IsStop(w, obj) ==> !AnyMatch(w, hs, obj) }

  // ---- the condition ----

  /** Every finally in `b` has a quiet body; and in a generator no return stands in a
      finally, or in a try that would take its StopIteration. */
  ghost predicate QuietFinallies(w: World, b: Block) {
    b.Cons? ==> QuietFinalliesIn(w, b.head) && QuietFinallies(w, b.tail)
  }

  ghost predicate QuietFinalliesIn(w: World, s: Stmt) {
    match s
    case Return(v) => w.gen ==> v.None?
    case If(_, thn, els) => QuietFinallies(w, thn) && QuietFinalliesElifs(w, els)
    case While(_, body) => QuietFinallies(w, body)
    case ForIter(_, _, body) => QuietFinallies(w, body)
    case Try(body, hs, fin) =>
      && QuietFinallies(w, body) && QuietFinalliesHandlers(w, hs)
      && (fin.Some? ==> QuietBlock(fin.value) && (w.gen ==> !HasReturn(fin.value)))
      && (w.gen && HasReturn(body) ==> PassStops(w, hs))
    case _ => true
  }

  ghost predicate QuietFinalliesElifs(w: World, els: Elifs) {
    match els
    case NoElse => true
    case Else(b) => QuietFinallies(w, b)
    case Elif(_, b, rest) => QuietFinallies(w, b) && QuietFinalliesElifs(w, rest)
  }

  ghost predicate QuietFinalliesHandlers(w: World, hs: Handlers) {
    hs.Handler? ==> QuietFinallies(w, hs.body) && QuietFinalliesHandlers(w, hs.rest)
  }

  /** Nothing lost, and what a run throws is in flight when it ends. */
  ghost predicate Kept(w: World, r: Run) {
    r.faithful && (Throws(w.gen, r.out) ==> r.st.inflight == Thrown(r.out))
  }

  /** The same of a text with or without returns. */
  ghost predicate KeptIn(w: World, ret: bool, r: Run) {
    Kept(w, r) && (r.out.Returned? ==> ret && (w.gen ==> IsStop(w, r.out.v)))
  }

  /** A quiet run that throws nothing leaves the in-flight slot alone. */
  ghost predicate Untouched(w: World, ret: bool, st: State, r: Run) {
    Kept(w, r) && (r.out.Returned? ==> ret && !w.gen) && (!Throws(w.gen, r.out) ==> r.st.inflight == st.inflight)
  }

  lemma {:induction false} QuietKeeps(w: World, b: Block, st: State, fuel: nat)
    requires QuietBlock(b) && (w.gen ==> !HasReturn(b))
    ensures Untouched(w, HasReturn(b), st, ExecBlock(w, b, st, fuel))
    decreases fuel, b, 0
  {
    hide PySemantics.Exec, QuietStmt;
    if b.Cons? {
      var r := PySemantics.Exec(w, b.head, st, fuel);
      QuietKeepsStmt(w, b.head, st, fuel);
      if r.out.Normal? { QuietKeeps(w, b.tail, r.st, fuel); }
    }
  }

  lemma {:induction false} QuietKeepsStmt(w: World, s: Stmt, st: State, fuel: nat)
    requires QuietStmt(s) && (w.gen ==> !HasReturnIn(s))
    ensures Untouched(w, HasReturnIn(s), st, PySemantics.Exec(w, s, st, fuel))
    decreases fuel, s, 1
  {
    match s
    case If(c, thn, els) =>
      QuietKeeps(w, thn, Land(st, c(st.env, st.mem)), fuel);
      QuietKeepsElifs(w, els, Land(st, c(st.env, st.mem)), fuel);
    case While(c, body) =>
      if fuel > 0 {
        var st1 := Land(st, c(st.env, st.mem));
        QuietKeeps(w, body, st1, fuel);
        QuietKeepsStmt(w, s, ExecBlock(w, body, st1, fuel).st, fuel - 1);
      }
    case _ =>
  }

  lemma {:induction false} QuietKeepsElifs(w: World, els: Elifs, st: State, fuel: nat)
    requires QuietElifs(els) && (w.gen ==> !HasReturnElifs(els))
    ensures Untouched(w, HasReturnElifs(els), st, ExecElifs(w, els, st, fuel))
    decreases fuel, els, 0
  {
    match els
    case NoElse =>
    case Else(b) => QuietKeeps(w, b, st, fuel);
    case Elif(c, b, rest) =>
      QuietKeeps(w, b, Land(st, c(st.env, st.mem)), fuel);
      QuietKeepsElifs(w, rest, Land(st, c(st.env, st.mem)), fuel);
  }

  /** A body all of whose finallies are quiet loses no exception, whatever happens. */
  lemma {:induction false} NothingLost(w: World, b: Block, st: State, fuel: nat)
    requires QuietFinallies(w, b)
    ensures KeptIn(w, HasReturn(b), ExecBlock(w, b, st, fuel))
    decreases fuel, b, 0
  {
    hide PySemantics.Exec, QuietFinalliesIn;
    if b.Cons? {
      NothingLostIn(w, b.head, st, fuel);
      NothingLost(w, b.tail, PySemantics.Exec(w, b.head, st, fuel).st, fuel);
    }
  }

  lemma {:induction false} NothingLostIn(w: World, s: Stmt, st: State, fuel: nat)
    requires QuietFinalliesIn(w, s)
    ensures KeptIn(w, HasReturnIn(s), PySemantics.Exec(w, s, st, fuel))
    decreases fuel, s, 2
  {
    match s
    case If(c, thn, els) =>
      NothingLost(w, thn, Land(st, c(st.env, st.mem)), fuel);
      NothingLostElifs(w, els, Land(st, c(st.env, st.mem)), fuel);
    case While(c, body) =>
      if fuel > 0 {
        var st1 := Land(st, c(st.env, st.mem));
        NothingLost(w, body, st1, fuel);
        NothingLostIn(w, s, ExecBlock(w, body, st1, fuel).st, fuel - 1);
      }
    case ForIter(x, e, body) =>
      var ev := EvalIter(w, e, st.env, st.mem);
      if ev.Val? { NothingLostFor(w, x, body, ev.v, Land(st, ev), fuel); }
    case YieldFrom(e) =>
      var ev := EvalIter(w, e, st.env, st.mem);
      if ev.Val? { NothingLostYieldFrom(w, ev.v, Land(st, ev), fuel); }
    case Try(body, hs, fin) => NothingLostTry(w, s, st, fuel);
    case _ =>
  }

  lemma {:induction false} NothingLostTry(w: World, s: Stmt, st: State, fuel: nat)
    requires s.Try? && QuietFinalliesIn(w, s)
    ensures KeptIn(w, HasReturnIn(s), PySemantics.Exec(w, s, st, fuel))
    decreases fuel, s, 1
  {
    hide ExecBlock, ExecHandlers, QuietFinallies, QuietFinalliesHandlers, QuietBlock;
    var r := ExecBlock(w, s.body, st, fuel);
    NothingLost(w, s.body, st, fuel);
    if r.out.Raised? { NothingLostHandlers(w, s.handlers, r.out.obj, r.st, fuel); }
    if s.fin.Some? {
      var g := ExecCatch(w, s, st, fuel);
      QuietKeeps(w, s.fin.value, g.st, fuel);
    }
  }

  lemma {:induction false} NothingLostElifs(w: World, els: Elifs, st: State, fuel: nat)
    requires QuietFinalliesElifs(w, els)
    ensures KeptIn(w, HasReturnElifs(els), ExecElifs(w, els, st, fuel))
    decreases fuel, els, 0
  {
    match els
    case NoElse =>
    case Else(b) => NothingLost(w, b, st, fuel);
    case Elif(c, b, rest) =>
      NothingLost(w, b, Land(st, c(st.env, st.mem)), fuel);
      NothingLostElifs(w, rest, Land(st, c(st.env, st.mem)), fuel);
  }

  lemma {:induction false} NothingLostFor(w: World, x: string, body: Block, it: int, st: State, fuel: nat)
    requires QuietFinallies(w, body)
    ensures KeptIn(w, HasReturn(body), ExecFor(w, x, body, it, st, fuel))
    decreases fuel, body, 1
  {
    if fuel > 0 {
      var ev := w.next(it, st.mem);
      if ev.Val? {
        var st1 := Land(st, ev).(env := st.env[x := ev.v]);
        NothingLost(w, body, st1, fuel);
        NothingLostFor(w, x, body, it, ExecBlock(w, body, st1, fuel).st, fuel - 1);
      }
    }
  }

  lemma {:induction false} NothingLostYieldFrom(w: World, it: int, st: State, fuel: nat)
    ensures KeptIn(w, false, ExecYieldFrom(w, it, st, fuel))
    decreases fuel
  {
    if fuel > 0 && w.next(it, st.mem).Val? {
      NothingLostYieldFrom(w, it, Emit(w, Land(st, w.next(it, st.mem))), fuel - 1);
    }
  }

  lemma {:induction false} NothingLostHandlers(w: World, hs: Handlers, obj: int, st: State, fuel: nat)
    requires QuietFinalliesHandlers(w, hs) && st.inflight == obj
    ensures KeptIn(w, HasReturnHandlers(hs), ExecHandlers(w, hs, obj, st, fuel))
    decreases fuel, hs
  {
    if hs.Handler? {
      NothingLost(w, hs.body, st.(env := Bind(hs.pat, st.env, obj), inflight := 0), fuel);
      NothingLostHandlers(w, hs.rest, obj, st, fuel);
    }
  }
}
