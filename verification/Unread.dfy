/**
 Names whose values do not matter: a text that does not read them before it assigns
 them runs alike whatever they hold.
 */
module Unread {
  import opened Common
  import opened StmtSyntax
  import opened PySemantics

  ghost predicate AgreeOff(xs: set<string>, a: Env, b: Env) {
    a.Keys == b.Keys && forall y :: y in a && y !in xs ==> a[y] == b[y]
  }

  ghost predicate SameBut(xs: set<string>, a: State, b: State) {
    AgreeOff(xs, a.env, b.env) && (a.mem, a.inflight, a.calls) == (b.mem, b.inflight, b.calls)
  }

  ghost predicate Alike(xs: set<string>, a: Run, b: Run) {
    SameBut(xs, a.st, b.st) && (a.out, a.trace, a.faithful, a.site) == (b.out, b.trace, b.faithful, b.site)
  }

  // ---- the condition on the text ----

  ghost predicate Ignores(e: Expr, xs: set<string>) {
    forall a, b, mem :: AgreeOff(xs, a, b) ==> e(a, mem) == e(b, mem)
  }

  /** Nothing in `b` reads one of `xs` before a statement of `b` assigns it. */
  ghost predicate Unread(b: Block, xs: set<string>) {
    b.Cons? ==> UnreadIn(b.head, xs) && Unread(b.tail, if b.head.Assign? then xs - {b.head.x} else xs)
  }

  ghost predicate UnreadIn(s: Stmt, xs: set<string>) {
    match s
    case If(c, thn, els) => Ignores(c, xs) && Unread(thn, xs) && UnreadElifs(els, xs)
    case While(c, body) => Ignores(c, xs) && Unread(body, xs)
    case ForIter(_, e, body) => Ignores(e, xs) && Unread(body, xs)
    case Return(v) => v.Some? ==> Ignores(v.value, xs)
    case Try(body, hs, fin) => Unread(body, xs) && UnreadHandlers(hs, xs) && (fin.Some? ==> Unread(fin.value, xs))
    case Break => true
    case Continue => true
    case _ => Ignores(s.e, xs)
  }

  ghost predicate UnreadElifs(els: Elifs, xs: set<string>) {
    match els
    case NoElse => true
    case Else(b) => Unread(b, xs)
    case Elif(c, b, rest) => Ignores(c, xs) && Unread(b, xs) && UnreadElifs(rest, xs)
  }

  ghost predicate UnreadHandlers(hs: Handlers, xs: set<string>) {
    hs.Handler? ==> Unread(hs.body, xs) && UnreadHandlers(hs.rest, xs)
  }

  // ---- runs ----

  lemma {:induction false} UnreadAlike(w: World, b: Block, xs: set<string>, s1: State, s2: State, fuel: nat)
    requires Unread(b, xs) && SameBut(xs, s1, s2)
    ensures Alike(xs, ExecBlock(w, b, s1, fuel), ExecBlock(w, b, s2, fuel))
    decreases fuel, b, 0
  {
    hide PySemantics.Exec, UnreadIn, SitesIn;
    if b.Cons? {
      var r1, r2 := PySemantics.Exec(w, b.head, s1, fuel), PySemantics.Exec(w, b.head, s2, fuel);
      UnreadStmt(w, b.head, xs, s1, s2, fuel);
      if r1.out.Normal? {
        var ys := if b.head.Assign? then xs - {b.head.x} else xs;
        if b.head.Assign? { AssignedAlike(w, b.head, xs, s1, s2, fuel); }
        UnreadAlike(w, b.tail, ys, r1.st, r2.st, fuel);
      }
    }
  }

  /** An assigned name holds the same in both. */
  lemma AssignedAlike(w: World, s: Stmt, xs: set<string>, s1: State, s2: State, fuel: nat)
    requires s.Assign? && UnreadIn(s, xs) && SameBut(xs, s1, s2) && PySemantics.Exec(w, s, s1, fuel).out.Normal?
    ensures SameBut(xs - {s.x}, PySemantics.Exec(w, s, s1, fuel).st, PySemantics.Exec(w, s, s2, fuel).st)
  {
    assert s.e(s1.env, s1.mem) == s.e(s2.env, s2.mem);
  }

  lemma {:induction false} UnreadStmt(w: World, s: Stmt, xs: set<string>, s1: State, s2: State, fuel: nat)
    requires UnreadIn(s, xs) && SameBut(xs, s1, s2)
    ensures Alike(xs, PySemantics.Exec(w, s, s1, fuel), PySemantics.Exec(w, s, s2, fuel))
    decreases fuel, s, 2
  {
    hide ExecBlock, ExecElifs, ExecFor, ExecYieldFrom, ExecCatch, ExecFinally, SitesOf, Unread, UnreadElifs;
    hide UnreadHandlers;
    match s
    case If(c, thn, els) =>
      var ev := c(s1.env, s1.mem);
      assert ev == c(s2.env, s2.mem);
      UnreadAlike(w, thn, xs, Land(s1, ev), Land(s2, ev), fuel);
      UnreadElse(w, els, xs, Land(s1, ev), Land(s2, ev), fuel);
    case While(c, body) => UnreadWhile(w, s, xs, s1, s2, fuel);
    case ForIter(x, e, body) =>
      assert e(s1.env, s1.mem) == e(s2.env, s2.mem);
      var ev := EvalIter(w, e, s1.env, s1.mem);
      if ev.Val? { UnreadFor(w, x, body, ev.v, xs, Land(s1, ev), Land(s2, ev), fuel); }
    case Return(v) => if v.Some? { assert v.value(s1.env, s1.mem) == v.value(s2.env, s2.mem); }
    case YieldFrom(e) =>
      assert e(s1.env, s1.mem) == e(s2.env, s2.mem);
      var ev := EvalIter(w, e, s1.env, s1.mem);
      if ev.Val? { UnreadYieldFrom(w, ev.v, xs, Land(s1, ev), Land(s2, ev), fuel); }
    case Try(_, _, _) => UnreadTry(w, s, xs, s1, s2, fuel);
    case Break =>
    case Continue =>
    case _ => assert s.e(s1.env, s1.mem) == s.e(s2.env, s2.mem);
  }

  lemma {:induction false} UnreadWhile(w: World, s: Stmt, xs: set<string>, s1: State, s2: State, fuel: nat)
    requires s.While? && UnreadIn(s, xs) && SameBut(xs, s1, s2)
    ensures Alike(xs, PySemantics.Exec(w, s, s1, fuel), PySemantics.Exec(w, s, s2, fuel))
    decreases fuel, s, 1
  {
    hide ExecBlock, Unread, SitesOf;
    if fuel > 0 {
      var ev := s.c(s1.env, s1.mem);
      assert ev == s.c(s2.env, s2.mem);
      UnreadAlike(w, s.body, xs, Land(s1, ev), Land(s2, ev), fuel);
      var r1, r2 := ExecBlock(w, s.body, Land(s1, ev), fuel), ExecBlock(w, s.body, Land(s2, ev), fuel);
      UnreadStmt(w, s, xs, r1.st, r2.st, fuel - 1);
    }
  }

  lemma {:induction false} UnreadElse(w: World, els: Elifs, xs: set<string>, s1: State, s2: State, fuel: nat)
    requires UnreadElifs(els, xs) && SameBut(xs, s1, s2)
    ensures Alike(xs, ExecElifs(w, els, s1, fuel), ExecElifs(w, els, s2, fuel))
    decreases fuel, els, 0
  {
    hide ExecBlock, Unread, SitesOf;
    match els
    case NoElse =>
    case Else(b) => UnreadAlike(w, b, xs, s1, s2, fuel);
    case Elif(c, b, rest) =>
      var ev := c(s1.env, s1.mem);
      assert ev == c(s2.env, s2.mem);
      UnreadAlike(w, b, xs, Land(s1, ev), Land(s2, ev), fuel);
      UnreadElse(w, rest, xs, Land(s1, ev), Land(s2, ev), fuel);
  }

  lemma {:induction false} UnreadFor(w: World, x: string, body: Block, it: int, xs: set<string>, s1: State, s2: State,
                                     fuel: nat)
    requires Unread(body, xs) && SameBut(xs, s1, s2)
    ensures Alike(xs, ExecFor(w, x, body, it, s1, fuel), ExecFor(w, x, body, it, s2, fuel))
    decreases fuel, body, 1
  {
    hide ExecBlock, Unread, SitesOf;
    if fuel > 0 {
      var ev := w.next(it, s1.mem);
      if ev.Val? {
        var t1, t2 := Land(s1, ev).(env := s1.env[x := ev.v]), Land(s2, ev).(env := s2.env[x := ev.v]);
        UnreadAlike(w, body, xs, t1, t2, fuel);
        UnreadFor(w, x, body, it, xs, ExecBlock(w, body, t1, fuel).st, ExecBlock(w, body, t2, fuel).st, fuel - 1);
      }
    }
  }

  lemma {:induction false} UnreadYieldFrom(w: World, it: int, xs: set<string>, s1: State, s2: State, fuel: nat)
    requires SameBut(xs, s1, s2)
    ensures Alike(xs, ExecYieldFrom(w, it, s1, fuel), ExecYieldFrom(w, it, s2, fuel))
    decreases fuel
  {
    if fuel > 0 {
      var ev := w.next(it, s1.mem);
      if ev.Val? { UnreadYieldFrom(w, it, xs, Emit(w, Land(s1, ev)), Emit(w, Land(s2, ev)), fuel - 1); }
    }
  }

  lemma {:induction false} UnreadTry(w: World, s: Stmt, xs: set<string>, s1: State, s2: State, fuel: nat)
    requires s.Try? && UnreadIn(s, xs) && SameBut(xs, s1, s2)
    ensures Alike(xs, PySemantics.Exec(w, s, s1, fuel), PySemantics.Exec(w, s, s2, fuel))
    decreases fuel, s, 1
  {
    hide ExecBlock, ExecCatch, Unread, SitesOf, SitesOfHandlers, UnreadHandlers;
    UnreadGuarded(w, s, xs, s1, s2, fuel);
    if s.fin.Some? {
      UnreadAlike(w, s.fin.value, xs, ExecCatch(w, s, s1, fuel).st, ExecCatch(w, s, s2, fuel).st, fuel);
    }
  }

  lemma {:induction false} UnreadGuarded(w: World, s: Stmt, xs: set<string>, s1: State, s2: State, fuel: nat)
    requires s.Try? && UnreadIn(s, xs) && SameBut(xs, s1, s2)
    ensures Alike(xs, ExecCatch(w, s, s1, fuel), ExecCatch(w, s, s2, fuel))
    decreases fuel, s, 0
  {
    hide ExecBlock, ExecHandlers, Unread, SitesOf, UnreadHandlers;
    var r1, r2 := ExecBlock(w, s.body, s1, fuel), ExecBlock(w, s.body, s2, fuel);
    UnreadAlike(w, s.body, xs, s1, s2, fuel);
    if r1.out.Raised? { UnreadClauses(w, s.handlers, r1.out.obj, xs, r1.st, r2.st, fuel); }
  }

  lemma {:induction false} UnreadClauses(w: World, hs: Handlers, obj: int, xs: set<string>, s1: State, s2: State,
                                         fuel: nat)
    requires UnreadHandlers(hs, xs) && SameBut(xs, s1, s2)
    ensures Alike(xs, ExecHandlers(w, hs, obj, s1, fuel), ExecHandlers(w, hs, obj, s2, fuel))
    decreases fuel, hs, 0
  {
    hide ExecBlock, Unread, SitesOf;
    if hs.Handler? {
      UnreadAlike(w, hs.body, xs, s1.(env := Bind(hs.pat, s1.env, obj), inflight := 0),
                  s2.(env := Bind(hs.pat, s2.env, obj), inflight := 0), fuel);
      UnreadClauses(w, hs.rest, obj, xs, s1, s2, fuel);
    }
  }
}
