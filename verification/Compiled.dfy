/**
 From a text to what its calls answer: the conditions of the theorems, on the text alone,
 and what they promise of the code that is emitted for it.
 */
module Compiled {
  import opened Common
  import opened StmtSyntax
  import opened PySemantics
  import opened Machine
  import opened Lowering
  import opened Simulation
  import opened Covered
  import opened Faithful
  import opened GeneratorCorrect
  import opened FunctionCorrect
  import opened GeneratorLayout

  // ---- the names of a covered text ----

  /** A text covered with some names is covered with those that the walk over it finds. */
  lemma {:induction false} FoundNames(b: Block, gen: bool, void: bool, us: set<string>, vs: set<string>, sc: Scope)
    requires OkBlock(b, gen, void, us, sc) && Assigned(b) <= vs
    ensures OkBlock(b, gen, void, vs, sc)
    decreases b, 0
  {
    hide AssignedIn, OkStmt;
    if b.Cons? {
      FoundNamesIn(b.head, gen, void, us, vs, sc);
      FoundNames(b.tail, gen, void, us, vs, sc);
    }
  }

  lemma {:induction false} FoundNamesIn(s: Stmt, gen: bool, void: bool, us: set<string>, vs: set<string>, sc: Scope)
    requires OkStmt(s, gen, void, us, sc) && AssignedIn(s) <= vs
    ensures OkStmt(s, gen, void, vs, sc)
    decreases s, 1
  {
    hide Assigned, AssignedElifs, AssignedHandlers, OkBlock, OkElifs, OkHandlers;
    match s
    case If(_, thn, els) =>
      FoundNames(thn, gen, void, us, vs, sc);
      FoundNamesElifs(els, gen, void, us, vs, sc);
    case While(_, body) => FoundNames(body, gen, void, us, vs, sc.(loopOk := true));
    case ForIter(_, _, body) => FoundNames(body, gen, void, us, vs, sc.(loopOk := true));
    case Try(body, hs, None) =>
      FoundNames(body, gen, void, us, vs, BodyScope(sc, gen));
      FoundNamesHandlers(hs, gen, void, us, vs, sc);
    case Try(body, hs, Some(fin)) =>
      FoundNames(body, gen, void, us, vs, FinallyScope(sc, gen));
      FoundNamesHandlers(hs, gen, void, us, vs, FinallyScope(sc, gen));
      FoundNames(fin, gen, void, us, vs, Scope(false, false, true, sc.inFin));
    case _ =>
  }

  lemma {:induction false} FoundNamesElifs(els: Elifs, gen: bool, void: bool, us: set<string>, vs: set<string>,
                                           sc: Scope)
    requires OkElifs(els, gen, void, us, sc) && AssignedElifs(els) <= vs
    ensures OkElifs(els, gen, void, vs, sc)
    decreases els, 0
  {
    hide Assigned, OkBlock;
    match els
    case NoElse =>
    case Else(b) => FoundNames(b, gen, void, us, vs, sc);
    case Elif(_, b, rest) =>
      FoundNames(b, gen, void, us, vs, sc);
      FoundNamesElifs(rest, gen, void, us, vs, sc);
  }

  lemma {:induction false} FoundNamesHandlers(hs: Handlers, gen: bool, void: bool, us: set<string>, vs: set<string>,
                                              sc: Scope)
    requires OkHandlers(hs, gen, void, us, sc) && AssignedHandlers(hs) <= vs
    ensures OkHandlers(hs, gen, void, vs, sc)
    decreases hs, 0
  {
    hide Assigned, OkBlock;
    if hs.Handler? {
      FoundNames(hs.body, gen, void, us + Bound(hs.pat), vs + Bound(hs.pat), ClauseScope(sc, hs.pat));
      FoundNamesHandlers(hs.rest, gen, void, us, vs, sc);
    }
  }

  // ---- what the compiled code does ----

  /** Every StopIteration that is made is one. */
  ghost predicate StopsAreStops(w: World) { forall mem :: w.isA(w.newStop(mem).0, w.stopClass) }

  /** The calls on a new object answer with what the body yields, one each; the next one
      ends as the body does. Once the body ended by itself or by a return, any number of
      further calls raise StopIteration. */
  ghost predicate Delivers(p: Program, body: Block, lay: Layout) {
    forall m: Mach, fuel: nat :: Fresh(lay, m) ==> DeliversFrom(p, body, lay, m, fuel)
  }

  ghost predicate DeliversFrom(p: Program, body: Block, lay: Layout, m: Mach, fuel: nat) {
    var r := Straight(p.w, body, lay, m, fuel);
    exists m1, c ::
      && Serves(p, m, r.trace, m1) && EndsAs(p, lay, r, c)
      && (!r.out.OutOfFuel? ==> Answers(p, m1, c.res, c.m))
      && (r.out.Normal? || r.out.Returned? ==> forall j: nat :: OnlyStops(p, m1, j))
  }

  lemma GeneratorDelivers(p: Program, w: World, body: Block, lay: Layout, n: Count)
    requires GoodLayout(body, lay, n) && w.gen && p == GenProgram(w, body, lay, n)
    requires OkBlock(body, true, false, lay.vars.Keys, TOP) && QuietFinallies(w, body) && StopsAreStops(w)
    ensures Delivers(p, body, lay)
  {
    hide GoodLayout, GenProgram, OkBlock, QuietFinallies, Straight, Serves, EndsAs, Answers, OnlyStops, StopsAreStops;
    hide LowerBlock, Fresh;
    forall m: Mach, fuel: nat | Fresh(lay, m) ensures DeliversFrom(p, body, lay, m, fuel) {
      OneDelivery(p, w, body, lay, n, m, fuel);
    }
  }

  lemma OneDelivery(p: Program, w: World, body: Block, lay: Layout, n: Count, m: Mach, fuel: nat)
    requires GoodLayout(body, lay, n) && w.gen && p == GenProgram(w, body, lay, n) && Fresh(lay, m)
    requires OkBlock(body, true, false, lay.vars.Keys, TOP) && QuietFinallies(w, body) && StopsAreStops(w)
    ensures DeliversFrom(p, body, lay, m, fuel)
  {
    hide GoodLayout, GenProgram, OkBlock, QuietFinallies, Straight, Serves, EndsAs, Answers, OnlyStops, LowerBlock;
    hide Fresh;
    WorldOf(p, w, body, lay, n);
    NothingThrownAway(w, body, lay, m, fuel);
    var m1, c := CallsFollowRun(p, w, body, lay, n, m, fuel);
    var r := Straight(w, body, lay, m, fuel);
    if r.out.Normal? || r.out.Returned? {
      forall j: nat ensures OnlyStops(p, m1, j) {
        var m2 := GeneratorMeaning(p, w, body, lay, n, m, fuel, j);
        ServesAlike(p, m, r.trace, m1, r.trace, m2);
      }
    }
  }

  lemma WorldOf(p: Program, w: World, body: Block, lay: Layout, n: Count)
    requires p == GenProgram(w, body, lay, n)
    ensures p.w == w
  {
    hide LowerBlock;
  }

  lemma NothingThrownAway(w: World, body: Block, lay: Layout, m: Mach, fuel: nat)
    requires QuietFinallies(w, body)
    ensures Straight(w, body, lay, m, fuel).faithful
  {
    hide QuietFinallies, ExecBlock, EnvOf;
    NothingLost(w, body, State(EnvOf(lay.vars, m.store), m.mem, m.inflight, m.calls), fuel);
  }

  /** A call ends as the body of the function does, with the heap that the body leaves and
      no handler left behind; and only if the body ends. */
  ghost predicate Computes(p: Program, body: Block, void: bool, lay: Layout) {
    forall m: Mach, fuel: nat :: m.pc == 0 && m.hs == [] ==> ComputesFrom(p, body, void, lay, m, fuel)
  }

  ghost predicate ComputesFrom(p: Program, body: Block, void: bool, lay: Layout, m: Mach, fuel: nat) {
    var r := Body(p.w, body, lay, m, fuel);
    exists k: nat :: exists c ::
      && CallFor(p, m, k) == c && StopsAs(r, void, c) && (r.out.OutOfFuel? ==> k >= fuel)
      && (!r.out.OutOfFuel? ==> c.m.hs == [] && c.m.mem == r.st.mem && c.m.inflight == r.st.inflight)
  }

  lemma FunctionComputes(p: Program, w: World, body: Block, void: bool, lay: Layout, n: Count)
    requires GoodFunction(lay, n) && !w.gen && p == FuncProgram(w, body, void, lay, n)
    requires OkBlock(body, false, void, lay.vars.Keys, TOP) && QuietFinallies(w, body)
    ensures Computes(p, body, void, lay)
  {
    hide GoodFunction, OkBlock, QuietFinallies, StopsAs, CallFor, LowerFunc, ExecBlock, EnvOf;
    forall m: Mach, fuel: nat | m.pc == 0 && m.hs == [] ensures ComputesFrom(p, body, void, lay, m, fuel) {
      NothingLost(w, body, State(EnvOf(lay.vars, m.store), m.mem, m.inflight, m.calls), fuel);
      var k, c := FunctionMeaning(p, w, body, void, lay, n, m, fuel);
    }
  }
}
