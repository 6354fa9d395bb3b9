/**
 Ordinary functions: a call does what the body means, with the handler stack on
 every way out as it was on the way in.
 */
module FunctionCorrect {
  import opened Common
  import opened StmtSyntax
  import opened PySemantics
  import opened Machine
  import opened Lowering
  import opened LabelDiscipline
  import opened Simulation
  import opened Covered
  import opened LoweringSteps
  import opened TrySteps
  import opened LoweringCorrect

  /** A function body on its own: no loop and no finally around it. */
  function FuncCtx(void: bool, lay: Layout): Ctx {
    Ctx(false, void, lay, lay.vars, None, None, None)
  }

  ghost predicate GoodFunction(lay: Layout, n: Count) {
    Injective(lay.vars) && lay.fields <= n.id && forall x :: x in lay.vars ==> lay.vars[x] < n.id
  }

  ghost function FuncProgram(w: World, body: Block, void: bool, lay: Layout, n: Count): Program {
    Program(w, LowerFunc(body, FuncCtx(void, lay), n), lay.fields)
  }

  ghost function Body(w: World, body: Block, lay: Layout, m: Mach, fuel: nat): Run {
    ExecBlock(w, body, State(EnvOf(lay.vars, m.store), m.mem, m.inflight, m.calls), fuel)
  }

  /** How the machine stops when the body ends as `r` does. Only a function without
      a return value may run off its end. */
  ghost predicate StopsAs(r: Run, void: bool, c: Config) {
    match r.out
    case OutOfFuel => c.Running?
    case Normal => c == Done(if void then RetVal(0) else Wedged, c.m)
    case Returned(v) => c == Done(RetVal(v), c.m)
    case Raised(x) => c == Done(Escaped(x), c.m)
    case _ => false
  }

  lemma FuncParts(p: Program, w: World, body: Block, void: bool, lay: Layout, n: Count)
    returns (L: Code)
    requires GoodFunction(lay, n) && !w.gen && p == FuncProgram(w, body, void, lay, n) && SitesOf(body).y == 0
    ensures L == LowerBlock(body, FuncCtx(void, lay), n) && CodeAt(p.code, 0, L.ins)
    ensures |p.code| == |L.ins| + 1 && p.code[|L.ins|] == if void then RetVoid else Unreachable
    ensures GoodCtx(p, FuncCtx(void, lay), TOP, n, L.next)
    ensures p.w == w && !p.w.gen
  {
    hide LowerBlock, SitesOf;
    L := LowerBlock(body, FuncCtx(void, lay), n);
    SitesUsed(body, FuncCtx(void, lay), n);
    FuncLabels(body, FuncCtx(void, lay), n);
    assert p.code[0..0 + |L.ins|] == L.ins;
  }

  lemma {:induction false} NoTrace(p: Program, m: Mach, k: nat, t: seq<int>, c: Config)
    requires !p.w.gen && Steps(p, m, k, t, c)
    ensures t == []
    decreases k
  {
    hide Step;
    if k > 0 && Step(p, m).Running? { NoTrace(p, Step(p, m).m, k - 1, t, c); }
  }

  /** A call of an ordinary function ends as its body does, with the heap the body
      leaves and no handler of its own left behind; a body that needs more than
      `fuel` rounds keeps the machine busy for at least `fuel` instructions. */
  lemma {:induction false} FunctionMeaning(p: Program, w: World, body: Block, void: bool, lay: Layout, n: Count,
                                           m: Mach, fuel: nat)
    returns (k: nat, c: Config)
    requires GoodFunction(lay, n) && !w.gen && p == FuncProgram(w, body, void, lay, n) && m.pc == 0 && m.hs == []
    requires OkBlock(body, false, void, lay.vars.Keys, TOP)
    requires Body(w, body, lay, m, fuel).faithful
    ensures var r := Body(w, body, lay, m, fuel);
      && CallFor(p, m, k) == c && StopsAs(r, void, c)
      && (r.out.OutOfFuel? ==> k >= fuel)
      && (!r.out.OutOfFuel? ==> c.m.hs == [] && c.m.mem == r.st.mem && c.m.inflight == r.st.inflight)
  {
    hide GoodCtx, CodeAt, RunFor, Find, LowerBlock, ExecBlock, OkBlock, EnvOf, Frame, SitesOf;
    NoSites(body, false, void, lay.vars.Keys, TOP);
    var L := FuncParts(p, w, body, void, lay, n);
    var r, st := Body(w, body, lay, m, fuel), State(EnvOf(lay.vars, m.store), m.mem, m.inflight, m.calls);
    k, c := SimBlock(p, body, FuncCtx(void, lay), TOP, n, L.next, m, st, fuel);
    ConfinedBlock(w, body, false, void, lay.vars.Keys, TOP, st, fuel);
    NoTrace(p, m, k, r.trace, c);
    if r.out.Normal? {
      var x := c.m;
      c := Step(p, x);
      Advance(p, m, k, [], x, c);
      k := k + 1;
    }
    OneCall(p, m, k, c);
  }

  /** Conversely, a call that ends does so because the body ends, and in the same way. */
  lemma {:induction false} CallFollowsBody(p: Program, w: World, body: Block, void: bool, lay: Layout, n: Count,
                                           m: Mach, res: Result, m2: Mach)
    returns (fuel: nat)
    requires GoodFunction(lay, n) && !w.gen && p == FuncProgram(w, body, void, lay, n) && m.pc == 0 && m.hs == []
    requires OkBlock(body, false, void, lay.vars.Keys, TOP)
    requires forall k: nat :: Body(w, body, lay, m, k).faithful
    requires Answers(p, m, res, m2)
    ensures !Body(w, body, lay, m, fuel).out.OutOfFuel? && StopsAs(Body(w, body, lay, m, fuel), void, Done(res, m2))
  {
    hide GoodFunction, FuncProgram, Body, OkBlock, CallFor;
    var a: nat :| CallFor(p, m, a) == Done(res, m2);
    fuel := a;
    var k, c := FunctionMeaning(p, w, body, void, lay, n, m, fuel);
    CallStable(p, m, a, if a < k then k else a);
    if k < a && c.Done? { CallStable(p, m, k, a); }
  }
}
