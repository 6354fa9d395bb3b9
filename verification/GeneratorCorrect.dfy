/**
 Generators. Calling `__next__` again and again gives what the body yields when
 run straight through, in order, and then StopIteration for ever; between two
 calls nothing is kept but the fields of the object.
 */
module GeneratorCorrect {
  import opened Common
  import opened StmtSyntax
  import opened PySemantics
  import opened Machine
  import opened Lowering
  import opened LabelDiscipline
  import opened Simulation
  import opened Covered
  import opened LoweringSteps
  import opened TrySteps
  import opened LoweringCorrect

  // ---- calls ----

  /** The calls from `m` on return `vs`, one each; the one after that starts in `m2`. */
  ghost predicate Serves(p: Program, m: Mach, vs: seq<int>, m2: Mach)
    decreases |vs|
  {
    if vs == [] then m2 == m
    else exists m1 :: Answers(p, m, RetVal(vs[0]), m1) && m1.hs == [] && Serves(p, Resume(p, m1), vs[1..], m2)
  }

  /** What the calls return is determined by the object and the world. */
  lemma {:induction false} ServesAlike(p: Program, m: Mach, vs: seq<int>, m1: Mach, vs2: seq<int>, m2: Mach)
    requires Serves(p, m, vs, m1) && Serves(p, m, vs2, m2) && |vs| <= |vs2|
    ensures vs <= vs2 && (|vs| == |vs2| ==> m1 == m2)
    decreases |vs|
  {
    hide Answers, Resume;
    if vs != [] {
      var a :| Answers(p, m, RetVal(vs[0]), a) && a.hs == [] && Serves(p, Resume(p, a), vs[1..], m1);
      var b :| Answers(p, m, RetVal(vs2[0]), b) && b.hs == [] && Serves(p, Resume(p, b), vs2[1..], m2);
      AnswersUnique(p, m, RetVal(vs[0]), a, RetVal(vs2[0]), b);
      ServesAlike(p, Resume(p, a), vs[1..], m1, vs2[1..], m2);
      assert vs == [vs[0]] + vs[1..] && vs2 == [vs2[0]] + vs2[1..];
    }
  }

  // ---- a straight run of the machine, cut into calls ----

  /** The first value handed out ends the first call. */
  lemma {:induction false} FirstCall(p: Program, m: Mach, n: nat, t: seq<int>, c: Config)
    returns (m1: Mach, j: nat)
    requires Steps(p, m, n, t, c) && t != []
    ensures Answers(p, m, RetVal(t[0]), m1) && m1.hs == []
    ensures j < n && Steps(p, Resume(p, m1), j, t[1..], c)
    decreases n
  {
    hide Step;
    if Yields(p, m) {
      m1, j := Step(p, m).m, n - 1;
      assert CallFor(p, m, 1) == Done(RetVal(t[0]), m1);
    } else {
      var next := Step(p, m).m;
      m1, j := FirstCall(p, next, n - 1, t, c);
      var k: nat :| CallFor(p, next, k) == Done(RetVal(t[0]), m1);
      assert CallFor(p, m, k + 1) == Done(RetVal(t[0]), m1);
    }
  }

  lemma {:induction false} CutIntoCalls(p: Program, m: Mach, n: nat, t: seq<int>, c: Config)
    returns (m1: Mach, j: nat)
    requires Steps(p, m, n, t, c)
    ensures Serves(p, m, t, m1) && Steps(p, m1, j, [], c) && j <= n
    decreases |t|
  {
    if t == [] {
      m1, j := m, n;
    } else {
      var a, i := FirstCall(p, m, n, t, c);
      m1, j := CutIntoCalls(p, Resume(p, a), i, t[1..], c);
    }
  }

  /** Calls, put back together. */
  lemma {:induction false} JoinCalls(p: Program, m: Mach, t: seq<int>, m1: Mach)
    returns (n: nat)
    requires p.w.gen && Serves(p, m, t, m1)
    ensures Steps(p, m, n, t, Running(m1))
    decreases |t|
  {
    hide Step, Resume;
    if t == [] {
      n := 0;
    } else {
      var a :| Answers(p, m, RetVal(t[0]), a) && a.hs == [] && Serves(p, Resume(p, a), t[1..], m1);
      var k: nat :| CallFor(p, m, k) == Done(RetVal(t[0]), a);
      var i := JoinCalls(p, Resume(p, a), t[1..], m1);
      var j := JoinCall(p, m, k, t[0], a);
      StepsTrans(p, m, j, [t[0]], Resume(p, a), i, t[1..], Running(m1));
      assert [t[0]] + t[1..] == t;
      n := j + i;
    }
  }

  lemma {:induction false} JoinCall(p: Program, m: Mach, k: nat, v: int, a: Mach)
    returns (n: nat)
    requires p.w.gen && CallFor(p, m, k) == Done(RetVal(v), a) && a.hs == []
    ensures Steps(p, m, n, [v], Running(Resume(p, a)))
    decreases k
  {
    hide Step, Resume;
    if Yields(p, m) {
      assert RunFor(p, Resume(p, a), 0) == (Running(Resume(p, a)), []);
      assert [v] + [] == [v];
      n := 1;
    } else {
      assert Step(p, m).Running?;
      var j := JoinCall(p, Step(p, m).m, k - 1, v, a);
      n := j + 1;
    }
  }

  // ---- a generator ----

  /** The object's fields do not overlap and leave room for every site, and the
      labels of the switch were drawn before those of the body. */
  ghost predicate GoodLayout(body: Block, lay: Layout, n: Count) {
    var next := LowerBlock(body, GenCtx(lay), n).next;
    && (n.y, n.yf, n.fi) == (0, 0, 0)
    && Injective(lay.vars) && 0 <= lay.state < lay.yfBase <= lay.fiBase <= lay.value < lay.fields
    && (forall x :: x in lay.vars ==> 0 <= lay.vars[x] < lay.yfBase && lay.vars[x] != lay.state)
    && lay.yfBase + next.yf <= lay.fiBase && lay.fiBase + next.fi <= lay.value
    && lay.exhausted < lay.caseBase && lay.caseBase + next.y < n.id && lay.fields <= n.id
  }

  ghost function GenProgram(w: World, body: Block, lay: Layout, n: Count): Program {
    Program(w, LowerNext(body, lay, LowerBlock(body, GenCtx(lay), n).next.y, n), lay.fields)
  }

  /** The start of a call on an object in its first state, as a new object is. */
  ghost predicate Fresh(lay: Layout, m: Mach) {
    m.pc == 0 && m.hs == [] && Get(m.store, lay.state) == 0
  }

  ghost function Straight(w: World, body: Block, lay: Layout, m: Mach, fuel: nat): Run {
    ExecBlock(w, body, State(EnvOf(lay.vars, m.store), m.mem, m.inflight, m.calls), fuel)
  }

  lemma GenParts(p: Program, w: World, body: Block, lay: Layout, n: Count)
    returns (L: Code, e: nat)
    requires GoodLayout(body, lay, n) && w.gen && p == GenProgram(w, body, lay, n)
    ensures L == LowerBlock(body, GenCtx(lay), n) && e == 2 + |L.ins| && |p.code| == e + 4
    ensures p.code[0] == Switch(lay.state, Cases(lay, L.next.y), lay.exhausted) && p.code[1] == Lbl(lay.caseBase)
    ensures CodeAt(p.code, 2, L.ins)
    ensures p.code[e] == Br(lay.exhausted) && p.code[e + 1] == Lbl(lay.exhausted)
    ensures p.code[e + 2] == SetConst(lay.state, -1) && p.code[e + 3] == ThrowStop
    ensures UniqueLabels(p.code) && GoodCtx(p, GenCtx(lay), TOP, n, L.next)
    ensures p.w == w && p.w.gen && p.fields == lay.fields && n.y == 0
  {
    hide LowerBlock;
    L := LowerBlock(body, GenCtx(lay), n);
    e := 2 + |L.ins|;
    NextLabels(body, lay, L.next.y, n);
    FindAt(p.code, e + 1);
    assert p.code[2..2 + |L.ins|] == L.ins;
  }

  lemma EnterSteps(p: Program, w: World, body: Block, lay: Layout, n: Count, m: Mach)
    requires GoodLayout(body, lay, n) && w.gen && p == GenProgram(w, body, lay, n) && Fresh(lay, m)
    ensures Steps(p, m, 2, [], Running(m.(pc := 2)))
  {
    hide GenProgram, GoodLayout, GoodCtx, CodeAt, Step, RunFor, LowerBlock;
    var L, e := GenParts(p, w, body, lay, n);
    SwitchStep(p, m, lay.state, p.code[0].cases, lay.exhausted);
    var a := m.(pc := Find(p.code, lay.caseBase));
    assert 0 in p.code[0].cases && p.code[0].cases[0] == lay.caseBase;
    SkipLabel(p, a, lay.caseBase, 1);
    Silent(p, m, 1, a, 1, Running(a.(pc := 2)));
  }

  /** What the object and the world look like after StopIteration was raised. */
  ghost function Exhausted(p: Program, lay: Layout, e: nat, m: Mach): Mach {
    m.(pc := e + 3, store := m.store[lay.state := -1], mem := p.w.newStop(m.mem).1, inflight := p.w.newStop(m.mem).0)
  }

  lemma ExhaustSteps(p: Program, w: World, body: Block, lay: Layout, n: Count, m: Mach, e: nat)
    requires GoodLayout(body, lay, n) && w.gen && p == GenProgram(w, body, lay, n) && e + 4 == |p.code|
    requires m.hs == [] && m.pc == Find(p.code, lay.exhausted)
    ensures Steps(p, m, 3, [], Done(Escaped(p.w.newStop(m.mem).0), Exhausted(p, lay, e, m)))
  {
    hide GenProgram, GoodLayout, GoodCtx, CodeAt, RunFor, Find, LowerBlock;
    var L, e2 := GenParts(p, w, body, lay, n);
    SkipLabel(p, m, lay.exhausted, e + 1);
    var a := m.(pc := e + 2);
    var b := m.(pc := e + 3, store := m.store[lay.state := -1]);
    ConstStep(p, a, lay.state, -1);
    Silent(p, m, 1, a, 1, Running(b));
    Advance(p, m, 2, [], b, Step(p, b));
  }

  /** How the run of a generator ends: by itself, with StopIteration and the state at -1,
      or with what the body raised and the state at the last yield site passed (-1 when
      the exception came out of a finally that a return had entered). */
  ghost predicate EndsAs(p: Program, lay: Layout, r: Run, c: Config) {
    match r.out
    case OutOfFuel => c.Running?
    case Returned(x) =>
      c.Done? && c.res == Escaped(x) && c.m.hs == [] && c.m.mem == r.st.mem && Get(c.m.store, lay.state) == -1
    case Raised(x) =>
      c.Done? && c.res == Escaped(x) && c.m.hs == [] && c.m.mem == r.st.mem && Get(c.m.store, lay.state) == r.site
    case _ =>
      && c.Done? && c.res == Escaped(p.w.newStop(r.st.mem).0) && c.m.hs == []
      && c.m.mem == p.w.newStop(r.st.mem).1 && Get(c.m.store, lay.state) == -1
  }

  lemma {:induction false} WholeRun(p: Program, w: World, body: Block, lay: Layout, n: Count, m: Mach, fuel: nat)
    returns (k: nat, c: Config)
    requires GoodLayout(body, lay, n) && w.gen && p == GenProgram(w, body, lay, n) && Fresh(lay, m)
    requires OkBlock(body, true, false, lay.vars.Keys, TOP)
    requires Straight(w, body, lay, m, fuel).faithful
    ensures var r := Straight(w, body, lay, m, fuel);
      Steps(p, m, k, r.trace, c) && EndsAs(p, lay, r, c) && (r.out.OutOfFuel? ==> k >= fuel)
  {
    hide GoodLayout, GenProgram, GoodCtx, CodeAt, RunFor, Step, Find, LowerBlock, ExecBlock, OkBlock, EnvOf, Frame;
    var L, e := GenParts(p, w, body, lay, n);
    var r, ctx := Straight(w, body, lay, m, fuel), GenCtx(lay);
    EnterSteps(p, w, body, lay, n, m);
    var m1 := m.(pc := 2);
    k, c := SimBlock(p, body, ctx, TOP, n, L.next, m1,
                     State(EnvOf(lay.vars, m.store), m.mem, m.inflight, m.calls), fuel);
    ConfinedTop(w, body, lay, m, fuel);
    StepsTrans(p, m, 2, [], m1, k, r.trace, c);
    assert [] + r.trace == r.trace;
    k := 2 + k;
    if r.out.Normal? {
      var x := c.m;
      BrStep(p, x, lay.exhausted);
      StepsTrans(p, m, k, r.trace, x, 1, [], Running(x.(pc := Find(p.code, lay.exhausted))));
      assert r.trace + [] == r.trace;
      k, x := k + 1, x.(pc := Find(p.code, lay.exhausted));
      ExhaustSteps(p, w, body, lay, n, x, e);
      c := Done(Escaped(p.w.newStop(x.mem).0), Exhausted(p, lay, e, x));
      StepsTrans(p, m, k, r.trace, x, 3, [], c);
      assert r.trace + [] == r.trace;
      k := k + 3;
    }
  }

  lemma BrStep(p: Program, m: Mach, l: int)
    requires m.pc < |p.code| && p.code[m.pc] == Br(l)
    ensures Steps(p, m, 1, [], Running(m.(pc := Find(p.code, l))))
  {
    StepsOne(p, m);
  }

  lemma ConfinedTop(w: World, body: Block, lay: Layout, m: Mach, fuel: nat)
    requires OkBlock(body, true, false, lay.vars.Keys, TOP) && w.gen
    ensures var r := Straight(w, body, lay, m, fuel);
      !r.out.Broke? && !r.out.Continued? && r.site >= -1 && (r.out.Returned? ==> r.site == -1 && IsStop(w, r.out.v))
  {
    SiteInText(w, body, State(EnvOf(lay.vars, m.store), m.mem, m.inflight, m.calls), fuel);
    ConfinedBlock(w, body, true, false, lay.vars.Keys, TOP,
                  State(EnvOf(lay.vars, m.store), m.mem, m.inflight, m.calls), fuel);
  }

  // ---- the theorems ----

  /** Each value of a straight run is the answer of one call, in order; the call after
      the last one answers with StopIteration, or raises what the body raised. */
  lemma {:induction false} CallsFollowRun(p: Program, w: World, body: Block, lay: Layout, n: Count, m: Mach, fuel: nat)
    returns (m1: Mach, c: Config)
    requires GoodLayout(body, lay, n) && w.gen && p == GenProgram(w, body, lay, n) && Fresh(lay, m)
    requires OkBlock(body, true, false, lay.vars.Keys, TOP)
    requires Straight(w, body, lay, m, fuel).faithful
    ensures var r := Straight(w, body, lay, m, fuel);
      && Serves(p, m, r.trace, m1) && EndsAs(p, lay, r, c)
      && (!r.out.OutOfFuel? ==> Answers(p, m1, c.res, c.m))
      && (!r.out.OutOfFuel? ==> (Get(c.m.store, lay.state) == -1 <==> !r.out.Raised? || r.site == -1))
  {
    hide GoodLayout, GenProgram, RunFor, Step, LowerBlock, ExecBlock, OkBlock, EnvOf, Serves;
    var k;
    k, c := WholeRun(p, w, body, lay, n, m, fuel);
    var j;
    m1, j := CutIntoCalls(p, m, k, Straight(w, body, lay, m, fuel).trace, c);
    OneCall(p, m1, j, c);
  }

  // ---- a generator left by an exception ----

  /** A call on an object in state `site` gets right behind that resume label. */
  lemma ReentersAt(p: Program, w: World, body: Block, lay: Layout, n: Count, m: Mach, site: nat)
    returns (i: nat)
    requires GoodLayout(body, lay, n) && w.gen && p == GenProgram(w, body, lay, n) && site <= SitesOf(body).y
    requires m.pc == 0 && m.hs == [] && Get(m.store, lay.state) == site
    ensures i < |p.code| && p.code[i] == Lbl(lay.caseBase + site)
    ensures Steps(p, m, 2, [], Running(m.(pc := i + 1)))
  {
    hide GoodCtx, CodeAt, Step, RunFor, LowerBlock, Find, Defs, SitesOf;
    var L, e := GenParts(p, w, body, lay, n);
    SitesUsed(body, GenCtx(lay), n);
    NextLabels(body, lay, L.next.y, n);
    i := Placed(p.code, lay.caseBase + site);
    SwitchStep(p, m, lay.state, p.code[0].cases, lay.exhausted);
    var a := m.(pc := Find(p.code, lay.caseBase + site));
    assert site in p.code[0].cases && p.code[0].cases[site] == lay.caseBase + site;
    SkipLabel(p, a, lay.caseBase + site, i);
    Silent(p, m, 1, a, 1, Running(a.(pc := i + 1)));
  }

  /** A generator left by an exception is not exhausted, unless a return came first: the
      next call starts again right behind the last yield site passed (or at the start of
      the body when none was), with every field as the exception left it. */
  lemma {:induction false} LeftByException(p: Program, w: World, body: Block, lay: Layout, n: Count, m: Mach, fuel: nat)
    returns (m1: Mach, m2: Mach, m3: Mach, i: nat)
    requires GoodLayout(body, lay, n) && w.gen && p == GenProgram(w, body, lay, n) && Fresh(lay, m)
    requires OkBlock(body, true, false, lay.vars.Keys, TOP)
    requires Straight(w, body, lay, m, fuel).faithful && Straight(w, body, lay, m, fuel).out.Raised?
    ensures var r := Straight(w, body, lay, m, fuel);
      && Serves(p, m, r.trace, m1) && Answers(p, m1, Escaped(r.out.obj), m2)
      && -1 <= Get(m2.store, lay.state) == r.site <= SitesOf(body).y
      && if r.site == -1 then Answers(p, Resume(p, m2), Escaped(w.newStop(Resume(p, m2).mem).0), m3)
         else
           && i < |p.code| && p.code[i] == Lbl(lay.caseBase + r.site)
           && Steps(p, Resume(p, m2), 2, [], Running(m3)) && m3.pc == i + 1
           && forall slot :: slot < lay.fields ==> Get(m3.store, slot) == Get(m2.store, slot)
  {
    hide GoodLayout, GenProgram, RunFor, Step, LowerBlock, ExecBlock, OkBlock, EnvOf, Serves, Answers, SitesOf, Steps;
    var c;
    m1, c := CallsFollowRun(p, w, body, lay, n, m, fuel);
    m2 := c.m;
    var r := Straight(w, body, lay, m, fuel);
    SiteInText(w, body, State(EnvOf(lay.vars, m.store), m.mem, m.inflight, m.calls), fuel);
    FieldsSurvive(p, w, lay, m2, body, n);
    if r.site == -1 {
      m3 := ExhaustedCall(p, w, body, lay, n, Resume(p, m2));
      i := 0;
    } else {
      i := ReentersAt(p, w, body, lay, n, Resume(p, m2), r.site);
      m3 := Resume(p, m2).(pc := i + 1);
    }
  }

  lemma FieldsSurvive(p: Program, w: World, lay: Layout, m: Mach, body: Block, n: Count)
    requires GoodLayout(body, lay, n) && w.gen && p == GenProgram(w, body, lay, n)
    ensures Resume(p, m).pc == 0 && Resume(p, m).hs == []
    ensures forall slot :: slot < lay.fields ==> Get(Resume(p, m).store, slot) == Get(m.store, slot)
    ensures 0 <= lay.state < lay.fields && p.w == w
  {
    hide LowerBlock;
  }

  /** Conversely, whatever the calls return is what the body yields. */
  lemma {:induction false} RunFollowsCalls(p: Program, w: World, body: Block, lay: Layout, n: Count, m: Mach,
                                           vs: seq<int>, m1: Mach)
    returns (fuel: nat)
    requires GoodLayout(body, lay, n) && w.gen && p == GenProgram(w, body, lay, n) && Fresh(lay, m)
    requires OkBlock(body, true, false, lay.vars.Keys, TOP)
    requires forall k: nat :: Straight(w, body, lay, m, k).faithful
    requires Serves(p, m, vs, m1)
    ensures vs <= Straight(w, body, lay, m, fuel).trace
  {
    hide GoodLayout, RunFor, Step, LowerBlock, ExecBlock, OkBlock, EnvOf, Serves;
    var s := JoinCalls(p, m, vs, m1);
    fuel := s + 1;
    var r := Straight(w, body, lay, m, fuel);
    var k, c := WholeRun(p, w, body, lay, n, m, fuel);
    if k < s {
      StepsDone(p, m, k, r.trace, c, s);
    } else {
      StepsSplit(p, m, s, vs, m1, k - s, r.trace, c);
    }
  }

  /** A body that neither yields again nor ends keeps the next call from answering. */
  lemma {:induction false} SilentRunNeverAnswers(p: Program, w: World, body: Block, lay: Layout, n: Count, m: Mach,
                                                 vs: seq<int>, m1: Mach, res: Result, m2: Mach)
    requires GoodLayout(body, lay, n) && w.gen && p == GenProgram(w, body, lay, n) && Fresh(lay, m)
    requires OkBlock(body, true, false, lay.vars.Keys, TOP)
    requires forall k: nat :: var r := Straight(w, body, lay, m, k); r.faithful && r.out.OutOfFuel? && r.trace <= vs
    requires Serves(p, m, vs, m1)
    ensures !Answers(p, m1, res, m2)
  {
    hide GoodLayout, RunFor, Step, LowerBlock, ExecBlock, OkBlock, EnvOf, Serves;
    if Answers(p, m1, res, m2) {
      var a: nat :| CallFor(p, m1, a) == Done(res, m2);
      var s := JoinCalls(p, m, vs, m1);
      var fuel := s + a;
      var r := Straight(w, body, lay, m, fuel);
      var k, c := WholeRun(p, w, body, lay, n, m, fuel);
      StepsSplit(p, m, s, vs, m1, k - s, r.trace, c);
      assert r.trace == vs;
      OneCall(p, m1, k - s, c);
      CallStable(p, m1, a, k - s);
    }
  }

  /** Once the state is -1 a call raises StopIteration and leaves the state at -1. */
  lemma ExhaustedCall(p: Program, w: World, body: Block, lay: Layout, n: Count, m: Mach)
    returns (m2: Mach)
    requires GoodLayout(body, lay, n) && w.gen && p == GenProgram(w, body, lay, n)
    requires m.pc == 0 && m.hs == [] && Get(m.store, lay.state) == -1
    ensures Answers(p, m, Escaped(p.w.newStop(m.mem).0), m2)
    ensures Get(m2.store, lay.state) == -1 && m2.hs == []
  {
    hide GoodLayout, GenProgram, GoodCtx, CodeAt, RunFor, Step, LowerBlock;
    var L, e := GenParts(p, w, body, lay, n);
    var a := m.(pc := Find(p.code, lay.exhausted));
    SwitchStep(p, m, lay.state, p.code[0].cases, lay.exhausted);
    assert -1 !in p.code[0].cases;
    ExhaustSteps(p, w, body, lay, n, a, e);
    m2 := Exhausted(p, lay, e, a);
    Silent(p, m, 1, a, 3, Done(Escaped(p.w.newStop(m.mem).0), m2));
    OneCall(p, m, 4, Done(Escaped(p.w.newStop(m.mem).0), m2));
  }

  /** The next `j` calls all raise an instance of StopIteration. */
  ghost predicate OnlyStops(p: Program, m: Mach, j: nat)
    decreases j
  {
    j == 0 ||
    exists x, m2 ::
      Answers(p, m, Escaped(x), m2) && p.w.isA(x, p.w.stopClass) && OnlyStops(p, Resume(p, m2), j - 1)
  }

  lemma {:induction false} StopsForEver(p: Program, w: World, body: Block, lay: Layout, n: Count, m: Mach, j: nat)
    requires GoodLayout(body, lay, n) && w.gen && p == GenProgram(w, body, lay, n)
    requires m.pc == 0 && m.hs == [] && Get(m.store, lay.state) == -1
    requires forall mem :: w.isA(w.newStop(mem).0, w.stopClass)
    ensures OnlyStops(p, m, j)
    decreases j
  {
    hide GoodLayout, LowerBlock, Answers;
    if j > 0 {
      var m2 := ExhaustedCall(p, w, body, lay, n, m);
      StateSurvives(p, lay, m2, body, n);
      StopsForEver(p, w, body, lay, n, Resume(p, m2), j - 1);
      assert Answers(p, m, Escaped(p.w.newStop(m.mem).0), m2) && p.w.isA(p.w.newStop(m.mem).0, p.w.stopClass);
    }
  }

  lemma StateSurvives(p: Program, lay: Layout, m: Mach, body: Block, n: Count)
    requires GoodLayout(body, lay, n) && p.fields == lay.fields
    ensures Get(Resume(p, m).store, lay.state) == Get(m.store, lay.state)
  {
    hide LowerBlock;
  }

  /** A generator whose body ends gives the values the body yields, each by one call,
      and from then on raises StopIteration, however often it is asked. */
  lemma {:induction false} GeneratorMeaning(p: Program, w: World, body: Block, lay: Layout, n: Count, m: Mach,
                                            fuel: nat, j: nat)
    returns (m1: Mach)
    requires GoodLayout(body, lay, n) && w.gen && p == GenProgram(w, body, lay, n) && Fresh(lay, m)
    requires OkBlock(body, true, false, lay.vars.Keys, TOP)
    requires Straight(w, body, lay, m, fuel).faithful
    requires Straight(w, body, lay, m, fuel).out.Normal? || Straight(w, body, lay, m, fuel).out.Returned?
    requires forall mem :: w.isA(w.newStop(mem).0, w.stopClass)
    ensures Serves(p, m, Straight(w, body, lay, m, fuel).trace, m1)
    ensures OnlyStops(p, m1, j)
  {
    hide GoodLayout, LowerBlock, ExecBlock, OkBlock, EnvOf, Serves, Answers;
    var c;
    m1, c := CallsFollowRun(p, w, body, lay, n, m, fuel);
    ConfinedTop(w, body, lay, m, fuel);
    if j > 0 {
      StateSurvives(p, lay, c.m, body, n);
      StopsForEver(p, w, body, lay, n, Resume(p, c.m), j - 1);
    }
  }

  /** A generator left by an exception is not exhausted: this one raises the same
      object at every call, where the language promises StopIteration after the first. */
  lemma RaisingBodyStartsOver(p: Program, w: World, lay: Layout, n: Count, m: Mach, x: int)
    returns (m2: Mach)
    requires var body := Cons(Raise((env, mem) => Val(x, mem, false)), Nil);
      GoodLayout(body, lay, n) && w.gen && p == GenProgram(w, body, lay, n)
    requires Fresh(lay, m)
    ensures Answers(p, m, Escaped(x), m2) && Fresh(lay, Resume(p, m2))
  {
    var e: Expr := (env, mem) => Val(x, mem, false);
    var body := Cons(Raise(e), Nil);
    var L, end := GenParts(p, w, body, lay, n);
    EnterSteps(p, w, body, lay, n, m);
    var a := m.(pc := 2);
    assert L.ins == [Throw(lay.vars, e), Lbl(n.id)];
    CodeAtIndex(p.code, 2, L.ins, 0);
    m2 := a.(inflight := x);
    assert Step(p, a) == Done(Escaped(x), m2);
    Advance(p, m, 2, [], a, Done(Escaped(x), m2));
    OneCall(p, m, 3, Done(Escaped(x), m2));
    StateSurvives(p, lay, m2, body, n);
  }
}
