/**
 What it means for emitted code to do what a statement does, and how such facts
 are put together. The statements themselves follow in LoweringCorrect.
 */
module Simulation {
  import opened Common
  import opened StmtSyntax
  import opened PySemantics
  import opened Machine
  import opened Lowering
  import opened LabelDiscipline
  import opened Covered

  ghost predicate CodeAt(code: seq<Instr>, pc: nat, ins: seq<Instr>) {
    pc + |ins| <= |code| && code[pc..pc + |ins|] == ins
  }

  lemma CodeAtSplit(code: seq<Instr>, pc: nat, a: seq<Instr>, b: seq<Instr>)
    requires CodeAt(code, pc, a + b)
    ensures CodeAt(code, pc, a) && CodeAt(code, pc + |a|, b)
  {
    assert code[pc..pc + |a|] == (a + b)[..|a|];
    assert code[pc + |a|..pc + |a + b|] == (a + b)[|a|..];
  }

  lemma CodeAt3(code: seq<Instr>, pc: nat, a: seq<Instr>, b: seq<Instr>, c: seq<Instr>)
    requires CodeAt(code, pc, a + (b + c))
    ensures CodeAt(code, pc, a) && CodeAt(code, pc + |a|, b) && CodeAt(code, pc + |a| + |b|, c)
  {
    hide CodeAt;
    CodeAtSplit(code, pc, a, b + c);
    CodeAtSplit(code, pc + |a|, b, c);
  }

  lemma CodeAt4(code: seq<Instr>, pc: nat, a: seq<Instr>, b: seq<Instr>, c: seq<Instr>, d: seq<Instr>)
    requires CodeAt(code, pc, a + (b + (c + d)))
    ensures CodeAt(code, pc, a) && CodeAt(code, pc + |a|, b) && CodeAt(code, pc + |a| + |b|, c)
    ensures CodeAt(code, pc + |a| + |b| + |c|, d)
  {
    hide CodeAt;
    CodeAtSplit(code, pc, a, b + (c + d));
    CodeAt3(code, pc + |a|, b, c, d);
  }

  lemma CodeAt5(code: seq<Instr>, pc: nat, a: seq<Instr>, b: seq<Instr>, c: seq<Instr>, d: seq<Instr>, e: seq<Instr>)
    requires CodeAt(code, pc, a + (b + (c + (d + e))))
    ensures CodeAt(code, pc, a) && CodeAt(code, pc + |a|, b) && CodeAt(code, pc + |a| + |b|, c)
    ensures CodeAt(code, pc + |a| + |b| + |c|, d) && CodeAt(code, pc + |a| + |b| + |c| + |d|, e)
  {
    hide CodeAt;
    CodeAtSplit(code, pc, a, b + (c + (d + e)));
    CodeAt4(code, pc + |a|, b, c, d, e);
  }

  lemma CodeAtIndex(code: seq<Instr>, pc: nat, ins: seq<Instr>, i: nat)
    requires CodeAt(code, pc, ins) && i < |ins|
    ensures pc + i < |code| && code[pc + i] == ins[i]
  {
    assert code[pc..pc + |ins|][i] == ins[i];
  }

  // ---- slots and variables ----

  ghost predicate Injective(vars: Vars) {
    forall x, y :: x in vars && y in vars && vars[x] == vars[y] ==> x == y
  }

  lemma EnvSet(vars: Vars, store: map<int, int>, x: string, v: int)
    requires Injective(vars) && x in vars
    ensures EnvOf(vars, store[vars[x] := v]) == EnvOf(vars, store)[x := v]
  {
  }

  lemma EnvOther(vars: Vars, store: map<int, int>, slot: int, v: int)
    requires slot !in vars.Values
    ensures EnvOf(vars, store[slot := v]) == EnvOf(vars, store)
  {
  }

  // ---- the standing facts about a program and a context ----

  ghost predicate GoodProgram(p: Program, lay: Layout) {
    && UniqueLabels(p.code)
    && p.fields == lay.fields
    && (p.w.gen ==>
        && 0 <= lay.state < lay.fields && 0 <= lay.value < lay.fields && lay.state != lay.value
        && 0 <= lay.yfBase <= lay.fiBase
        && (forall x :: x in lay.vars ==>
              0 <= lay.vars[x] < lay.yfBase && lay.vars[x] != lay.state && lay.vars[x] != lay.value)
        && lay.state < lay.yfBase && lay.fiBase <= lay.value
        && Exhausts(p.code, lay))
  }

  /** The code at the exhaustion label: the state goes to -1 and StopIteration is thrown. */
  ghost predicate Exhausts(code: seq<Instr>, lay: Layout) {
    var e := Find(code, lay.exhausted);
    && e + 2 < |code| && code[e] == Lbl(lay.exhausted)
    && code[e + 1] == SetConst(lay.state, -1) && code[e + 2] == ThrowStop
  }

  /** The switch on the state leads each resume state to its own label. */
  ghost predicate GoodSwitch(p: Program, lay: Layout, top: Count) {
    p.w.gen ==>
      && |p.code| > 0 && p.code[0].Switch? && p.code[0].slot == lay.state
      && forall k {:trigger k in p.code[0].cases} :: 0 < k <= top.y ==>
           k in p.code[0].cases && p.code[0].cases[k] == lay.caseBase + k
  }

  /** `top` bounds the sites of the whole function. */
  ghost predicate GoodCtx(p: Program, ctx: Ctx, sc: Scope, n: Count, top: Count) {
    && GoodProgram(p, ctx.lay) && GoodSwitch(p, ctx.lay, top) && ctx.gen == p.w.gen
    && (ctx.gen ==> !ctx.void && ctx.lay.fiBase + top.fi <= ctx.lay.value && ctx.lay.yfBase + top.yf <= ctx.lay.fiBase)
    && Injective(ctx.vars)
    && ctx.lay.fields <= n.id
    && (forall x {:trigger ctx.vars[x]} :: x in ctx.vars ==> ctx.vars[x] < n.id)
    && (ctx.gen ==> forall x {:trigger ctx.vars[x]} :: x in ctx.vars ==>
          ctx.vars[x] >= ctx.lay.fields || ctx.vars[x] in ctx.lay.vars.Values)
    && (ctx.gen && !sc.inTry ==> ctx.vars == ctx.lay.vars)
    && (sc.inFin <==> ctx.fin.Some?)
    && (sc.inFin ==> sc.inTry)
    && (sc.loopOk ==> ctx.brk.Some? && ctx.cont.Some?)
    && (ctx.brk.Some? <==> ctx.cont.Some?)
    && (ctx.brk.Some? ==> ctx.brk.value < n.id && ctx.cont.value < n.id)
    && (ctx.fin.Some? ==>
          var fin := ctx.fin.value;
          && (fin.brk.Some? <==> fin.cont.Some?)
          && (fin.brk.Some? ==> fin.brk.value < n.id && fin.cont.value < n.id)
          && ctx.lay.fields <= fin.pending < n.id && ctx.lay.fields <= fin.ret < n.id && fin.pending != fin.ret
          && fin.pending !in ctx.vars.Values && fin.ret !in ctx.vars.Values)
  }

  // ---- relation and frame ----

  ghost predicate Rel(ctx: Ctx, m: Mach, st: State) {
    EnvOf(ctx.vars, m.store) == st.env && m.mem == st.mem && m.inflight == st.inflight && m.calls == st.calls
  }

  /** Slots that code emitted between counts `n` and `n2` may write. */
  ghost predicate Writable(ctx: Ctx, n: Count, n2: Count, slot: int) {
    || slot in ctx.vars.Values
    || n.id <= slot < n2.id
    || (ctx.gen && (slot == ctx.lay.state || slot == ctx.lay.value
                    || ctx.lay.yfBase + n.yf <= slot < ctx.lay.yfBase + n2.yf
                    || ctx.lay.fiBase + n.fi <= slot < ctx.lay.fiBase + n2.fi))
    || (ctx.fin.Some? && (slot == ctx.fin.value.pending || slot == ctx.fin.value.ret))
  }

  /** Other fields of the object are kept, and inside a try (where nothing yields)
      other stack slots too. */
  ghost predicate Frame(ctx: Ctx, sc: Scope, n: Count, n2: Count, a: map<int, int>, b: map<int, int>) {
    forall slot {:trigger Get(b, slot)} :: (slot < ctx.lay.fields || sc.inTry) && !Writable(ctx, n, n2, slot) ==>
      Get(b, slot) == Get(a, slot)
  }

  // ---- what it means to simulate ----

  /** Where the machine is after the code for something that ended in `out`. */
  ghost predicate Landed(p: Program, ctx: Ctx, hs: seq<int>, end: nat, out: Outcome, m: Mach) {
    match out
    case OutOfFuel => true
    case Normal => m.pc == end
    case Broke =>
      if BreakRouted(ctx) then m.pc == Find(p.code, ctx.fin.value.entry) && Get(m.store, ctx.fin.value.pending) == BREAK
      else m.pc == Find(p.code, Or(ctx.brk))
    case Continued =>
      if ContinueRouted(ctx) then m.pc == Find(p.code, ctx.fin.value.entry)
        && Get(m.store, ctx.fin.value.pending) == CONTINUE
      else m.pc == Find(p.code, Or(ctx.cont))
    case Returned(v) =>
      if ctx.gen then hs != [] && m.pc == Find(p.code, hs[0]) && m.inflight == v
      else
        && ctx.fin.Some?
        && m.pc == Find(p.code, ctx.fin.value.entry) && Get(m.store, ctx.fin.value.pending) == RETURN
        && (!ctx.void ==> Get(m.store, ctx.fin.value.ret) == v)
    case Raised(x) => hs != [] && m.pc == Find(p.code, hs[0]) && m.inflight == x
  }

  /** The exit goes through the finally that is open around here. */
  predicate Routed(ctx: Ctx, out: Outcome) {
    ctx.fin.Some? && ((out.Returned? && !ctx.gen) || (out.Broke? && BreakRouted(ctx))
                      || (out.Continued? && ContinueRouted(ctx)))
  }

  /** The state field holds the number of the last yield site passed, or -1 when a return
      came after it, or what it held when there was neither. */
  ghost predicate StateIs(ctx: Ctx, n: Count, site: int, a: map<int, int>, b: map<int, int>) {
    ctx.gen ==>
      Get(b, ctx.lay.state) == if site == 0 then Get(a, ctx.lay.state) else if site < 0 then -1 else n.y + site
  }

  /** Only an exit through the open finally writes its pending slot. */
  ghost predicate PendingKept(ctx: Ctx, out: Outcome, a: map<int, int>, b: map<int, int>) {
    ctx.fin.Some? && !Routed(ctx, out) ==> Get(b, ctx.fin.value.pending) == Get(a, ctx.fin.value.pending)
  }

  /** The pending slot of the open finally has not changed, nor has the state field,
      unless a return set it. */
  ghost predicate Marked(ctx: Ctx, site: int, a: map<int, int>, b: map<int, int>) {
    && (ctx.fin.Some? ==> Get(b, ctx.fin.value.pending) == Get(a, ctx.fin.value.pending))
    && (ctx.gen ==> Get(b, ctx.lay.state) == if site < 0 then -1 else Get(a, ctx.lay.state))
  }

  /** Neither of them has changed. */
  ghost predicate Quiet(ctx: Ctx, a: map<int, int>, b: map<int, int>) { Marked(ctx, 0, a, b) }

  /** The function has been left: by returning or by an exception nobody here catches. */
  ghost predicate Left(ctx: Ctx, hs: seq<int>, out: Outcome, res: Result) {
    match out
    case Returned(v) => if ctx.gen then hs == [] && res == Escaped(v) else ctx.fin.None? && res == RetVal(v)
    case Raised(x) => hs == [] && res == Escaped(x)
    case _ => false
  }

  ghost predicate Post(p: Program, ctx: Ctx, sc: Scope, n: Count, n2: Count, m: Mach, end: nat, r: Run, c: Config) {
    if r.out.OutOfFuel? then c.Running?
    else
      && c.m.hs == m.hs
      && c.m.mem == r.st.mem && c.m.inflight == r.st.inflight && c.m.calls == r.st.calls
      && (match c
          case Running(m2) =>
            && Rel(ctx, m2, r.st) && Frame(ctx, sc, n, n2, m.store, m2.store)
            && PendingKept(ctx, r.out, m.store, m2.store) && StateIs(ctx, n, r.site, m.store, m2.store)
            && Landed(p, ctx, m.hs, end, r.out, m2)
          case Done(res, m2) => Left(ctx, m.hs, r.out, res) && StateIs(ctx, n, r.site, m.store, m2.store))
  }

  /** To the machine a return in a generator is the raising of its StopIteration. */
  function AsRaise(gen: bool, out: Outcome): Outcome {
    if gen && out.Returned? then Raised(out.v) else out
  }

  lemma SimReturned(p: Program, ctx: Ctx, sc: Scope, n: Count, n2: Count, m: Mach, end: nat, r: Run, fuel: nat,
                    k: nat, c: Config)
    requires ctx.gen
    ensures Sim(p, ctx, sc, n, n2, m, end, r, fuel, k, c)
      <==> Sim(p, ctx, sc, n, n2, m, end, r.(out := AsRaise(true, r.out)), fuel, k, c)
  {
  }

  /** The code from `m` does what `r` says in `k` steps, unless `r` loses an exception;
      a run cut short after `fuel` rounds takes at least `fuel` steps. */
  ghost predicate Sim(p: Program, ctx: Ctx, sc: Scope, n: Count, n2: Count, m: Mach, end: nat,
                      r: Run, fuel: nat, k: nat, c: Config) {
    r.faithful ==>
      Steps(p, m, k, r.trace, c) && Post(p, ctx, sc, n, n2, m, end, r, c) && (r.out.OutOfFuel? ==> k >= fuel)
  }

  // ---- putting simulations together ----

  lemma FrameTrans(ctx: Ctx, sc: Scope, n: Count, n1: Count, n2: Count,
                   a: map<int, int>, b: map<int, int>, c: map<int, int>)
    requires Grows(n, n1) && Grows(n1, n2)
    requires Frame(ctx, sc, n, n1, a, b) && Frame(ctx, sc, n1, n2, b, c)
    ensures Frame(ctx, sc, n, n2, a, c)
  {
    forall slot | (slot < ctx.lay.fields || sc.inTry) && !Writable(ctx, n, n2, slot)
      ensures Get(c, slot) == Get(a, slot)
    {
      assert Get(b, slot) == Get(a, slot);
    }
  }

  lemma FrameWiden(ctx: Ctx, sc: Scope, n: Count, n1: Count, n2: Count, n3: Count, a: map<int, int>, b: map<int, int>)
    requires Grows(n, n1) && Grows(n2, n3)
    requires Frame(ctx, sc, n1, n2, a, b)
    ensures Frame(ctx, sc, n, n3, a, b)
  {
  }

  /** Sites counted from further up in the text. */
  lemma SimFrom(p: Program, ctx: Ctx, sc: Scope, n: Count, n2: Count, y: nat, m: Mach, end: nat,
                r: Run, fuel: nat, k: nat, c: Config)
    requires Sim(p, ctx, sc, n, n2, m, end, r, fuel, k, c) && y <= n.y
    ensures Sim(p, ctx, sc, n.(y := y), n2, m, end, From(n.y - y, r), fuel, k, c)
  {
    if r.faithful && !r.out.OutOfFuel? && c.Running? {
      FrameY(ctx, sc, n, n2, y, m.store, c.m.store);
    }
  }

  lemma FrameY(ctx: Ctx, sc: Scope, n: Count, n2: Count, y: nat, a: map<int, int>, b: map<int, int>)
    requires Frame(ctx, sc, n, n2, a, b)
    ensures Frame(ctx, sc, n.(y := y), n2, a, b) && Frame(ctx, sc, n, n2.(y := y), a, b)
  {
  }

  lemma SimWidenY(p: Program, ctx: Ctx, sc: Scope, n: Count, n2: Count, m: Mach, end: nat, r: Run, fuel: nat, k: nat,
                  c: Config)
    requires Sim(p, ctx, sc, n, n, m, end, r, fuel, k, c) && n2 == n.(y := n2.y)
    ensures Sim(p, ctx, sc, n, n2, m, end, r, fuel, k, c)
  {
    if r.faithful && !r.out.OutOfFuel? && c.Running? {
      FrameY(ctx, sc, n, n, n2.y, m.store, c.m.store);
    }
  }

  /** `r` runs to its normal end, then `r2`. */
  lemma SimSeq(p: Program, ctx: Ctx, sc: Scope, n: Count, n1: Count, n2: Count, m: Mach, mid: nat, end: nat,
               r: Run, r2: Run, fuel: nat, k: nat, c: Config, k2: nat, c2: Config)
    requires Grows(n, n1) && Grows(n1, n2)
    requires Sim(p, ctx, sc, n, n1, m, mid, r, fuel, k, c) && r.out.Normal?
    requires r.faithful ==> c.Running?
    requires r.faithful && c.Running? ==> Sim(p, ctx, sc, n1.(y := n.y), n2, c.m, end, r2, fuel, k2, c2)
    ensures Sim(p, ctx, sc, n, n2, m, end, After(r, r2), fuel, k + k2, c2)
  {
    if r.faithful && r2.faithful {
      StepsTrans(p, m, k, r.trace, c.m, k2, r2.trace, c2);
      if !r2.out.OutOfFuel? && c2.Running? {
        FrameY(ctx, sc, n1.(y := n.y), n2, n1.y, c.m.store, c2.m.store);
        FrameTrans(ctx, sc, n, n1, n2, m.store, c.m.store, c2.m.store);
      }
    }
  }

  /** Code that only moves the machine from `m` to `m1` runs first. */
  lemma SimPrefix(p: Program, ctx: Ctx, sc: Scope, n: Count, n1: Count, n2: Count, n3: Count, m: Mach, m1: Mach,
                  end: nat, r: Run, fuel: nat, fuel2: nat, j: nat, k: nat, c: Config)
    requires Grows(n, n1) && Grows(n1, n2) && Grows(n2, n3)
    requires Steps(p, m, j, [], Running(m1)) && m1.hs == m.hs && Frame(ctx, sc, n, n1, m.store, m1.store)
    requires Quiet(ctx, m.store, m1.store) && n1.y == n.y
    requires Sim(p, ctx, sc, n1, n2, m1, end, r, fuel, k, c) && fuel2 <= fuel + j
    ensures Sim(p, ctx, sc, n, n3, m, end, r, fuel2, j + k, c)
  {
    if r.faithful {
      StepsTrans(p, m, j, [], m1, k, r.trace, c);
      assert [] + r.trace == r.trace;
      if !r.out.OutOfFuel? && c.Running? {
        FrameTrans(ctx, sc, n, n1, n2, m.store, m1.store, c.m.store);
        FrameWiden(ctx, sc, n, n, n2, n3, m.store, c.m.store);
      }
    }
  }

  /** After a normal end, code that only moves the machine on to `end2`. */
  lemma SimSuffix(p: Program, ctx: Ctx, sc: Scope, n: Count, n2: Count, m: Mach, end: nat, end2: nat,
                  r: Run, fuel: nat, k: nat, c: Config, j: nat, m2: Mach)
    requires Sim(p, ctx, sc, n, n2, m, end, r, fuel, k, c) && r.out.Normal?
    requires r.faithful ==> c.Running?
    requires r.faithful && c.Running? ==> Steps(p, c.m, j, [], Running(m2)) && m2 == c.m.(pc := end2)
    ensures Sim(p, ctx, sc, n, n2, m, end2, r, fuel, k + j, Running(m2))
  {
    if r.faithful {
      StepsTrans(p, m, k, r.trace, c.m, j, [], Running(m2));
      assert r.trace + [] == r.trace;
    }
  }

  /** The end only matters to a run that ends normally. */
  lemma SimElsewhere(p: Program, ctx: Ctx, sc: Scope, n: Count, n2: Count, m: Mach, end: nat, end2: nat,
                     r: Run, fuel: nat, k: nat, c: Config)
    requires Sim(p, ctx, sc, n, n2, m, end, r, fuel, k, c) && !r.out.Normal?
    ensures Sim(p, ctx, sc, n, n2, m, end2, r, fuel, k, c)
  {
  }

  /** One more instruction at the end of a run of instructions. */
  lemma Advance(p: Program, m: Mach, j: nat, t: seq<int>, m1: Mach, c: Config)
    requires Steps(p, m, j, t, Running(m1)) && !Yields(p, m1) && Step(p, m1) == c
    ensures Steps(p, m, j + 1, t, c)
  {
    StepsOne(p, m1);
    StepsTrans(p, m, j, t, m1, 1, [], c);
    assert t + [] == t;
  }

  /** Two silent stretches, one after the other. */
  lemma Silent(p: Program, m: Mach, a: nat, m1: Mach, b: nat, c: Config)
    requires Steps(p, m, a, [], Running(m1)) && Steps(p, m1, b, [], c)
    ensures Steps(p, m, a + b, [], c)
  {
    StepsTrans(p, m, a, [], m1, b, [], c);
    var none: seq<int> := [];
    assert none + none == none;
  }

  /** One round of a loop, then the rest of the loop. */
  lemma SimRound(p: Program, ctx: Ctx, sc: Scope, n: Count, n2: Count, m: Mach, mid: nat, end: nat,
                 r: Run, r2: Run, fuel: nat, k: nat, c: Config, k2: nat, c2: Config)
    requires fuel > 0 && k > 0 && Grows(n, n2)
    requires Sim(p, ctx, sc, n, n2, m, mid, r, fuel, k, c) && r.out.Normal?
    requires r.faithful ==> c.Running?
    requires r.faithful && c.Running? ==> Sim(p, ctx, sc, n, n2, c.m, end, r2, fuel - 1, k2, c2)
    ensures Sim(p, ctx, sc, n, n2, m, end, After(r, r2), fuel, k + k2, c2)
  {
    if r.faithful && r2.faithful {
      StepsTrans(p, m, k, r.trace, c.m, k2, r2.trace, c2);
      if !r2.out.OutOfFuel? && c2.Running? {
        forall slot | (slot < ctx.lay.fields || sc.inTry) && !Writable(ctx, n, n2, slot)
          ensures Get(c2.m.store, slot) == Get(m.store, slot)
        {
          assert Get(c.m.store, slot) == Get(m.store, slot);
        }
      }
    }
  }

  /** The body of a loop, seen from outside the loop: a normal end or a continue is back
      at the head, a break is past the end, and anything else is where it was. */
  lemma SimLoopBody(p: Program, ctx: Ctx, sc: Scope, n: Count, n2: Count, m: Mach, bodyEnd: nat, head: nat, end: nat,
                    brk: int, cont: int, r: Run, fuel: nat, k: nat, c: Config)
    returns (k2: nat, c2: Config)
    requires UniqueLabels(p.code)
    requires bodyEnd < |p.code| && p.code[bodyEnd] == Br(cont)
    requires 0 < head <= |p.code| && p.code[head - 1] == Lbl(cont)
    requires 0 < end <= |p.code| && p.code[end - 1] == Lbl(brk)
    requires ctx.fin.Some? ==> ctx.fin.value.brk != Some(brk) && ctx.fin.value.cont != Some(cont)
    requires Sim(p, LoopCtx(ctx, brk, cont), sc.(loopOk := true), n, n2, m, bodyEnd, r, fuel, k, c)
    ensures k2 >= k
    ensures var ends := r.out.Normal? || r.out.Continued? || r.out.Broke?;
      && Sim(p, ctx, sc, n, n2, m, if r.out.Broke? then end else head,
             if ends then r.(out := Normal) else r, fuel, k2, c2)
      && (ends && r.faithful ==> c2.Running?)
  {
    k2, c2 := k, c;
    hide RunFor, Step, EnvOf;
    if r.faithful && !r.out.OutOfFuel? && c.Running? {
      FrameLoop(ctx, sc, brk, cont, n, n2, m.store, c.m.store);
    }
    hide Frame, Writable;
    if r.out.Normal? || r.out.Continued? || r.out.Broke? {
      if r.faithful {
        var t := if r.out.Broke? then end else head;
        var j := BackSteps(p, c.m, bodyEnd, t, if r.out.Broke? then brk else cont, r.out.Normal?);
        k2, c2 := k + j, Running(c.m.(pc := t));
        hide Find;
        StepsTrans(p, m, k, r.trace, c.m, j, [], c2);
        assert r.trace + [] == r.trace;
      }
    }
  }

  lemma FrameLoop(ctx: Ctx, sc: Scope, brk: int, cont: int, n: Count, n2: Count, a: map<int, int>, b: map<int, int>)
    requires Frame(LoopCtx(ctx, brk, cont), sc.(loopOk := true), n, n2, a, b)
    ensures Frame(ctx, sc, n, n2, a, b)
  {
    assert forall slot {:trigger Writable(ctx, n, n2, slot)} ::
        Writable(ctx, n, n2, slot) == Writable(LoopCtx(ctx, brk, cont), n, n2, slot);
  }

  lemma BackSteps(p: Program, m: Mach, bodyEnd: nat, t: nat, l: int, br: bool)
    returns (j: nat)
    requires UniqueLabels(p.code) && 0 < t <= |p.code| && p.code[t - 1] == Lbl(l)
    requires if br then m.pc == bodyEnd < |p.code| && p.code[bodyEnd] == Br(l) else m.pc == Find(p.code, l)
    ensures Steps(p, m, j, [], Running(m.(pc := t)))
  {
    FindAt(p.code, t - 1);
    StepsOne(p, m);
    j := 1;
    if br {
      Advance(p, m, 1, [], m.(pc := t - 1), Running(m.(pc := t)));
      j := 2;
    }
  }
}
