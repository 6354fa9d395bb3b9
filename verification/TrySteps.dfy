/**
 The same for try: the clauses, the handler pushed and popped, the pending and phase
 slots, and the switch that ends a finally.
 */
module TrySteps {
  import opened Common
  import opened StmtSyntax
  import opened PySemantics
  import opened Machine
  import opened Lowering
  import opened LabelDiscipline
  import opened Simulation
  import opened Covered
  import opened LoweringSteps

  // ---- except clauses ----

  function Binds(pat: Pattern): nat { if pat.TypedAs? then 1 else 0 }

  lemma HandlerParts(p: Program, hs: Handlers, after: int, ctx: Ctx, n: Count, pc: nat)
    returns (a: Code, z: Code, body: nat, mid: nat)
    requires hs.Handler? && CodeAt(p.code, pc, LowerHandlers(hs, after, ctx, n).ins)
    ensures a == LowerBlock(hs.body, HandlerCtx(ctx, hs.pat, n.id + 2), n.(id := n.id + 3))
    ensures z == LowerHandlers(hs.rest, after, ctx, a.next) && z.next == LowerHandlers(hs, after, ctx, n).next
    ensures body == pc + 3 + Binds(hs.pat) && mid == body + |a.ins| && mid + 1 < |p.code|
    ensures mid + 2 + |z.ins| == pc + |LowerHandlers(hs, after, ctx, n).ins|
    ensures p.code[pc] == IfExc(hs.pat, n.id, n.id + 1) && p.code[pc + 1] == Lbl(n.id)
    ensures hs.pat.TypedAs? ==> p.code[pc + 2] == BindExc(n.id + 2)
    ensures p.code[body - 1] == Clear && CodeAt(p.code, body, a.ins)
    ensures p.code[mid] == Br(after) && p.code[mid + 1] == Lbl(n.id + 1) && CodeAt(p.code, mid + 2, z.ins)
  {
    hide LowerBlock, CodeAt;
    var f := n.id;
    a := LowerBlock(hs.body, HandlerCtx(ctx, hs.pat, f + 2), n.(id := f + 3));
    z := LowerHandlers(hs.rest, after, ctx, a.next);
    body := pc + 3 + Binds(hs.pat);
    mid := body + |a.ins|;
    var head, skip := HandlerHead(hs.pat, f), [Br(after), Lbl(f + 1)];
    CodeAt4(p.code, pc, head, a.ins, skip, z.ins);
    CodeAtIndex(p.code, pc, head, 0);
    CodeAtIndex(p.code, pc, head, 1);
    CodeAtIndex(p.code, pc, head, 2);
    CodeAtIndex(p.code, pc, head, |head| - 1);
    CodeAtIndex(p.code, mid, skip, 0);
    CodeAtIndex(p.code, mid, skip, 1);
  }

  /** The test of one clause, taken: bind, clear, and on to its body. */
  lemma HandlerEnter(p: Program, m: Mach, pat: Pattern, f: int, pc: nat)
    returns (k: nat, m1: Mach)
    requires UniqueLabels(p.code) && m.pc == pc && pc + 3 + Binds(pat) <= |p.code| && Matches(p.w, pat, m.inflight)
    requires p.code[pc] == IfExc(pat, f, f + 1) && p.code[pc + 1] == Lbl(f)
    requires pat.TypedAs? ==> p.code[pc + 2] == BindExc(f + 2)
    requires p.code[pc + 2 + Binds(pat)] == Clear
    ensures Steps(p, m, k, [], Running(m1))
    ensures m1 == m.(pc := pc + 3 + Binds(pat), inflight := 0,
                     store := if pat.TypedAs? then m.store[f + 2 := m.inflight] else m.store)
  {
    hide RunFor, Find;
    var a := m.(pc := Find(p.code, f));
    StepsOne(p, m);
    assert Step(p, m) == Running(a);
    SkipLabel(p, a, f, pc + 1);
    var b := a.(pc := pc + 2);
    Silent(p, m, 1, a, 1, Running(b));
    k, m1 := 2, b;
    if pat.TypedAs? {
      m1 := b.(pc := pc + 3, store := m.store[f + 2 := m.inflight]);
      assert Step(p, b) == Running(m1);
      Advance(p, m, 2, [], b, Running(m1));
      k := 3;
    }
    var m2 := m1.(pc := m1.pc + 1, inflight := 0);
    assert Step(p, m1) == Running(m2);
    Advance(p, m, k, [], m1, Running(m2));
    k, m1 := k + 1, m2;
  }

  lemma HandlerSkip(p: Program, m: Mach, pat: Pattern, f: int, pc: nat, next: nat)
    requires UniqueLabels(p.code) && m.pc == pc < |p.code| && !Matches(p.w, pat, m.inflight)
    requires p.code[pc] == IfExc(pat, f, f + 1) && next < |p.code| && p.code[next] == Lbl(f + 1)
    ensures Steps(p, m, 2, [], Running(m.(pc := next + 1)))
  {
    var a := m.(pc := Find(p.code, f + 1));
    StepsOne(p, m);
    SkipLabel(p, a, f + 1, next);
    Silent(p, m, 1, a, 1, Running(a.(pc := next + 1)));
  }

  lemma GoodHandler(p: Program, ctx: Ctx, sc: Scope, n: Count, top: Count, pat: Pattern)
    requires GoodCtx(p, ctx, sc, n, top)
    ensures GoodCtx(p, HandlerCtx(ctx, pat, n.id + 2), ClauseScope(sc, pat), n.(id := n.id + 3), top)
    ensures HandlerCtx(ctx, pat, n.id + 2).vars.Keys == ctx.vars.Keys + Bound(pat)
  {
    hide GoodProgram, GoodSwitch;
    assert HandlerCtx(ctx, pat, n.id + 2).lay == ctx.lay;
    if pat.TypedAs? { OneMore(ctx.vars, pat.name, n.id + 2); }
  }

  lemma OneMore(vars: Vars, x: string, slot: int)
    requires Injective(vars) && forall y {:trigger vars[y]} :: y in vars ==> vars[y] < slot
    ensures Injective(vars[x := slot]) && vars[x := slot].Keys == vars.Keys + {x}
    ensures forall s :: s in vars[x := slot].Values ==> s == slot || s in vars.Values
  {
    forall s | s in vars[x := slot].Values ensures s == slot || s in vars.Values {
      var y :| y in vars[x := slot] && vars[x := slot][y] == s;
      if y != x { assert vars[y] == s; }
    }
  }

  lemma BindEnv(p: Program, ctx: Ctx, sc: Scope, n: Count, top: Count, pat: Pattern, store: map<int, int>, obj: int)
    returns (after: map<int, int>)
    requires GoodCtx(p, ctx, sc, n, top)
    ensures after == if pat.TypedAs? then store[n.id + 2 := obj] else store
    ensures EnvOf(HandlerCtx(ctx, pat, n.id + 2).vars, after) == Bind(pat, EnvOf(ctx.vars, store), obj)
    ensures Frame(ctx, sc, n, n.(id := n.id + 3), store, after) && Quiet(ctx, store, after)
  {
    hide EnvOf;
    after := if pat.TypedAs? then store[n.id + 2 := obj] else store;
    if pat.TypedAs? {
      EnvOther(ctx.vars, store, n.id + 2, obj);
      BindMap(ctx.vars, after, pat.name, n.id + 2);
    }
  }

  lemma BindMap(vars: Vars, store: map<int, int>, x: string, slot: int)
    ensures EnvOf(vars[x := slot], store) == EnvOf(vars, store)[x := Get(store, slot)]
  {
  }

  /** What a clause may write, seen from outside it. */
  lemma ClauseFrame(p: Program, ctx: Ctx, sc: Scope, n: Count, n2: Count, top: Count, pat: Pattern,
                    before: map<int, int>, a: map<int, int>, b: map<int, int>)
    requires GoodCtx(p, ctx, sc, n, top) && Grows(n.(id := n.id + 3), n2) && Grows(n2, top)
    requires Frame(ctx, sc, n, n.(id := n.id + 3), before, a)
    requires Frame(HandlerCtx(ctx, pat, n.id + 2), ClauseScope(sc, pat), n.(id := n.id + 3), n2, a, b)
    ensures Frame(ctx, sc, n, n2, before, b)
  {
    hide EnvOf, GoodProgram, GoodSwitch;
    var inner := HandlerCtx(ctx, pat, n.id + 2);
    forall slot | (slot < ctx.lay.fields || sc.inTry) && !Writable(ctx, n, n2, slot)
      ensures Get(b, slot) == Get(before, slot) {
      assert !Writable(inner, n.(id := n.id + 3), n2, slot);
      assert Get(a, slot) == Get(before, slot);
    }
  }

  /** Back outside a clause, its name means again what it meant before. */
  lemma UnbindEnv(p: Program, ctx: Ctx, sc: Scope, n: Count, n2: Count, top: Count, pat: Pattern,
                  obj: int, before: map<int, int>, a: map<int, int>, b: map<int, int>)
    requires GoodCtx(p, ctx, sc, n, top) && Grows(n.(id := n.id + 3), n2) && Grows(n2, top)
    requires Frame(HandlerCtx(ctx, pat, n.id + 2), ClauseScope(sc, pat), n.(id := n.id + 3), n2, a, b)
    requires a == if pat.TypedAs? then before[n.id + 2 := obj] else before
    ensures EnvOf(ctx.vars, b) == Unbind(pat, EnvOf(ctx.vars, before), EnvOf(HandlerCtx(ctx, pat, n.id + 2).vars, b))
  {
    hide GoodProgram, GoodSwitch, EnvOf, Writable, Unbind;
    if pat.TypedAs? {
      if pat.name in ctx.vars {
        NotWritable(p, ctx, sc, n, n2, top, pat);
        assert Get(b, ctx.vars[pat.name]) == Get(a, ctx.vars[pat.name]);
      }
      UnbindMap(pat, ctx.vars, n.id + 2, before, b);
    } else {
      UnbindNone(pat, ctx.vars, before, b);
    }
  }

  lemma UnbindNone(pat: Pattern, vars: Vars, before: map<int, int>, b: map<int, int>)
    requires !pat.TypedAs?
    ensures EnvOf(vars, b) == Unbind(pat, EnvOf(vars, before), EnvOf(vars, b))
  {
  }

  lemma UnbindMap(pat: Pattern, vars: Vars, slot: int, before: map<int, int>, b: map<int, int>)
    requires pat.TypedAs? && (pat.name in vars ==> Get(b, vars[pat.name]) == Get(before, vars[pat.name]))
    ensures EnvOf(vars, b) == Unbind(pat, EnvOf(vars, before), EnvOf(vars[pat.name := slot], b))
  {
  }

  lemma NotWritable(p: Program, ctx: Ctx, sc: Scope, n: Count, n2: Count, top: Count, pat: Pattern)
    requires GoodCtx(p, ctx, sc, n, top) && pat.TypedAs? && pat.name in ctx.vars && Grows(n2, top)
    ensures !Writable(HandlerCtx(ctx, pat, n.id + 2), n.(id := n.id + 3), n2, ctx.vars[pat.name])
  {
  }

  /** The body of the clause that matched, seen from outside the clause. */
  lemma SimClause(p: Program, ctx: Ctx, sc: Scope, n: Count, n2: Count, n3: Count, top: Count, m: Mach, m1: Mach,
                  pat: Pattern, obj: int, end: nat, r: Run, env: Env, fuel: nat, j: nat, k: nat, c: Config)
    requires GoodCtx(p, ctx, sc, n, top) && Grows(n.(id := n.id + 3), n2) && Grows(n2, n3) && Grows(n3, top)
    requires Steps(p, m, j, [], Running(m1)) && m1.hs == m.hs && EnvOf(ctx.vars, m.store) == env
    requires m1.store == if pat.TypedAs? then m.store[n.id + 2 := obj] else m.store
    requires Sim(p, HandlerCtx(ctx, pat, n.id + 2), ClauseScope(sc, pat), n.(id := n.id + 3), n2,
                 m1, end, r, fuel, k, c)
    ensures Sim(p, ctx, sc, n, n3, m, end, r.(st := r.st.(env := Unbind(pat, env, r.st.env))), fuel, j + k, c)
  {
    hide RunFor, Step, Find, GoodCtx, EnvOf, Writable, Frame;
    if r.faithful {
      StepsTrans(p, m, j, [], m1, k, r.trace, c);
      assert [] + r.trace == r.trace;
      var after := BindEnv(p, ctx, sc, n, top, pat, m.store, obj);
      if !r.out.OutOfFuel? && c.Running? {
        UnbindEnv(p, ctx, sc, n, n2, top, pat, obj, m.store, m1.store, c.m.store);
        ClauseFrame(p, ctx, sc, n, n2, top, pat, m.store, m1.store, c.m.store);
        FrameWiden(ctx, sc, n, n, n2, n3, m.store, c.m.store);
      }
    }
  }

  lemma NoHandlers(w: World, after: int, ctx: Ctx, n: Count, st: State, fuel: nat)
    ensures LowerHandlers(NoHandler, after, ctx, n) == Code([], n)
    ensures ExecHandlers(w, NoHandler, st.inflight, st, fuel) == Stop(Raised(st.inflight), st)
  {
  }

  lemma HandlersRest(w: World, hs: Handlers, obj: int, st: State, fuel: nat)
    requires hs.Handler? && !Matches(w, hs.pat, obj)
    ensures ExecHandlers(w, hs, obj, st, fuel) == From(SitesOf(hs.body).y, ExecHandlers(w, hs.rest, obj, st, fuel))
  {
  }

  // ---- try without finally ----

  /** After `r` the machine is at `m2`, on the same handler stack; then `r2`. */
  lemma SimJoin(p: Program, ctx: Ctx, sc: Scope, sc2: Scope, n: Count, n1: Count, n2: Count, m: Mach, m2: Mach,
                end: nat, r: Run, r2: Run, fuel: nat, j: nat, k: nat, c: Config)
    requires Grows(n, n1) && Grows(n1, n2) && (sc.inTry ==> sc2.inTry) && n1.y == n.y && r.site <= 0
    requires r.faithful ==> Steps(p, m, j, r.trace, Running(m2)) && m2.hs == m.hs
    requires r.faithful ==> Frame(ctx, sc, n, n1, m.store, m2.store) && Marked(ctx, r.site, m.store, m2.store)
    requires r.faithful ==> Sim(p, ctx, sc2, n1, n2, m2, end, r2, fuel, k, c)
    ensures Sim(p, ctx, sc, n, n2, m, end, After(r, r2), fuel, j + k, c)
  {
    hide RunFor, Step, Find, EnvOf, Writable;
    if r.faithful && r2.faithful {
      StepsTrans(p, m, j, r.trace, m2, k, r2.trace, c);
      if !r2.out.OutOfFuel? && c.Running? {
        FrameNarrow(ctx, sc, sc2, n1, n2, m2.store, c.m.store);
        FrameTrans(ctx, sc, n, n1, n2, m.store, m2.store, c.m.store);
      }
    }
  }

  lemma FrameNarrow(ctx: Ctx, sc: Scope, sc2: Scope, n: Count, n2: Count, a: map<int, int>, b: map<int, int>)
    requires (sc.inTry ==> sc2.inTry) && Frame(ctx, sc2, n, n2, a, b)
    ensures Frame(ctx, sc, n, n2, a, b)
  {
  }

  lemma SimRethrow(p: Program, ctx: Ctx, sc: Scope, n: Count, m: Mach, m1: Mach, end: nat, st: State, fuel: nat, j: nat)
    returns (c: Config)
    requires Rel(ctx, m, st) && Steps(p, m, j, [], Running(m1)) && m1 == m.(pc := m1.pc)
    requires m1.pc < |p.code| && p.code[m1.pc] == Rethrow
    ensures Sim(p, ctx, sc, n, n, m, end, Stop(Raised(st.inflight), st), fuel, j + 1, c)
  {
    c := Step(p, m1);
    Advance(p, m, j, [], m1, c);
  }

  lemma SimOutOfFuel(p: Program, ctx: Ctx, ctx2: Ctx, sc: Scope, sc2: Scope, n: Count, n2: Count, n3: Count, n4: Count,
                     m: Mach, m1: Mach, end: nat, end2: nat, r: Run, fuel: nat, j: nat, k: nat, c: Config)
    requires Steps(p, m, j, [], Running(m1)) && r.out.OutOfFuel?
    requires Sim(p, ctx2, sc2, n3, n4, m1, end2, r, fuel, k, c)
    ensures Sim(p, ctx, sc, n, n2, m, end, r, fuel, j + k, c)
  {
    hide RunFor, Step;
    if r.faithful {
      StepsTrans(p, m, j, [], m1, k, r.trace, c);
      assert [] + r.trace == r.trace;
    }
  }

  lemma TryParts(p: Program, s: Stmt, ctx: Ctx, n: Count, pc: nat)
    returns (a: Code, z: Code, q: nat, u: nat)
    requires s.Try? && CodeAt(p.code, pc, LowerTry(s, ctx, n).ins)
    ensures a == LowerBlock(s.body, ctx, n.(id := n.id + 3)) && z == LowerHandlers(s.handlers, n.id + 2, ctx, a.next)
    ensures z.next == LowerTry(s, ctx, n).next && q == pc + 2 + |a.ins| && u == q + 4 + |z.ins|
    ensures u + 2 == pc + |LowerTry(s, ctx, n).ins| && u + 1 < |p.code|
    ensures p.code[pc] == Push(n.id + 1, n.id) && p.code[pc + 1] == Lbl(n.id) && CodeAt(p.code, pc + 2, a.ins)
    ensures p.code[q] == Pop && p.code[q + 1] == Br(n.id + 2) && p.code[q + 2] == Lbl(n.id + 1) && p.code[q + 3] == Pop
    ensures CodeAt(p.code, q + 4, z.ins) && p.code[u] == Rethrow && p.code[u + 1] == Lbl(n.id + 2)
  {
    hide LowerBlock, LowerHandlers, CodeAt;
    a := LowerBlock(s.body, ctx, n.(id := n.id + 3));
    z := LowerHandlers(s.handlers, n.id + 2, ctx, a.next);
    q := pc + 2 + |a.ins|;
    u := q + 4 + |z.ins|;
    var head, mid, tail := [Push(n.id + 1, n.id), Lbl(n.id)], [Pop, Br(n.id + 2), Lbl(n.id + 1), Pop],
        [Rethrow, Lbl(n.id + 2)];
    CodeAt5(p.code, pc, head, a.ins, mid, z.ins, tail);
    CodeAtIndex(p.code, pc, head, 0);
    CodeAtIndex(p.code, pc, head, 1);
    CodeAtIndex(p.code, q, mid, 0);
    CodeAtIndex(p.code, q, mid, 1);
    CodeAtIndex(p.code, q, mid, 2);
    CodeAtIndex(p.code, q, mid, 3);
    CodeAtIndex(p.code, u, tail, 0);
    CodeAtIndex(p.code, u, tail, 1);
  }

  lemma EnterTry(p: Program, m: Mach, land: int, go: int, pc: nat)
    returns (m1: Mach)
    requires UniqueLabels(p.code) && m.pc == pc && pc + 1 < |p.code| && p.code[pc] == Push(land, go)
    requires p.code[pc + 1] == Lbl(go)
    ensures Steps(p, m, 2, [], Running(m1)) && m1 == m.(pc := pc + 2, hs := [land] + m.hs)
  {
    var a := m.(pc := Find(p.code, go), hs := [land] + m.hs);
    StepsOne(p, m);
    SkipLabel(p, a, go, pc + 1);
    m1 := a.(pc := pc + 2);
    Silent(p, m, 1, a, 1, Running(m1));
  }

  /** The body ended normally: pop, and on to the end. */
  lemma LeaveTry(p: Program, m: Mach, land: int, hs: seq<int>, q: nat, l: int, i: nat)
    requires UniqueLabels(p.code) && m.pc == q && m.hs == [land] + hs
    requires q + 1 < |p.code| && p.code[q] == Pop && p.code[q + 1] == Br(l) && i < |p.code| && p.code[i] == Lbl(l)
    ensures Steps(p, m, 3, [], Running(m.(pc := i + 1, hs := hs)))
  {
    assert m.hs[1..] == hs;
    StepsOne(p, m);
    var a := m.(pc := q + 1, hs := hs);
    Jump(p, a, l, i);
    Silent(p, m, 1, a, 2, Running(a.(pc := i + 1)));
  }

  /** At the landing label of a try without finally: pop. */
  lemma LandTry(p: Program, m: Mach, land: int, hs: seq<int>, i: nat)
    requires UniqueLabels(p.code) && m.pc == Find(p.code, land) && m.hs == [land] + hs
    requires i + 1 < |p.code| && p.code[i] == Lbl(land) && p.code[i + 1] == Pop
    ensures Steps(p, m, 2, [], Running(m.(pc := i + 2, hs := hs)))
  {
    assert m.hs[1..] == hs;
    SkipLabel(p, m, land, i);
    var a := m.(pc := i + 1);
    Advance(p, m, 1, [], a, Step(p, a));
  }

  lemma GoodBody(p: Program, ctx: Ctx, sc: Scope, n: Count, n2: Count, top: Count)
    requires GoodCtx(p, ctx, sc, n, top) && Grows(n, n2)
    ensures GoodCtx(p, ctx, BodyScope(sc, ctx.gen), n2, top)
  {
  }

  lemma SimEnds(p: Program, ctx: Ctx, sc: Scope, n: Count, n2: Count, m: Mach, m2: Mach, r: Run, fuel: nat, j: nat)
    requires r.faithful && r.out.Normal? && r.site <= 0
    requires Steps(p, m, j, r.trace, Running(m2)) && m2.hs == m.hs && Rel(ctx, m2, r.st)
    requires Frame(ctx, sc, n, n2, m.store, m2.store) && Marked(ctx, r.site, m.store, m2.store)
    ensures Sim(p, ctx, sc, n, n2, m, m2.pc, r, fuel, j, Running(m2))
  {
  }

  // ---- try with finally ----

  /** Where the pieces of a try with finally are: the body from pc+9 to q, the
      clauses from q+3 to u, the finally body from u+4 to v. */
  ghost predicate FinallyAt(p: Program, ctx: Ctx, f: int, pc: nat, q: nat, u: nat, v: nat) {
    && pc + 9 <= q && q + 3 <= u && u + 4 <= v && v + 6 <= |p.code|
    && CodeAt(p.code, pc, FinallyHead(f)) && CodeAt(p.code, q, FinallyMid(f))
    && CodeAt(p.code, u, FinallyEnter(f)) && CodeAt(p.code, v, FinallyTail(ctx, f))
  }

  lemma FinallyParts(p: Program, s: Stmt, ctx: Ctx, n: Count, pc: nat)
    returns (inner: Ctx, a: Code, h: Code, z: Code, q: nat, u: nat, v: nat)
    requires s.Try? && s.fin.Some? && CodeAt(p.code, pc, LowerTryFinally(s, ctx, n).ins)
    ensures inner == ctx.(fin := Some(FrameOf(ctx, n.id)))
    ensures a == LowerBlock(s.body, inner, n.(id := n.id + 11))
    ensures h == LowerHandlers(s.handlers, n.id + 5, inner, a.next)
    ensures z == LowerBlock(s.fin.value, ctx, h.next) && z.next == LowerTryFinally(s, ctx, n).next
    ensures q == pc + 9 + |a.ins| && u == q + 3 + |h.ins| && v == u + 4 + |z.ins|
    ensures v + 6 == pc + |LowerTryFinally(s, ctx, n).ins|
    ensures FinallyAt(p, ctx, n.id, pc, q, u, v)
    ensures CodeAt(p.code, pc + 9, a.ins) && CodeAt(p.code, q + 3, h.ins) && CodeAt(p.code, u + 4, z.ins)
  {
    hide LowerBlock, LowerHandlers, CodeAt, FinallyHead, FinallyMid, FinallyEnter, FinallyTail;
    var f := n.id;
    inner := ctx.(fin := Some(FrameOf(ctx, f)));
    a := LowerBlock(s.body, inner, n.(id := f + 11));
    h := LowerHandlers(s.handlers, f + 5, inner, a.next);
    z := LowerBlock(s.fin.value, ctx, h.next);
    q := pc + 9 + |a.ins|;
    u := q + 3 + |h.ins|;
    v := u + 4 + |z.ins|;
    CodeAt4(p.code, pc, FinallyHead(f), a.ins, FinallyMid(f),
            h.ins + (FinallyEnter(f) + (z.ins + FinallyTail(ctx, f))));
    CodeAt4(p.code, q + 3, h.ins, FinallyEnter(f), z.ins, FinallyTail(ctx, f));
    CodeAtBound(p.code, v, FinallyTail(ctx, f));
  }

  lemma CodeAtBound(code: seq<Instr>, pc: nat, ins: seq<Instr>)
    requires CodeAt(code, pc, ins)
    ensures pc + |ins| <= |code|
  {
  }

  lemma HeadItems(f: int)
    ensures var h := FinallyHead(f);
      && h[0] == SetConst(f + 8, FALLTHROUGH) && h[1] == SetConst(f + 9, 0) && h[2] == Push(f + 3, f)
      && h[3] == Lbl(f + 3) && h[4] == Switch(f + 9, map[0 := f + 1], f + 4)
      && h[5] == Lbl(f + 4) && h[6] == SetConst(f + 8, RETHROW) && h[7] == Br(f + 5) && h[8] == Lbl(f)
  {
  }

  lemma HeadAt(p: Program, f: int, pc: nat)
    requires CodeAt(p.code, pc, FinallyHead(f))
    ensures pc + 9 <= |p.code|
    ensures p.code[pc] == SetConst(f + 8, FALLTHROUGH) && p.code[pc + 1] == SetConst(f + 9, 0)
    ensures p.code[pc + 2] == Push(f + 3, f)
    ensures p.code[pc + 3] == Lbl(f + 3) && p.code[pc + 4] == Switch(f + 9, map[0 := f + 1], f + 4)
    ensures p.code[pc + 5] == Lbl(f + 4) && p.code[pc + 6] == SetConst(f + 8, RETHROW) && p.code[pc + 7] == Br(f + 5)
    ensures p.code[pc + 8] == Lbl(f)
  {
    hide CodeAt, FinallyHead;
    HeadItems(f);
    CodeAtIndex(p.code, pc, FinallyHead(f), 0);
    CodeAtIndex(p.code, pc, FinallyHead(f), 1);
    CodeAtIndex(p.code, pc, FinallyHead(f), 2);
    CodeAtIndex(p.code, pc, FinallyHead(f), 3);
    CodeAtIndex(p.code, pc, FinallyHead(f), 4);
    CodeAtIndex(p.code, pc, FinallyHead(f), 5);
    CodeAtIndex(p.code, pc, FinallyHead(f), 6);
    CodeAtIndex(p.code, pc, FinallyHead(f), 7);
    CodeAtIndex(p.code, pc, FinallyHead(f), 8);
  }

  lemma MidAt(p: Program, f: int, q: nat)
    requires CodeAt(p.code, q, FinallyMid(f))
    ensures q + 3 <= |p.code| && p.code[q] == Br(f + 5) && p.code[q + 1] == Lbl(f + 1)
    ensures p.code[q + 2] == SetConst(f + 9, 1)
  {
    CodeAtIndex(p.code, q, FinallyMid(f), 0);
    CodeAtIndex(p.code, q, FinallyMid(f), 1);
    CodeAtIndex(p.code, q, FinallyMid(f), 2);
  }

  lemma EnterAt(p: Program, f: int, u: nat)
    requires CodeAt(p.code, u, FinallyEnter(f))
    ensures u + 4 <= |p.code| && p.code[u] == SetConst(f + 8, RETHROW) && p.code[u + 1] == Br(f + 5)
    ensures p.code[u + 2] == Lbl(f + 5) && p.code[u + 3] == Pop
  {
    CodeAtIndex(p.code, u, FinallyEnter(f), 0);
    CodeAtIndex(p.code, u, FinallyEnter(f), 1);
    CodeAtIndex(p.code, u, FinallyEnter(f), 2);
    CodeAtIndex(p.code, u, FinallyEnter(f), 3);
  }

  lemma TailAt(p: Program, ctx: Ctx, f: int, v: nat)
    requires CodeAt(p.code, v, FinallyTail(ctx, f))
    ensures v + 6 <= |p.code| && p.code[v] == Switch(f + 8, PendingCases(ctx, f), f + 2)
    ensures p.code[v + 1] == Lbl(f + 7) && p.code[v + 2] == Rethrow && p.code[v + 3] == Lbl(f + 6)
    ensures p.code[v + 4] == (if ctx.void then RetVoid else Ret(f + 10)) && p.code[v + 5] == Lbl(f + 2)
  {
    CodeAtIndex(p.code, v, FinallyTail(ctx, f), 0);
    CodeAtIndex(p.code, v, FinallyTail(ctx, f), 1);
    CodeAtIndex(p.code, v, FinallyTail(ctx, f), 2);
    CodeAtIndex(p.code, v, FinallyTail(ctx, f), 3);
    CodeAtIndex(p.code, v, FinallyTail(ctx, f), 4);
    CodeAtIndex(p.code, v, FinallyTail(ctx, f), 5);
  }

  function PendingOf(out: Outcome): int {
    match out
    case Raised(_) => RETHROW
    case Returned(_) => RETURN
    case Broke => BREAK
    case Continued => CONTINUE
    case _ => FALLTHROUGH
  }

  /** The machine has just entered the finally: the handler still pushed, and the
      pending slot saying how the guarded part ended. */
  ghost predicate AtEntry(p: Program, ctx: Ctx, f: int, hs: seq<int>, u: nat, out: Outcome, m: Mach, st: State) {
    && m.pc == u + 3 && m.hs == [f + 3] + hs && Rel(ctx, m, st) && !out.OutOfFuel?
    && Get(m.store, f + 8) == PendingOf(out)
    && (out.Returned? && !ctx.void ==> Get(m.store, f + 10) == out.v)
    && (out.Raised? ==> m.inflight == out.obj)
  }

  lemma EnterFinally(p: Program, m: Mach, f: int, pc: nat)
    returns (m1: Mach)
    requires UniqueLabels(p.code) && m.pc == pc && CodeAt(p.code, pc, FinallyHead(f))
    ensures Steps(p, m, 4, [], Running(m1))
    ensures m1 == m.(pc := pc + 9, hs := [f + 3] + m.hs, store := m.store[f + 8 := FALLTHROUGH][f + 9 := 0])
  {
    hide FinallyHead, CodeAt, RunFor, Find, Step;
    HeadAt(p, f, pc);
    var a := m.(pc := pc + 1, store := m.store[f + 8 := FALLTHROUGH]);
    var b := a.(pc := pc + 2, store := a.store[f + 9 := 0]);
    var d := b.(pc := Find(p.code, f), hs := [f + 3] + m.hs);
    m1 := d.(pc := pc + 9);
    ConstStep(p, m, f + 8, FALLTHROUGH);
    ConstStep(p, a, f + 9, 0);
    PushStep(p, b, f + 3, f);
    SkipLabel(p, d, f, pc + 8);
    Silent(p, m, 1, a, 1, Running(b));
    Silent(p, m, 2, b, 1, Running(d));
    Silent(p, m, 3, d, 1, Running(m1));
  }

  /** A throw from the body lands and goes to the clauses, marked as such. */
  lemma BodyThrew(p: Program, m: Mach, f: int, pc: nat, q: nat)
    returns (m1: Mach)
    requires UniqueLabels(p.code) && CodeAt(p.code, pc, FinallyHead(f)) && CodeAt(p.code, q, FinallyMid(f))
    requires m.pc == Find(p.code, f + 3) && Get(m.store, f + 9) == 0
    ensures Steps(p, m, 4, [], Running(m1)) && m1 == m.(pc := q + 3, store := m.store[f + 9 := 1])
  {
    hide FinallyHead, FinallyMid, CodeAt, RunFor, Find, Step;
    HeadAt(p, f, pc);
    MidAt(p, f, q);
    var a := m.(pc := pc + 4);
    var b := m.(pc := Find(p.code, f + 1));
    var d := m.(pc := q + 2);
    m1 := d.(pc := q + 3, store := m.store[f + 9 := 1]);
    SkipLabel(p, m, f + 3, pc + 3);
    SwitchStep(p, a, f + 9, map[0 := f + 1], f + 4);
    SkipLabel(p, b, f + 1, q + 1);
    ConstStep(p, d, f + 9, 1);
    Silent(p, m, 1, a, 1, Running(b));
    Silent(p, m, 2, b, 1, Running(d));
    Silent(p, m, 3, d, 1, Running(m1));
  }

  /** No clause took it: on to the finally, to be raised again. */
  lemma NobodyCaught(p: Program, m: Mach, f: int, i: nat, u: nat)
    returns (m1: Mach)
    requires UniqueLabels(p.code) && CodeAt(p.code, u, FinallyEnter(f)) && m.pc == i
    requires i + 1 < |p.code| && p.code[i] == SetConst(f + 8, RETHROW) && p.code[i + 1] == Br(f + 5)
    ensures Steps(p, m, 3, [], Running(m1)) && m1 == m.(pc := u + 3, store := m.store[f + 8 := RETHROW])
  {
    hide FinallyEnter, CodeAt, RunFor, Find, Step;
    EnterAt(p, f, u);
    var a := m.(pc := i + 1, store := m.store[f + 8 := RETHROW]);
    m1 := a.(pc := u + 3);
    ConstStep(p, m, f + 8, RETHROW);
    Jump(p, a, f + 5, u + 2);
    Silent(p, m, 1, a, 2, Running(m1));
  }

  /** A throw from a clause lands and goes to the finally, to be raised again. */
  lemma ClauseThrew(p: Program, m: Mach, f: int, pc: nat, u: nat)
    returns (m1: Mach)
    requires UniqueLabels(p.code) && CodeAt(p.code, pc, FinallyHead(f)) && CodeAt(p.code, u, FinallyEnter(f))
    requires m.pc == Find(p.code, f + 3) && Get(m.store, f + 9) == 1
    ensures Steps(p, m, 6, [], Running(m1)) && m1 == m.(pc := u + 3, store := m.store[f + 8 := RETHROW])
  {
    hide FinallyHead, FinallyEnter, CodeAt, RunFor, Find, Step;
    HeadAt(p, f, pc);
    var a := m.(pc := pc + 4);
    var b := m.(pc := Find(p.code, f + 4));
    var d := m.(pc := pc + 6);
    SkipLabel(p, m, f + 3, pc + 3);
    SwitchStep(p, a, f + 9, map[0 := f + 1], f + 4);
    SkipLabel(p, b, f + 4, pc + 5);
    m1 := NobodyCaught(p, d, f, pc + 6, u);
    Silent(p, m, 1, a, 1, Running(b));
    Silent(p, m, 2, b, 1, Running(d));
    Silent(p, m, 3, d, 3, Running(m1));
  }

  function Inner(ctx: Ctx, f: int): Ctx {
    ctx.(fin := Some(FrameOf(ctx, f)))
  }

  /** A scope for what a finally guards. */
  predicate Guarded(ctx: Ctx, isc: Scope) {
    isc.inTry && isc.inFin && (isc.loopOk ==> ctx.brk.Some?)
  }

  /** Nothing yields in what a finally guards. */
  lemma NoSiteCaught(w: World, s: Stmt, ctx: Ctx, isc: Scope, st: State, fuel: nat)
    requires s.Try? && isc.inTry && OkBlock(s.body, ctx.gen, ctx.void, ctx.vars.Keys, isc)
    requires OkHandlers(s.handlers, ctx.gen, ctx.void, ctx.vars.Keys, isc)
    ensures SitesOf(s.body).y == 0 && SitesOfHandlers(s.handlers).y == 0
    ensures ExecBlock(w, s.body, st, fuel).site <= 0 && ExecCatch(w, s, st, fuel).site <= 0
    ensures var r := ExecBlock(w, s.body, st, fuel);
      ExecCatch(w, s, st, fuel)
      == if r.out.Raised? then After(r, ExecHandlers(w, s.handlers, r.out.obj, r.st, fuel))
         else r.(faithful := r.faithful && !Taken(w, s.handlers, r.out))
  {
    hide ExecBlock, ExecHandlers, OkBlock, OkHandlers, SitesOf, SitesOfHandlers;
    var r := ExecBlock(w, s.body, st, fuel);
    NoSites(s.body, ctx.gen, ctx.void, ctx.vars.Keys, isc);
    NoSitesHandlers(s.handlers, ctx.gen, ctx.void, ctx.vars.Keys, isc);
    SiteInText(w, s.body, st, fuel);
    if r.out.Raised? { SiteInHandlers(w, s.handlers, r.out.obj, r.st, fuel); }
  }

  lemma NoSiteInBody(w: World, b: Block, ctx: Ctx, isc: Scope, n: Count, st: State, fuel: nat)
    requires isc.inTry && OkBlock(b, ctx.gen, ctx.void, ctx.vars.Keys, isc)
    ensures SitesOf(b).y == 0 && ExecBlock(w, b, st, fuel).site <= 0 && LowerBlock(b, ctx, n).next.y == n.y
  {
    hide ExecBlock, OkBlock, SitesOf, LowerBlock;
    NoSites(b, ctx.gen, ctx.void, ctx.vars.Keys, isc);
    SiteInText(w, b, st, fuel);
    SitesUsed(b, ctx, n);
  }

  lemma GuardedByFinally(p: Program, ctx: Ctx, sc: Scope, n: Count, top: Count)
    requires GoodCtx(p, ctx, sc, n, top)
    ensures Guarded(ctx, FinallyScope(sc, ctx.gen))
  {
  }

  lemma GoodInner(p: Program, ctx: Ctx, sc: Scope, isc: Scope, n: Count, n2: Count, top: Count)
    requires GoodCtx(p, ctx, sc, n, top) && Grows(n.(id := n.id + 11), n2) && Guarded(ctx, isc)
    ensures GoodCtx(p, Inner(ctx, n.id), isc, n2, top)
  {
  }

  /** What the guarded part may write, seen from outside the try. */
  lemma InnerFrame(p: Program, ctx: Ctx, sc: Scope, isc: Scope, n: Count, n1: Count, n2: Count, top: Count,
                   site: int, a: map<int, int>, b: map<int, int>)
    requires GoodCtx(p, ctx, sc, n, top) && Grows(n.(id := n.id + 11), n1) && Grows(n1, n2) && Grows(n2, top)
    requires Guarded(ctx, isc) && Frame(Inner(ctx, n.id), isc, n1, n2, a, b) && site <= 0 && StateIs(ctx, n, site, a, b)
    ensures Frame(ctx, sc.(inTry := true), n, n2, a, b) && Marked(ctx, site, a, b)
    ensures Get(b, n.id + 9) == Get(a, n.id + 9)
  {
    hide EnvOf, GoodSwitch;
    var inner := Inner(ctx, n.id);
    forall slot | !Writable(ctx, n, n2, slot) ensures Get(b, slot) == Get(a, slot) {
      assert !Writable(inner, n1, n2, slot);
    }
    assert !Writable(inner, n1, n2, n.id + 9);
    if ctx.fin.Some? {
      assert !Writable(inner, n1, n2, ctx.fin.value.pending);
    }
  }

  /** An own slot of the try written: nothing else changes. */
  lemma OwnSlot(p: Program, ctx: Ctx, sc: Scope, n: Count, n2: Count, top: Count, store: map<int, int>, slot: int,
                v: int)
    requires GoodCtx(p, ctx, sc, n, top) && n.id <= slot < n2.id
    ensures EnvOf(ctx.vars, store[slot := v]) == EnvOf(ctx.vars, store)
    ensures Frame(ctx, sc.(inTry := true), n, n2, store, store[slot := v])
    ensures Quiet(ctx, store, store[slot := v])
  {
    EnvOther(ctx.vars, store, slot, v);
  }

  /** Any end but a throw gets to the finally with the matching pending code. */
  lemma ToEntry(p: Program, ctx: Ctx, f: int, hs: seq<int>, q: nat, u: nat, end: nat, out: Outcome, m: Mach, st: State)
    returns (k: nat)
    requires UniqueLabels(p.code) && CodeAt(p.code, q, FinallyMid(f)) && CodeAt(p.code, u, FinallyEnter(f))
    requires m.hs == [f + 3] + hs && Rel(ctx, m, st) && (end == q || end == u + 3)
    requires out.Normal? || out.Returned? || out.Broke? || out.Continued?
    requires Landed(p, Inner(ctx, f), m.hs, end, out, m) && (out.Returned? ==> !ctx.gen)
    requires out.Normal? ==> Get(m.store, f + 8) == FALLTHROUGH
    ensures Steps(p, m, k, [], Running(m.(pc := u + 3)))
    ensures AtEntry(p, ctx, f, hs, u, out, m.(pc := u + 3), st)
  {
    MidAt(p, f, q);
    EnterAt(p, f, u);
    hide FinallyMid, FinallyEnter, CodeAt, RunFor, Step;
    if !out.Normal? {
      SkipLabel(p, m, f + 5, u + 2);
      k := 1;
    } else if end == q {
      Jump(p, m, f + 5, u + 2);
      k := 2;
    } else {
      NoSteps(p, m);
      assert m.(pc := u + 3) == m;
      k := 0;
    }
  }

  /** A clause has ended: on to the finally. */
  lemma FromClause(p: Program, ctx: Ctx, sc: Scope, isc: Scope, n: Count, n2: Count, top: Count, store: map<int, int>,
                   mc: Mach, hs: seq<int>, pc: nat, q: nat, u: nat, site: int, out: Outcome, st: State)
    returns (k: nat, m2: Mach)
    requires GoodCtx(p, ctx, sc, n, top) && Grows(n.(id := n.id + 11), n2) && Grows(n2, top) && Guarded(ctx, isc)
    requires UniqueLabels(p.code) && CodeAt(p.code, pc, FinallyHead(n.id)) && CodeAt(p.code, q, FinallyMid(n.id))
    requires CodeAt(p.code, u, FinallyEnter(n.id))
    requires mc.hs == [n.id + 3] + hs && Rel(ctx, mc, st) && !out.OutOfFuel?
    requires Landed(p, Inner(ctx, n.id), mc.hs, u + 3, out, mc)
    requires out.Normal? ==> Get(mc.store, n.id + 8) == FALLTHROUGH
    requires Throws(ctx.gen, out) ==> Get(mc.store, n.id + 9) == 1
    requires Frame(ctx, sc.(inTry := true), n, n2, store, mc.store) && Marked(ctx, site, store, mc.store)
    ensures Steps(p, mc, k, [], Running(m2)) && AtEntry(p, ctx, n.id, hs, u, AsRaise(ctx.gen, out), m2, st)
    ensures Frame(ctx, sc.(inTry := true), n, n2, store, m2.store) && Marked(ctx, site, store, m2.store)
  {
    hide FinallyHead, FinallyMid, FinallyEnter, Step, RunFor, Find, GoodCtx, Frame, EnvOf, CodeAt, Writable;
    if Throws(ctx.gen, out) {
      m2 := ClauseThrew(p, mc, n.id, pc, u);
      k := 6;
      OwnSlot(p, ctx, sc, n, n2, top, mc.store, n.id + 8, RETHROW);
      FrameJoin(ctx, sc.(inTry := true), n, n2, store, mc.store, m2.store);
    } else {
      k := ToEntry(p, ctx, n.id, hs, q, u, u + 3, out, mc, st);
      m2 := mc.(pc := u + 3);
    }
  }

  /** No clause took the exception. */
  lemma NoClause(p: Program, ctx: Ctx, sc: Scope, n: Count, n2: Count, top: Count, store: map<int, int>, mu: Mach,
                 hs: seq<int>, u: nat, site: int, st: State)
    returns (m2: Mach)
    requires GoodCtx(p, ctx, sc, n, top) && Grows(n.(id := n.id + 11), n2)
    requires UniqueLabels(p.code) && CodeAt(p.code, u, FinallyEnter(n.id)) && mu.pc == u
    requires mu.hs == [n.id + 3] + hs && Rel(ctx, mu, st)
    requires Frame(ctx, sc.(inTry := true), n, n2, store, mu.store) && Marked(ctx, site, store, mu.store)
    ensures Steps(p, mu, 3, [], Running(m2)) && AtEntry(p, ctx, n.id, hs, u, Raised(st.inflight), m2, st)
    ensures Frame(ctx, sc.(inTry := true), n, n2, store, m2.store) && Marked(ctx, site, store, m2.store)
  {
    hide FinallyEnter, Step, RunFor, Find, GoodCtx, Frame, EnvOf, CodeAt, Writable;
    EnterAt(p, n.id, u);
    m2 := NobodyCaught(p, mu, n.id, u, u);
    OwnSlot(p, ctx, sc, n, n2, top, mu.store, n.id + 8, RETHROW);
    FrameJoin(ctx, sc.(inTry := true), n, n2, store, mu.store, m2.store);
  }

  lemma FrameJoin(ctx: Ctx, sc: Scope, n: Count, n2: Count, a: map<int, int>, b: map<int, int>, c: map<int, int>)
    requires Frame(ctx, sc, n, n2, a, b) && Frame(ctx, sc, n, n2, b, c)
    ensures Frame(ctx, sc, n, n2, a, c)
  {
    forall slot | (slot < ctx.lay.fields || sc.inTry) && !Writable(ctx, n, n2, slot)
      ensures Get(c, slot) == Get(a, slot)
    {
      assert Get(b, slot) == Get(a, slot);
    }
  }

  lemma FrameTrans2(ctx: Ctx, sc: Scope, n: Count, n1: Count, n2: Count, a: map<int, int>, b: map<int, int>,
                    c: map<int, int>)
    requires Grows(n, n1) && Grows(n1, n2) && Frame(ctx, sc, n, n1, a, b) && Frame(ctx, sc, n, n2, b, c)
    ensures Frame(ctx, sc, n, n2, a, c)
  {
    FrameWiden(ctx, sc, n, n, n1, n2, a, b);
    FrameJoin(ctx, sc, n, n2, a, b, c);
  }

  /** Where the switch at the end of the finally, at `v`, sends each pending end. */
  ghost function Dispatched(p: Program, ctx: Ctx, v: nat, out: Outcome, m: Mach): Config {
    match out
    case Normal => Running(m.(pc := v + 6))
    case Raised(_) => Unwind(p, m.(pc := v + 2))
    case Returned(val) => Done(RetVal(val), m.(pc := v + 4))
    case Broke => Running(Goto(p, m, Or(ExitTarget(ctx, ctx.brk))))
    case _ => Running(Goto(p, m, Or(ExitTarget(ctx, ctx.cont))))
  }

  /** The switch at the end of the finally does what was pending. */
  lemma DispatchSteps(p: Program, ctx: Ctx, sc: Scope, n: Count, top: Count, f: int, v: nat, out: Outcome, m: Mach)
    returns (k: nat, c: Config)
    requires GoodCtx(p, ctx, sc, n, top) && CodeAt(p.code, v, FinallyTail(ctx, f)) && m.pc == v
    requires Get(m.store, f + 8) == PendingOf(out) && !out.OutOfFuel?
    requires out.Returned? ==> !ctx.gen && (if ctx.void then out.v == 0 else Get(m.store, f + 10) == out.v)
    requires out.Broke? || out.Continued? ==> ctx.brk.Some?
    ensures Steps(p, m, k, [], c) && c == Dispatched(p, ctx, v, out, m)
  {
    hide FinallyTail, CodeAt, RunFor, Find, Step, UniqueLabels, GoodCtx, PendingCases;
    GoodLabels(p, ctx, sc, n, top);
    GoodShape(p, ctx, sc, n, top);
    TailAt(p, ctx, f, v);
    var cases := PendingCases(ctx, f);
    var l := PendingLabel(ctx, f, out);
    var a := Goto(p, m, l);
    SwitchStep(p, m, f + 8, cases, f + 2);
    if out.Broke? || out.Continued? {
      k, c := 1, Running(a);
    } else {
      var i := if out.Normal? then v + 5 else if out.Raised? then v + 1 else v + 3;
      SkipLabel(p, a, l, i);
      var b := a.(pc := i + 1);
      Silent(p, m, 1, a, 1, Running(b));
      k, c := 2, Running(b);
      if !out.Normal? {
        c := TailStep(p, ctx, f, v, out, b, m);
        Advance(p, m, 2, [], b, c);
        k := 3;
      }
    }
  }

  lemma GoodShape(p: Program, ctx: Ctx, sc: Scope, n: Count, top: Count)
    requires GoodCtx(p, ctx, sc, n, top)
    ensures p.w.gen == ctx.gen && (ctx.void ==> !ctx.gen) && (ctx.brk.Some? <==> ctx.cont.Some?)
  {
  }

  /** Where the switch goes for each pending end. */
  lemma PendingLabel(ctx: Ctx, f: int, out: Outcome) returns (l: int)
    requires !out.OutOfFuel? && (out.Returned? ==> !ctx.gen)
    requires out.Broke? || out.Continued? ==> ctx.brk.Some? && ctx.cont.Some?
    ensures var cases := PendingCases(ctx, f); l == if PendingOf(out) in cases then cases[PendingOf(out)] else f + 2
    ensures l == match out case Normal => f + 2 case Raised(_) => f + 7 case Returned(_) => f + 6
                 case Broke => Or(ExitTarget(ctx, ctx.brk)) case _ => Or(ExitTarget(ctx, ctx.cont))
  {
    var cases := PendingCases(ctx, f);
    l := if PendingOf(out) in cases then cases[PendingOf(out)] else f + 2;
  }

  /** The instruction behind the label of a raise or a return. */
  lemma TailStep(p: Program, ctx: Ctx, f: int, v: nat, out: Outcome, b: Mach, m: Mach) returns (c: Config)
    requires (out.Raised? && b == m.(pc := v + 2)) || (out.Returned? && b == m.(pc := v + 4))
    requires b.pc < |p.code| && p.code[b.pc]
      == if out.Raised? then Rethrow else if ctx.void then RetVoid else Ret(f + 10)
    requires out.Returned? ==> p.w.gen == ctx.gen && !ctx.gen
    requires out.Returned? ==> if ctx.void then out.v == 0 else Get(m.store, f + 10) == out.v
    ensures !Yields(p, b) && Step(p, b) == c && c == Dispatched(p, ctx, v, out, m)
  {
    hide Find;
    c := Step(p, b);
  }

  /** The finally body ended normally in `m2`: what was pending is resumed. */
  lemma SimDispatch(p: Program, ctx: Ctx, sc: Scope, n: Count, n2: Count, top: Count, f: int, v: nat, m: Mach,
                    out: Outcome, r: Run, fuel: nat, j: nat, m2: Mach)
    returns (k: nat, c: Config)
    requires GoodCtx(p, ctx, sc, n, top) && CodeAt(p.code, v, FinallyTail(ctx, f)) && r.out.Normal? && !out.OutOfFuel?
    requires r.faithful && Sim(p, ctx, sc, n, n2, m, v, r, fuel, j, Running(m2))
    requires Get(m2.store, f + 8) == PendingOf(out)
    requires out.Returned? ==> !ctx.gen && ctx.fin.None?
    requires out.Returned? ==> if ctx.void then out.v == 0 else Get(m2.store, f + 10) == out.v
    requires out.Broke? || out.Continued? ==> ctx.fin.None? && ctx.brk.Some?
    ensures Sim(p, ctx, sc, n, n2, m, v + 6,
                Run(out, r.st, r.trace, out.Raised? ==> r.st.inflight == out.obj, r.site), fuel, k, c)
  {
    hide GoodCtx, CodeAt, RunFor, Step, Find, EnvOf, Writable;
    var i;
    i, c := DispatchSteps(p, ctx, sc, n, top, f, v, out, m2);
    StepsTrans(p, m, j, r.trace, m2, i, [], c);
    assert r.trace + [] == r.trace;
    k := j + i;
  }

  lemma GoodFin(p: Program, ctx: Ctx, sc: Scope, n: Count, n2: Count, top: Count)
    requires GoodCtx(p, ctx, sc, n, top) && Grows(n, n2)
    ensures GoodCtx(p, ctx, Scope(false, false, true, sc.inFin), n2, top)
    ensures sc.inFin <==> ctx.fin.Some?
    ensures sc.loopOk ==> ctx.brk.Some?
  {
  }

  /** The try's own slots are out of the finally body's reach. */
  lemma OwnKept(p: Program, ctx: Ctx, sc: Scope, n: Count, n1: Count, n2: Count, top: Count, slot: int,
                a: map<int, int>, b: map<int, int>)
    requires GoodCtx(p, ctx, sc, n, top) && n.id <= slot < n1.id && Grows(n, n1) && Grows(n1, n2) && Grows(n2, top)
    requires Frame(ctx, Scope(false, false, true, sc.inFin), n1, n2, a, b)
    ensures Get(b, slot) == Get(a, slot)
  {
    assert !Writable(ctx, n1, n2, slot);
  }

  lemma Unfaithful(p: Program, ctx: Ctx, sc: Scope, n: Count, n2: Count, m: Mach, end: nat, r: Run, fuel: nat, k: nat,
                   c: Config)
    requires !r.faithful
    ensures Sim(p, ctx, sc, n, n2, m, end, r, fuel, k, c)
  {
  }

  /** No clause takes `obj`: it goes on. */
  lemma {:induction false} NoneTakes(w: World, hs: Handlers, obj: int, st: State, fuel: nat)
    requires !AnyMatch(w, hs, obj)
    ensures ExecHandlers(w, hs, obj, st, fuel) == Stop(Raised(obj), st)
    decreases hs
  {
    hide ExecBlock, SitesOf;
    if hs.Handler? { NoneTakes(w, hs.rest, obj, st, fuel); }
  }

  /** A finally does the same for a return in a generator and for a raise. */
  lemma FinallyAs(w: World, r: Run, fin: Block, fuel: nat)
    requires w.gen && r.out.Returned?
    ensures var raised := ExecFinally(w, r.(out := Raised(r.out.v)), 0, fin, fuel);
      ExecFinally(w, r, 0, fin, fuel)
      == if ExecBlock(w, fin, r.st, fuel).out.Normal? then raised.(out := r.out) else raised
  {
    hide ExecBlock;
  }

  lemma UnfaithfulBody(w: World, s: Stmt, st: State, fuel: nat)
    requires s.Try? && s.fin.None?
    requires var r := ExecBlock(w, s.body, st, fuel); !r.faithful || Taken(w, s.handlers, r.out)
    ensures !PySemantics.Exec(w, s, st, fuel).faithful
  {
    hide ExecBlock;
  }

  lemma UnfaithfulTry(w: World, s: Stmt, st: State, fuel: nat)
    requires s.Try? && s.fin.Some? && !ExecCatch(w, s, st, fuel).faithful
    ensures !PySemantics.Exec(w, s, st, fuel).faithful
  {
  }

  lemma PopAt(p: Program, m: Mach, m2: Mach, f: int, hs: seq<int>, u: nat, t: seq<int>, j: nat)
    returns (m3: Mach)
    requires CodeAt(p.code, u, FinallyEnter(f)) && m2.pc == u + 3 && m2.hs == [f + 3] + hs
    requires Steps(p, m, j, t, Running(m2))
    ensures Steps(p, m, j + 1, t, Running(m3)) && m3 == m2.(pc := u + 4, hs := hs)
  {
    EnterAt(p, f, u);
    assert m2.hs[1..] == hs;
    m3 := m2.(pc := u + 4, hs := hs);
    Advance(p, m, j, t, m2, Running(m3));
  }

  lemma SimResume(p: Program, ctx: Ctx, sc: Scope, n: Count, n1: Count, n2: Count, top: Count, f: int, v: nat, m3: Mach,
                  out: Outcome, w: Run, fuel: nat, j: nat, cw: Config)
    returns (k: nat, c: Config)
    requires GoodCtx(p, ctx, sc, n, top) && f == n.id && Grows(n.(id := n.id + 11), n1) && Grows(n1, n2)
    requires Grows(n2, top)
    requires CodeAt(p.code, v, FinallyTail(ctx, f)) && w.out.Normal? && w.faithful && !out.OutOfFuel?
    requires Sim(p, ctx, Scope(false, false, true, sc.inFin), n1, n2, m3, v, w, fuel, j, cw)
    requires Get(m3.store, f + 8) == PendingOf(out) && (out.Returned? && !ctx.void ==> Get(m3.store, f + 10) == out.v)
    requires Confined(out, FinallyScope(sc, ctx.gen), ctx.void) && (out.Returned? ==> !ctx.gen)
    ensures Sim(p, ctx, Scope(false, false, true, sc.inFin), n1, n2, m3, v + 6,
                Run(out, w.st, w.trace, w.faithful && (out.Raised? ==> w.st.inflight == out.obj), w.site), fuel, k, c)
  {
    hide Step, RunFor, Find, GoodCtx, Frame, EnvOf, CodeAt, Writable;
    var sc3 := Scope(false, false, true, sc.inFin);
    GoodFin(p, ctx, sc, n, n1, top);
    OwnKept(p, ctx, sc, n, n1, n2, top, f + 8, m3.store, cw.m.store);
    OwnKept(p, ctx, sc, n, n1, n2, top, f + 10, m3.store, cw.m.store);
    k, c := SimDispatch(p, ctx, sc3, n1, n2, top, f, v, m3, out, w, fuel, j, cw.m);
  }

  lemma SimCutShort(p: Program, ctx: Ctx, sc: Scope, n: Count, n2: Count, m: Mach, end: nat, r: Run, fuel: nat,
                    k: nat, c: Config)
    requires r.out.OutOfFuel? && Steps(p, m, k, r.trace, c) && c.Running? && k >= fuel
    ensures Sim(p, ctx, sc, n, n2, m, end, r, fuel, k, c)
  {
  }
}
