/**
 The translation of statements to flat code, as a function. The emitter class
 produces exactly this code; everything proved about the code is proved here.
 */
module Lowering {
  import opened Common
  import opened StmtSyntax
  import opened Machine

  /** An open `try ... finally`: where its finally starts, its slots, and the
      innermost loop labels when it was opened. */
  datatype Fin = Fin(entry: int, pending: int, ret: int, brk: Option<int>, cont: Option<int>)

  /** Where the fields of a generator object are. Ordinary functions only use `vars`. */
  datatype Layout = Layout(vars: Vars, state: int, value: int, yfBase: int, fiBase: int,
                           caseBase: int, exhausted: int, fields: int)

  /** What surrounds the statement being translated. `fin` is the innermost open
      frame of the finally stack. */
  datatype Ctx = Ctx(gen: bool, void: bool, lay: Layout, vars: Vars,
                     brk: Option<int>, cont: Option<int>, fin: Option<Fin>)

  /** The emitter's counters: fresh labels and slots, yield sites, `yield from`
      sites and iterator loops. */
  datatype Count = Count(id: int, y: nat, yf: nat, fi: nat)

  datatype Code = Code(ins: seq<Instr>, next: Count)

  const FALLTHROUGH := 0
  const RETHROW := 1
  const RETURN := 2
  const BREAK := 3
  const CONTINUE := 4

  function Slot(vars: Vars, x: string): int {
    if x in vars then vars[x] else -1
  }

  /** A break leaves through the open finally when its loop was already running
      when that finally was opened; likewise continue. */
  predicate BreakRouted(ctx: Ctx) {
    ctx.fin.Some? && ctx.fin.value.brk == ctx.brk
  }

  predicate ContinueRouted(ctx: Ctx) {
    ctx.fin.Some? && ctx.fin.value.cont == ctx.cont
  }

  /** Where the switch after a finally body sends a pending break or continue. */
  function ExitTarget(ctx: Ctx, target: Option<int>): Option<int> {
    if ctx.fin.None? then target else Some(ctx.fin.value.entry)
  }

  function Or(l: Option<int>): int {
    if l.Some? then l.value else -1
  }

  predicate Grows(n: Count, n2: Count) {
    n.id <= n2.id && n.y <= n2.y && n.yf <= n2.yf && n.fi <= n2.fi
  }

  ghost function LowerBlock(b: Block, ctx: Ctx, n: Count): (r: Code)
    ensures Grows(n, r.next)
    decreases b, 0
  {
    match b
    case Nil => Code([], n)
    case Cons(s, rest) =>
      var a := LowerStmt(s, ctx, n);
      var z := LowerBlock(rest, ctx, a.next);
      Code(a.ins + z.ins, z.next)
  }

  ghost function LowerStmt(s: Stmt, ctx: Ctx, n: Count): (r: Code)
    ensures Grows(n, r.next)
    decreases s, 1
  {
    var f := n.id;
    match s
    case Eval(e) => Code([Do(ctx.vars, e)], n)
    case Assign(x, e) => Code([Set(Slot(ctx.vars, x), ctx.vars, e)], n)
    case If(c, thn, els) => LowerIf(s, ctx, n)
    case While(c, body) => LowerWhile(s, ctx, n)
    case ForIter(x, e, body) => LowerFor(s, ctx, n)
    case Break =>
      Code((if BreakRouted(ctx) then [SetConst(ctx.fin.value.pending, BREAK), Br(ctx.fin.value.entry)]
            else [Br(Or(ctx.brk))]) + [Lbl(f)], n.(id := f + 1))
    case Continue =>
      Code((if ContinueRouted(ctx) then [SetConst(ctx.fin.value.pending, CONTINUE), Br(ctx.fin.value.entry)]
            else [Br(Or(ctx.cont))]) + [Lbl(f)], n.(id := f + 1))
    case Return(None) =>
      if ctx.gen then Code([Br(ctx.lay.exhausted), Lbl(f)], n.(id := f + 1))
      else if ctx.fin.Some? then
        Code([SetConst(ctx.fin.value.pending, RETURN), Br(ctx.fin.value.entry), Lbl(f)], n.(id := f + 1))
      else Code([RetVoid], n)
    case Return(Some(e)) =>
      if ctx.fin.Some? then
        Code([Set(ctx.fin.value.ret, ctx.vars, e), SetConst(ctx.fin.value.pending, RETURN),
              Br(ctx.fin.value.entry), Lbl(f)], n.(id := f + 1))
      else Code([RetExpr(ctx.vars, e)], n)
    case Raise(e) => Code([Throw(ctx.vars, e), Lbl(f)], n.(id := f + 1))
    case Yield(e) =>
      Code(YieldOf(ctx.lay, n.y + 1, [Set(ctx.lay.value, ctx.vars, e)]), n.(y := n.y + 1))
    case YieldFrom(e) => LowerYieldFrom(e, ctx, n)
    case Try(body, handlers, None) => LowerTry(s, ctx, n)
    case Try(body, handlers, Some(_)) => LowerTryFinally(s, ctx, n)
  }

  ghost function LowerIf(s: Stmt, ctx: Ctx, n: Count): (r: Code)
    requires s.If?
    ensures Grows(n, r.next)
    decreases s, 0
  {
    var thenL, endL := n.id, n.id + 1;
    var elseL := if s.els.NoElse? then endL else n.id + 2;
    var n1 := n.(id := if s.els.NoElse? then n.id + 2 else n.id + 3);
    var a := LowerBlock(s.thn, ctx, n1);
    var z := LowerElifs(s.els, elseL, endL, 0, ctx, a.next);
    Code([CondBr(ctx.vars, s.c, thenL, elseL), Lbl(thenL)] + (a.ins + ([Br(endL)] + (z.ins + [Lbl(endL)]))), z.next)
  }

  /** The rest of an `if` from the clause whose label is `here`. From the second
      `elif` on, one label number is drawn and not used. */
  ghost function LowerElifs(els: Elifs, here: int, endL: int, i: nat, ctx: Ctx, n: Count): (r: Code)
    ensures Grows(n, r.next)
    decreases els, 0
  {
    match els
    case NoElse => Code([], n)
    case Else(b) =>
      var a := LowerBlock(b, ctx, n);
      Code([Lbl(here)] + (a.ins + [Br(endL)]), a.next)
    case Elif(c, b, rest) =>
      var f := if i > 0 then n.id + 1 else n.id;
      var nextL := if rest.NoElse? then endL else f + 1;
      var n1 := n.(id := if rest.NoElse? then f + 1 else f + 2);
      var a := LowerBlock(b, ctx, n1);
      var z := LowerElifs(rest, nextL, endL, i + 1, ctx, a.next);
      Code(ElifHead(here, ctx.vars, c, f, nextL) + (a.ins + ([Br(endL)] + z.ins)), z.next)
  }

  ghost function ElifHead(here: int, vars: Vars, c: Expr, yes: int, no: int): seq<Instr> {
    [Lbl(here), CondBr(vars, c, yes, no), Lbl(yes)]
  }

  ghost function LowerWhile(s: Stmt, ctx: Ctx, n: Count): (r: Code)
    requires s.While?
    ensures Grows(n, r.next)
    decreases s, 0
  {
    var f := n.id;
    var a := LowerBlock(s.body, LoopCtx(ctx, f + 2, f), n.(id := f + 3));
    Code(WhileHead(ctx.vars, s.c, f) + (a.ins + [Br(f), Lbl(f + 2)]), a.next)
  }

  function LoopCtx(ctx: Ctx, brk: int, cont: int): Ctx {
    ctx.(brk := Some(brk), cont := Some(cont))
  }

  /** Labels: f condition, f+1 body, f+2 end. */
  ghost function WhileHead(vars: Vars, c: Expr, f: int): (r: seq<Instr>)
    ensures |r| == 4
  {
    [Br(f), Lbl(f), CondBr(vars, c, f + 1, f + 2), Lbl(f + 1)]
  }

  ghost function LowerFor(s: Stmt, ctx: Ctx, n: Count): (r: Code)
    requires s.ForIter?
    ensures Grows(n, r.next)
    decreases s, 0
  {
    var f, it := n.id, ctx.lay.fiBase + n.fi;
    var a := LowerBlock(s.body, LoopCtx(ctx, f + 6, f), n.(id := f + 8, fi := n.fi + 1));
    Code([GetIter(it, ctx.vars, s.e)] + (ForHead(it, Slot(ctx.vars, s.x), f) + (a.ins + ForTail(f))), a.next)
  }

  /** Labels: f head, f+1 call, f+2 body, f+3 landing, f+4 stop, f+5 rethrow, f+6 end.
      Slot f+7 stands for the value `__next__` returned, not yet stored. */
  ghost function ForHead(it: int, x: int, f: int): (r: seq<Instr>)
    ensures |r| == 9
  {
    [Br(f), Lbl(f), Push(f + 3, f + 1), Lbl(f + 1)] + [Next(f + 7, it), Pop, Move(x, f + 7), Br(f + 2)] + [Lbl(f + 2)]
  }

  ghost function ForTail(f: int): (r: seq<Instr>)
    ensures |r| == 10
  {
    [Br(f)] + IterTail(f + 3, f + 4, f + 5, f + 6)
  }

  ghost function LowerYieldFrom(e: Expr, ctx: Ctx, n: Count): (r: Code)
    ensures Grows(n, r.next)
  {
    var f, it := n.id, ctx.lay.yfBase + n.yf;
    Code([GetIter(it, ctx.vars, e)] + (YieldFromHead(it, ctx.lay, n.y + 1, f) + IterTail(f + 2, f + 3, f + 4, f + 5)),
         n.(id := f + 7, y := n.y + 1, yf := n.yf + 1))
  }

  /** Labels: f head, f+1 call, f+2 landing, f+3 stop, f+4 rethrow, f+5 end. */
  ghost function YieldFromHead(it: int, lay: Layout, k: int, f: int): (r: seq<Instr>)
    ensures |r| == 11
  {
    [Br(f), Lbl(f), Push(f + 2, f + 1), Lbl(f + 1)] + [Next(f + 6, it), Pop]
      + YieldOf(lay, k, [Move(lay.value, f + 6)]) + [Br(f)]
  }

  /** A yield: the value is stored first, then the state, then `__next__` returns;
      the resume label is where the next call comes back. */
  ghost function YieldOf(lay: Layout, k: int, store: seq<Instr>): seq<Instr> {
    store + [SetConst(lay.state, k), Ret(lay.value), Lbl(lay.caseBase + k)]
  }

  /** Landing pad of the call to `__next__`: StopIteration ends the loop, any other
      exception goes on. */
  ghost function IterTail(dispatch: int, stop: int, rethrow: int, end: int): (r: seq<Instr>)
    ensures |r| == 9
  {
    [Lbl(dispatch), Pop, IfStop(stop, rethrow), Lbl(stop)] + [Clear, Br(end), Lbl(rethrow), Rethrow] + [Lbl(end)]
  }

  ghost function LowerTry(s: Stmt, ctx: Ctx, n: Count): (r: Code)
    requires s.Try?
    ensures Grows(n, r.next)
    decreases s, 0
  {
    var bodyL, dispatch, endL := n.id, n.id + 1, n.id + 2;
    var a := LowerBlock(s.body, ctx, n.(id := n.id + 3));
    var z := LowerHandlers(s.handlers, endL, ctx, a.next);
    Code([Push(dispatch, bodyL), Lbl(bodyL)]
         + (a.ins + ([Pop, Br(endL), Lbl(dispatch), Pop] + (z.ins + [Rethrow, Lbl(endL)]))), z.next)
  }

  /** Handlers in order; a normal end goes to `after`, no match falls off the end. */
  ghost function LowerHandlers(hs: Handlers, after: int, ctx: Ctx, n: Count): (r: Code)
    ensures Grows(n, r.next)
    decreases hs, 0
  {
    match hs
    case NoHandler => Code([], n)
    case Handler(pat, body, rest) =>
      var f := n.id;
      var a := LowerBlock(body, HandlerCtx(ctx, pat, f + 2), n.(id := f + 3));
      var z := LowerHandlers(rest, after, ctx, a.next);
      Code(HandlerHead(pat, f) + (a.ins + ([Br(after), Lbl(f + 1)] + z.ins)), z.next)
  }

  ghost function HandlerHead(pat: Pattern, f: int): (r: seq<Instr>)
    ensures |r| == if pat.TypedAs? then 4 else 3
  {
    [IfExc(pat, f, f + 1), Lbl(f)] + (if pat.TypedAs? then [BindExc(f + 2), Clear] else [Clear])
  }

  /** Inside `except C as name` the name means a slot of its own. */
  function HandlerCtx(ctx: Ctx, pat: Pattern, slot: int): Ctx {
    if pat.TypedAs? then ctx.(vars := ctx.vars[pat.name := slot]) else ctx
  }

  /** Names used: f body, f+1 dispatch, f+2 end, f+3 onthrow, f+4 handler escaped,
      f+5 finally entry, f+6 return arm, f+7 rethrow arm; slots f+8 pending,
      f+9 phase, f+10 return value. */
  ghost function LowerTryFinally(s: Stmt, ctx: Ctx, n: Count): (r: Code)
    requires s.Try? && s.fin.Some?
    ensures Grows(n, r.next)
    decreases s, 0
  {
    var f := n.id;
    var inner := ctx.(fin := Some(FrameOf(ctx, f)));
    var a := LowerBlock(s.body, inner, n.(id := f + 11));
    var h := LowerHandlers(s.handlers, f + 5, inner, a.next);
    var z := LowerBlock(s.fin.value, ctx, h.next);
    Code(FinallyHead(f)
         + (a.ins + (FinallyMid(f) + (h.ins + (FinallyEnter(f) + (z.ins + FinallyTail(ctx, f)))))), z.next)
  }

  ghost function FinallyHead(f: int): (r: seq<Instr>)
    ensures |r| == 9
  {
    [SetConst(f + 8, FALLTHROUGH), SetConst(f + 9, 0), Push(f + 3, f)]
    + [Lbl(f + 3), Switch(f + 9, map[0 := f + 1], f + 4)]
    + [Lbl(f + 4), SetConst(f + 8, RETHROW), Br(f + 5), Lbl(f)]
  }

  /** End of the body, then the landing of a throw from the body. */
  ghost function FinallyMid(f: int): (r: seq<Instr>)
    ensures |r| == 3
  {
    [Br(f + 5), Lbl(f + 1), SetConst(f + 9, 1)]
  }

  /** No handler matched, then the entry of the finally. */
  ghost function FinallyEnter(f: int): (r: seq<Instr>)
    ensures |r| == 4
  {
    [SetConst(f + 8, RETHROW), Br(f + 5), Lbl(f + 5), Pop]
  }

  function FrameOf(ctx: Ctx, f: int): Fin {
    Fin(f + 5, f + 8, f + 10, ctx.brk, ctx.cont)
  }

  ghost function FinallyTail(ctx: Ctx, f: int): (r: seq<Instr>)
    ensures |r| == 6
  {
    [Switch(f + 8, PendingCases(ctx, f), f + 2), Lbl(f + 7), Rethrow]
    + [Lbl(f + 6), if ctx.void then RetVoid else Ret(f + 10), Lbl(f + 2)]
  }

  /** The switch that ends a finally: the exit that was pending, if it has a target. */
  function PendingCases(ctx: Ctx, f: int): map<int, int> {
    var m := map[RETHROW := f + 7, RETURN := f + 6];
    var brk, cont := ExitTarget(ctx, ctx.brk), ExitTarget(ctx, ctx.cont);
    var m := if brk.Some? then m[BREAK := brk.value] else m;
    if cont.Some? then m[CONTINUE := cont.value] else m
  }

  /** A whole `__next__`: the switch on the state, the body, and exhaustion. */
  ghost function LowerNext(body: Block, lay: Layout, sites: nat, n: Count): seq<Instr> {
    [Switch(lay.state, Cases(lay, sites), lay.exhausted), Lbl(lay.caseBase)]
    + (LowerBlock(body, GenCtx(lay), n).ins
       + [Br(lay.exhausted), Lbl(lay.exhausted), SetConst(lay.state, -1), ThrowStop])
  }

  function Cases(lay: Layout, sites: nat): (r: map<int, int>)
    ensures forall k {:trigger k in r} :: k in r <==> 0 <= k <= sites
    ensures forall k {:trigger r[k]} :: 0 <= k <= sites ==> r[k] == lay.caseBase + k
  {
    if sites == 0 then map[0 := lay.caseBase]
    else Cases(lay, sites - 1)[sites := lay.caseBase + sites]
  }

  function GenCtx(lay: Layout): Ctx {
    Ctx(true, false, lay, lay.vars, None, None, None)
  }

  /** An ordinary function. One without a return value gets `ret void` at its end. */
  ghost function LowerFunc(body: Block, ctx: Ctx, n: Count): seq<Instr> {
    LowerBlock(body, ctx, n).ins + [if ctx.void then RetVoid else Unreachable]
  }
}
