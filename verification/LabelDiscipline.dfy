/**
 Every label the translation places is placed once, and the resume labels it
 places are exactly the ones its yield sites were numbered for.
 */
module LabelDiscipline {
  import opened Common
  import opened StmtSyntax
  import opened Machine
  import opened Lowering

  function Is(i: Instr, l: int): nat {
    if i.Lbl? && i.l == l then 1 else 0
  }

  /** How many times `code` places label `l`. */
  ghost function Defs(code: seq<Instr>, l: int): nat {
    if code == [] then 0 else Is(code[0], l) + Defs(code[1..], l)
  }

  ghost predicate UniqueLabels(code: seq<Instr>) {
    forall i, j :: 0 <= i < j < |code| && code[i].Lbl? ==> code[i] != code[j]
  }

  predicate IsCase(l: int, lay: Layout, n: Count, n2: Count) {
    lay.caseBase + n.y < l <= lay.caseBase + n2.y
  }

  /** `l` was drawn between counts `n` and `n2`, or resumes a yield numbered between them. */
  predicate Owned(l: int, lay: Layout, n: Count, n2: Count) {
    n.id <= l < n2.id || IsCase(l, lay, n, n2)
  }

  /** Resume labels were all drawn before any label of the body. */
  predicate CasesFirst(lay: Layout, n: Count, n2: Count) {
    n2.y == n.y || lay.caseBase + n2.y < n.id
  }

  ghost predicate Disciplined(r: Code, l: int, lay: Layout, n: Count) {
    && Defs(r.ins, l) <= (if Owned(l, lay, n, r.next) then 1 else 0)
    && (IsCase(l, lay, n, r.next) ==> Defs(r.ins, l) == 1)
  }

  lemma {:induction false} DefsAppend(a: seq<Instr>, b: seq<Instr>, l: int)
    ensures Defs(a + b, l) == Defs(a, l) + Defs(b, l)
    decreases |a|
  {
    if a == [] {
      assert a + b == b;
    } else {
      assert (a + b)[1..] == a[1..] + b;
      DefsAppend(a[1..], b, l);
    }
  }

  lemma DefsCat3(a: seq<Instr>, b: seq<Instr>, c: seq<Instr>, l: int)
    ensures Defs(a + (b + c), l) == Defs(a, l) + Defs(b, l) + Defs(c, l)
  {
    DefsAppend(a, b + c, l);
    DefsAppend(b, c, l);
  }

  lemma DefsCat4(a: seq<Instr>, b: seq<Instr>, c: seq<Instr>, d: seq<Instr>, l: int)
    ensures Defs(a + (b + (c + d)), l) == Defs(a, l) + Defs(b, l) + Defs(c, l) + Defs(d, l)
  {
    DefsAppend(a, b + (c + d), l);
    DefsCat3(b, c, d, l);
  }

  lemma DefsCat5(a: seq<Instr>, b: seq<Instr>, c: seq<Instr>, d: seq<Instr>, e: seq<Instr>, l: int)
    ensures Defs(a + (b + (c + (d + e))), l) == Defs(a, l) + Defs(b, l) + Defs(c, l) + Defs(d, l) + Defs(e, l)
  {
    DefsAppend(a, b + (c + (d + e)), l);
    DefsAppend(b, c + (d + e), l);
    DefsCat3(c, d, e, l);
  }

  lemma Defs0(l: int)
    ensures Defs([], l) == 0
  {
  }

  lemma Defs1(a: Instr, l: int)
    ensures Defs([a], l) == Is(a, l)
  {
    assert [a][1..] == [];
  }

  lemma Defs2(a: Instr, b: Instr, l: int)
    ensures Defs([a, b], l) == Is(a, l) + Is(b, l)
  {
    assert [a, b][1..] == [b];
    Defs1(b, l);
  }

  lemma Defs3(a: Instr, b: Instr, c: Instr, l: int)
    ensures Defs([a, b, c], l) == Is(a, l) + Is(b, l) + Is(c, l)
  {
    assert [a, b, c][1..] == [b, c];
    Defs2(b, c, l);
  }

  lemma Defs4(a: Instr, b: Instr, c: Instr, d: Instr, l: int)
    ensures Defs([a, b, c, d], l) == Is(a, l) + Is(b, l) + Is(c, l) + Is(d, l)
  {
    assert [a, b, c, d][1..] == [b, c, d];
    Defs3(b, c, d, l);
  }

  function One(l: int, k: int): nat { if l == k then 1 else 0 }

  // ---- the fixed pieces ----

  lemma ElifHeadDefs(here: int, vars: Vars, c: Expr, f: int, nextL: int, l: int)
    ensures Defs(ElifHead(here, vars, c, f, nextL), l) == One(l, here) + One(l, f)
  {
    Defs3(Lbl(here), CondBr(vars, c, f, nextL), Lbl(f), l);
  }

  lemma IterTailDefs(d: int, s: int, r: int, e: int, l: int)
    ensures Defs(IterTail(d, s, r, e), l) == One(l, d) + One(l, s) + One(l, r) + One(l, e)
  {
    DefsAppend([Lbl(d), Pop, IfStop(s, r), Lbl(s)] + [Clear, Br(e), Lbl(r), Rethrow], [Lbl(e)], l);
    DefsAppend([Lbl(d), Pop, IfStop(s, r), Lbl(s)], [Clear, Br(e), Lbl(r), Rethrow], l);
    Defs4(Lbl(d), Pop, IfStop(s, r), Lbl(s), l);
    Defs4(Clear, Br(e), Lbl(r), Rethrow, l);
    Defs1(Lbl(e), l);
  }

  lemma ForHeadDefs(it: int, x: int, f: int, l: int)
    ensures Defs(ForHead(it, x, f), l) == One(l, f) + One(l, f + 1) + One(l, f + 2)
  {
    var a, b := [Br(f), Lbl(f), Push(f + 3, f + 1), Lbl(f + 1)], [Next(f + 7, it), Pop, Move(x, f + 7), Br(f + 2)];
    DefsAppend(a + b, [Lbl(f + 2)], l);
    DefsAppend(a, b, l);
    Defs4(Br(f), Lbl(f), Push(f + 3, f + 1), Lbl(f + 1), l);
    Defs4(Next(f + 7, it), Pop, Move(x, f + 7), Br(f + 2), l);
    Defs1(Lbl(f + 2), l);
  }

  lemma ForTailDefs(f: int, l: int)
    ensures Defs(ForTail(f), l) == One(l, f + 3) + One(l, f + 4) + One(l, f + 5) + One(l, f + 6)
  {
    DefsAppend([Br(f)], IterTail(f + 3, f + 4, f + 5, f + 6), l);
    Defs1(Br(f), l);
    IterTailDefs(f + 3, f + 4, f + 5, f + 6, l);
  }

  lemma YieldOfDefs(lay: Layout, k: int, store: Instr, l: int)
    requires !store.Lbl?
    ensures Defs(YieldOf(lay, k, [store]), l) == One(l, lay.caseBase + k)
  {
    DefsAppend([store], [SetConst(lay.state, k), Ret(lay.value), Lbl(lay.caseBase + k)], l);
    Defs1(store, l);
    Defs3(SetConst(lay.state, k), Ret(lay.value), Lbl(lay.caseBase + k), l);
  }

  lemma YieldFromHeadDefs(it: int, lay: Layout, k: int, f: int, l: int)
    ensures Defs(YieldFromHead(it, lay, k, f), l) == One(l, f) + One(l, f + 1) + One(l, lay.caseBase + k)
  {
    var a, b := [Br(f), Lbl(f), Push(f + 2, f + 1), Lbl(f + 1)], [Next(f + 6, it), Pop];
    var y := YieldOf(lay, k, [Move(lay.value, f + 6)]);
    DefsAppend(a + b + y, [Br(f)], l);
    DefsAppend(a + b, y, l);
    DefsAppend(a, b, l);
    Defs4(Br(f), Lbl(f), Push(f + 2, f + 1), Lbl(f + 1), l);
    Defs2(Next(f + 6, it), Pop, l);
    YieldOfDefs(lay, k, Move(lay.value, f + 6), l);
    Defs1(Br(f), l);
  }

  lemma HandlerHeadDefs(pat: Pattern, f: int, l: int)
    ensures Defs(HandlerHead(pat, f), l) == One(l, f)
  {
    var bind := if pat.TypedAs? then [BindExc(f + 2), Clear] else [Clear];
    DefsAppend([IfExc(pat, f, f + 1), Lbl(f)], bind, l);
    Defs2(IfExc(pat, f, f + 1), Lbl(f), l);
    if pat.TypedAs? { Defs2(BindExc(f + 2), Clear, l); } else { Defs1(Clear, l); }
  }

  lemma FinallyHeadDefs(f: int, l: int)
    ensures Defs(FinallyHead(f), l) == One(l, f) + One(l, f + 3) + One(l, f + 4)
  {
    var a := [SetConst(f + 8, FALLTHROUGH), SetConst(f + 9, 0), Push(f + 3, f)];
    var b := [Lbl(f + 3), Switch(f + 9, map[0 := f + 1], f + 4)];
    var c := [Lbl(f + 4), SetConst(f + 8, RETHROW), Br(f + 5), Lbl(f)];
    DefsAppend(a + b, c, l);
    DefsAppend(a, b, l);
    Defs3(SetConst(f + 8, FALLTHROUGH), SetConst(f + 9, 0), Push(f + 3, f), l);
    Defs2(Lbl(f + 3), Switch(f + 9, map[0 := f + 1], f + 4), l);
    Defs4(Lbl(f + 4), SetConst(f + 8, RETHROW), Br(f + 5), Lbl(f), l);
  }

  lemma FinallyMidDefs(f: int, l: int)
    ensures Defs(FinallyMid(f), l) == One(l, f + 1)
  {
    Defs3(Br(f + 5), Lbl(f + 1), SetConst(f + 9, 1), l);
  }

  lemma FinallyEnterDefs(f: int, l: int)
    ensures Defs(FinallyEnter(f), l) == One(l, f + 5)
  {
    Defs4(SetConst(f + 8, RETHROW), Br(f + 5), Lbl(f + 5), Pop, l);
  }

  lemma FinallyTailDefs(ctx: Ctx, f: int, l: int)
    ensures Defs(FinallyTail(ctx, f), l) == One(l, f + 2) + One(l, f + 6) + One(l, f + 7)
  {
    var ret := if ctx.void then RetVoid else Ret(f + 10);
    DefsAppend([Switch(f + 8, PendingCases(ctx, f), f + 2), Lbl(f + 7), Rethrow], [Lbl(f + 6), ret, Lbl(f + 2)], l);
    Defs3(Switch(f + 8, PendingCases(ctx, f), f + 2), Lbl(f + 7), Rethrow, l);
    Defs3(Lbl(f + 6), ret, Lbl(f + 2), l);
  }

  // ---- statements ----

  lemma {:induction false} BlockLabels(b: Block, ctx: Ctx, n: Count, l: int)
    requires CasesFirst(ctx.lay, n, LowerBlock(b, ctx, n).next)
    ensures Disciplined(LowerBlock(b, ctx, n), l, ctx.lay, n)
    decreases b, 0
  {
    match b
    case Nil =>
    case Cons(s, rest) =>
      var a := LowerStmt(s, ctx, n);
      StmtLabels(s, ctx, n, l);
      BlockLabels(rest, ctx, a.next, l);
      DefsAppend(a.ins, LowerBlock(rest, ctx, a.next).ins, l);
  }

  lemma {:induction false} StmtLabels(s: Stmt, ctx: Ctx, n: Count, l: int)
    requires CasesFirst(ctx.lay, n, LowerStmt(s, ctx, n).next)
    ensures Disciplined(LowerStmt(s, ctx, n), l, ctx.lay, n)
    decreases s, 1
  {
    match s
    case If(c, thn, els) => IfLabels(s, ctx, n, l);
    case While(c, body) => WhileLabels(s, ctx, n, l);
    case ForIter(x, e, body) => ForLabels(s, ctx, n, l);
    case YieldFrom(e) => YieldFromLabels(e, ctx, n, l);
    case Try(body, handlers, fin) =>
      if fin.None? { TryLabels(s, ctx, n, l); } else { TryFinallyLabels(s, ctx, n, l); }
    case _ => SimpleLabels(s, ctx, n, l);
  }

  predicate Simple(s: Stmt) {
    !(s.If? || s.While? || s.ForIter? || s.YieldFrom? || s.Try?)
  }

  lemma SimpleLabels(s: Stmt, ctx: Ctx, n: Count, l: int)
    requires Simple(s)
    ensures Disciplined(LowerStmt(s, ctx, n), l, ctx.lay, n)
  {
    var f := n.id;
    match s
    case Eval(e) => Defs1(Do(ctx.vars, e), l);
    case Assign(x, e) => Defs1(Set(Slot(ctx.vars, x), ctx.vars, e), l);
    case Break => ExitLabels(BreakRouted(ctx), ctx.fin, BREAK, ctx.brk, f, l);
    case Continue => ExitLabels(ContinueRouted(ctx), ctx.fin, CONTINUE, ctx.cont, f, l);
    case Return(v) =>
      if v.None? {
        Defs2(Br(ctx.lay.exhausted), Lbl(f), l);
        Defs1(RetVoid, l);
        if ctx.fin.Some? {
          Defs3(SetConst(ctx.fin.value.pending, RETURN), Br(ctx.fin.value.entry), Lbl(f), l);
        }
      } else {
        Defs1(RetExpr(ctx.vars, v.value), l);
        if ctx.fin.Some? {
          Defs4(Set(ctx.fin.value.ret, ctx.vars, v.value), SetConst(ctx.fin.value.pending, RETURN),
                Br(ctx.fin.value.entry), Lbl(f), l);
        }
      }
    case Raise(e) => Defs2(Throw(ctx.vars, e), Lbl(f), l);
    case Yield(e) => YieldOfDefs(ctx.lay, n.y + 1, Set(ctx.lay.value, ctx.vars, e), l);
  }

  lemma ExitLabels(routed: bool, fin: Option<Fin>, code: int, target: Option<int>, f: int, l: int)
    requires routed ==> fin.Some?
    ensures Defs((if routed then [SetConst(fin.value.pending, code), Br(fin.value.entry)]
                  else [Br(Or(target))]) + [Lbl(f)], l)
         == One(l, f)
  {
    if routed {
      DefsAppend([SetConst(fin.value.pending, code), Br(fin.value.entry)], [Lbl(f)], l);
      Defs2(SetConst(fin.value.pending, code), Br(fin.value.entry), l);
    } else {
      DefsAppend([Br(Or(target))], [Lbl(f)], l);
      Defs1(Br(Or(target)), l);
    }
    Defs1(Lbl(f), l);
  }

  lemma {:induction false} IfLabels(s: Stmt, ctx: Ctx, n: Count, l: int)
    requires s.If? && CasesFirst(ctx.lay, n, LowerIf(s, ctx, n).next)
    ensures Disciplined(LowerIf(s, ctx, n), l, ctx.lay, n)
    decreases s, 0
  {
    var thenL, endL := n.id, n.id + 1;
    var elseL := if s.els.NoElse? then endL else n.id + 2;
    var n1 := n.(id := if s.els.NoElse? then n.id + 2 else n.id + 3);
    var a := LowerBlock(s.thn, ctx, n1);
    var z := LowerElifs(s.els, elseL, endL, 0, ctx, a.next);
    BlockLabels(s.thn, ctx, n1, l);
    ElifsLabels(s.els, elseL, endL, 0, ctx, a.next, l);
    DefsCat5([CondBr(ctx.vars, s.c, thenL, elseL), Lbl(thenL)], a.ins, [Br(endL)], z.ins, [Lbl(endL)], l);
    hide Defs, LowerBlock, LowerElifs, LowerHandlers;
    Defs2(CondBr(ctx.vars, s.c, thenL, elseL), Lbl(thenL), l);
    Defs1(Br(endL), l);
    Defs1(Lbl(endL), l);
  }

  lemma {:induction false} ElifsLabels(els: Elifs, here: int, endL: int, i: nat, ctx: Ctx, n: Count, l: int)
    requires here < n.id && CasesFirst(ctx.lay, n.(id := here), LowerElifs(els, here, endL, i, ctx, n).next)
    ensures var r := LowerElifs(els, here, endL, i, ctx, n);
      && Defs(r.ins, l) <= (if Owned(l, ctx.lay, n, r.next) || (l == here && !els.NoElse?) then 1 else 0)
      && (IsCase(l, ctx.lay, n, r.next) ==> Defs(r.ins, l) == 1)
    decreases els, 1
  {
    match els
    case NoElse =>
    case Else(b) =>
      var a := LowerBlock(b, ctx, n);
      BlockLabels(b, ctx, n, l);
      hide Defs, LowerBlock;
      DefsCat3([Lbl(here)], a.ins, [Br(endL)], l);
      Defs1(Lbl(here), l);
      Defs1(Br(endL), l);
    case Elif(c, b, rest) =>
      ElifLabels(els, here, endL, i, ctx, n, l);
  }

  lemma {:induction false} ElifLabels(els: Elifs, here: int, endL: int, i: nat, ctx: Ctx, n: Count, l: int)
    requires els.Elif?
    requires here < n.id && CasesFirst(ctx.lay, n.(id := here), LowerElifs(els, here, endL, i, ctx, n).next)
    ensures var r := LowerElifs(els, here, endL, i, ctx, n);
      && Defs(r.ins, l) <= (if Owned(l, ctx.lay, n, r.next) || l == here then 1 else 0)
      && (IsCase(l, ctx.lay, n, r.next) ==> Defs(r.ins, l) == 1)
    decreases els, 0
  {
    var f := if i > 0 then n.id + 1 else n.id;
    var nextL := if els.rest.NoElse? then endL else f + 1;
    var n1 := n.(id := if els.rest.NoElse? then f + 1 else f + 2);
    var a := LowerBlock(els.b, ctx, n1);
    var z := LowerElifs(els.rest, nextL, endL, i + 1, ctx, a.next);
    var r := LowerElifs(els, here, endL, i, ctx, n);
    assert r == Code(ElifHead(here, ctx.vars, els.c, f, nextL) + (a.ins + ([Br(endL)] + z.ins)), z.next);
    assert els.rest.NoElse? ==> z == Code([], a.next);
    hide Defs, LowerBlock, LowerElifs, ElifHead;
    BlockLabels(els.b, ctx, n1, l);
    if !els.rest.NoElse? {
      ElifsLabels(els.rest, nextL, endL, i + 1, ctx, a.next, l);
    } else {
      Defs0(l);
    }
    DefsCat4(ElifHead(here, ctx.vars, els.c, f, nextL), a.ins, [Br(endL)], z.ins, l);
    ElifHeadDefs(here, ctx.vars, els.c, f, nextL, l);
    Defs1(Br(endL), l);
  }

  lemma {:induction false} WhileLabels(s: Stmt, ctx: Ctx, n: Count, l: int)
    requires s.While? && CasesFirst(ctx.lay, n, LowerWhile(s, ctx, n).next)
    ensures Disciplined(LowerWhile(s, ctx, n), l, ctx.lay, n)
    decreases s, 0
  {
    var f := n.id;
    var a := LowerBlock(s.body, LoopCtx(ctx, f + 2, f), n.(id := f + 3));
    BlockLabels(s.body, LoopCtx(ctx, f + 2, f), n.(id := f + 3), l);
    hide Defs, LowerBlock, LowerElifs, LowerHandlers;
    DefsCat3(WhileHead(ctx.vars, s.c, f), a.ins, [Br(f), Lbl(f + 2)], l);
    Defs4(Br(f), Lbl(f), CondBr(ctx.vars, s.c, f + 1, f + 2), Lbl(f + 1), l);
    Defs2(Br(f), Lbl(f + 2), l);
  }

  lemma {:induction false} ForLabels(s: Stmt, ctx: Ctx, n: Count, l: int)
    requires s.ForIter? && CasesFirst(ctx.lay, n, LowerFor(s, ctx, n).next)
    ensures Disciplined(LowerFor(s, ctx, n), l, ctx.lay, n)
    decreases s, 0
  {
    var f, it := n.id, ctx.lay.fiBase + n.fi;
    var n1 := n.(id := f + 8, fi := n.fi + 1);
    var a := LowerBlock(s.body, LoopCtx(ctx, f + 6, f), n1);
    var head := ForHead(it, Slot(ctx.vars, s.x), f);
    BlockLabels(s.body, LoopCtx(ctx, f + 6, f), n1, l);
    hide Defs, LowerBlock, LowerElifs, LowerHandlers;
    DefsCat4([GetIter(it, ctx.vars, s.e)], head, a.ins, ForTail(f), l);
    Defs1(GetIter(it, ctx.vars, s.e), l);
    ForHeadDefs(it, Slot(ctx.vars, s.x), f, l);
    ForTailDefs(f, l);
  }

  lemma YieldFromLabels(e: Expr, ctx: Ctx, n: Count, l: int)
    requires CasesFirst(ctx.lay, n, LowerYieldFrom(e, ctx, n).next)
    ensures Disciplined(LowerYieldFrom(e, ctx, n), l, ctx.lay, n)
  {
    var f, it := n.id, ctx.lay.yfBase + n.yf;
    var head := YieldFromHead(it, ctx.lay, n.y + 1, f);
    DefsCat3([GetIter(it, ctx.vars, e)], head, IterTail(f + 2, f + 3, f + 4, f + 5), l);
    Defs1(GetIter(it, ctx.vars, e), l);
    YieldFromHeadDefs(it, ctx.lay, n.y + 1, f, l);
    IterTailDefs(f + 2, f + 3, f + 4, f + 5, l);
  }

  lemma {:induction false} TryLabels(s: Stmt, ctx: Ctx, n: Count, l: int)
    requires s.Try? && CasesFirst(ctx.lay, n, LowerTry(s, ctx, n).next)
    ensures Disciplined(LowerTry(s, ctx, n), l, ctx.lay, n)
    decreases s, 0
  {
    var bodyL, dispatch, endL := n.id, n.id + 1, n.id + 2;
    var n1 := n.(id := n.id + 3);
    var a := LowerBlock(s.body, ctx, n1);
    var z := LowerHandlers(s.handlers, endL, ctx, a.next);
    BlockLabels(s.body, ctx, n1, l);
    HandlersLabels(s.handlers, endL, ctx, a.next, l);
    hide Defs, LowerBlock, LowerElifs, LowerHandlers;
    DefsCat5([Push(dispatch, bodyL), Lbl(bodyL)], a.ins, [Pop, Br(endL), Lbl(dispatch), Pop], z.ins,
             [Rethrow, Lbl(endL)], l);
    Defs2(Push(dispatch, bodyL), Lbl(bodyL), l);
    Defs4(Pop, Br(endL), Lbl(dispatch), Pop, l);
    Defs2(Rethrow, Lbl(endL), l);
  }

  lemma {:induction false} HandlersLabels(hs: Handlers, after: int, ctx: Ctx, n: Count, l: int)
    requires CasesFirst(ctx.lay, n, LowerHandlers(hs, after, ctx, n).next)
    ensures Disciplined(LowerHandlers(hs, after, ctx, n), l, ctx.lay, n)
    decreases hs, 0
  {
    hide Defs, LowerBlock, HandlerHead;
    match hs
    case NoHandler => Defs0(l);
    case Handler(pat, body, rest) =>
      var f := n.id;
      var inner := HandlerCtx(ctx, pat, f + 2);
      var a := LowerBlock(body, inner, n.(id := f + 3));
      var z := LowerHandlers(rest, after, ctx, a.next);
      BlockLabels(body, inner, n.(id := f + 3), l);
      HandlersLabels(rest, after, ctx, a.next, l);
      DefsCat4(HandlerHead(pat, f), a.ins, [Br(after), Lbl(f + 1)], z.ins, l);
      HandlerHeadDefs(pat, f, l);
      Defs2(Br(after), Lbl(f + 1), l);
  }

  lemma {:induction false} TryFinallyLabels(s: Stmt, ctx: Ctx, n: Count, l: int)
    requires s.Try? && s.fin.Some? && CasesFirst(ctx.lay, n, LowerTryFinally(s, ctx, n).next)
    ensures Disciplined(LowerTryFinally(s, ctx, n), l, ctx.lay, n)
    decreases s, 0
  {
    var f := n.id;
    var inner := ctx.(fin := Some(FrameOf(ctx, f)));
    var a := LowerBlock(s.body, inner, n.(id := f + 11));
    var h := LowerHandlers(s.handlers, f + 5, inner, a.next);
    var z := LowerBlock(s.fin.value, ctx, h.next);
    BlockLabels(s.body, inner, n.(id := f + 11), l);
    HandlersLabels(s.handlers, f + 5, inner, a.next, l);
    BlockLabels(s.fin.value, ctx, h.next, l);
    hide Defs, FinallyHead, FinallyMid, FinallyEnter, FinallyTail, LowerBlock, LowerHandlers;
    TryFinallyDefs(ctx, f, a.ins, h.ins, z.ins, l);
  }

  lemma TryFinallyDefs(ctx: Ctx, f: int, a: seq<Instr>, h: seq<Instr>, z: seq<Instr>, l: int)
    ensures Defs(FinallyHead(f) + (a + (FinallyMid(f) + (h + (FinallyEnter(f) + (z + FinallyTail(ctx, f)))))), l)
         == Defs(a, l) + Defs(h, l) + Defs(z, l) + (if f <= l < f + 8 then 1 else 0)
  {
    hide Defs, FinallyHead, FinallyMid, FinallyEnter, FinallyTail;
    DefsCat4(FinallyHead(f), a, FinallyMid(f), h + (FinallyEnter(f) + (z + FinallyTail(ctx, f))), l);
    DefsCat4(h, FinallyEnter(f), z, FinallyTail(ctx, f), l);
    FinallyHeadDefs(f, l);
    FinallyMidDefs(f, l);
    FinallyEnterDefs(f, l);
    FinallyTailDefs(ctx, f, l);
  }

  // ---- whole functions ----

  lemma {:induction false} DefsAt(code: seq<Instr>, i: nat)
    requires i < |code| && code[i].Lbl?
    ensures Defs(code, code[i].l) >= 1
    decreases i
  {
    if i > 0 {
      DefsAt(code[1..], i - 1);
    }
  }

  /** A sequence in which each label is placed at most once. */
  lemma {:induction false} UniqueFromDefs(code: seq<Instr>)
    requires forall l: int :: Defs(code, l) <= 1
    ensures UniqueLabels(code)
  {
    forall i, j | 0 <= i < j < |code| && code[i].Lbl? ensures code[i] != code[j] {
      if code[i] == code[j] {
        var a, b := code[..j], code[j..];
        assert code == a + b;
        DefsAppend(a, b, code[i].l);
        DefsAt(a, i);
        assert false;
      }
    }
  }

  lemma {:induction false} FindAt(code: seq<Instr>, i: nat)
    requires UniqueLabels(code) && i < |code| && code[i].Lbl?
    ensures Find(code, code[i].l) == i
    decreases i
  {
    if i > 0 {
      assert code[0] != code[i];
      var tail := code[1..];
      assert forall a, b :: 0 <= a < b < |tail| && tail[a].Lbl? ==> tail[a] == code[a + 1] && tail[b] == code[b + 1];
      FindAt(tail, i - 1);
    }
  }

  /** The whole `__next__` of a generator: no label twice, each resume label of the
      switch exactly once. */
  lemma {:induction false} NextLabels(body: Block, lay: Layout, sites: nat, n: Count)
    requires n.y == 0 && LowerBlock(body, GenCtx(lay), n).next.y == sites
    requires lay.exhausted < lay.caseBase && lay.caseBase + sites < n.id
    ensures UniqueLabels(LowerNext(body, lay, sites, n))
    ensures forall l :: lay.caseBase <= l <= lay.caseBase + sites ==> Defs(LowerNext(body, lay, sites, n), l) == 1
  {
    var code := LowerNext(body, lay, sites, n);
    var a := LowerBlock(body, GenCtx(lay), n).ins;
    var tail := [Br(lay.exhausted), Lbl(lay.exhausted), SetConst(lay.state, -1), ThrowStop];
    forall l: int ensures Defs(code, l) <= 1 && (lay.caseBase <= l <= lay.caseBase + sites ==> Defs(code, l) == 1) {
      BlockLabels(body, GenCtx(lay), n, l);
      DefsAppend([Switch(lay.state, Cases(lay, sites), lay.exhausted), Lbl(lay.caseBase)], a + tail, l);
      DefsAppend(a, tail, l);
      Defs2(Switch(lay.state, Cases(lay, sites), lay.exhausted), Lbl(lay.caseBase), l);
      Defs4(Br(lay.exhausted), Lbl(lay.exhausted), SetConst(lay.state, -1), ThrowStop, l);
    }
    UniqueFromDefs(code);
  }

  lemma {:induction false} FuncLabels(body: Block, ctx: Ctx, n: Count)
    requires LowerBlock(body, ctx, n).next.y == n.y
    ensures UniqueLabels(LowerFunc(body, ctx, n))
  {
    var code := LowerFunc(body, ctx, n);
    var last := if ctx.void then RetVoid else Unreachable;
    forall l: int ensures Defs(code, l) <= 1 {
      BlockLabels(body, ctx, n, l);
      DefsAppend(LowerBlock(body, ctx, n).ins, [last], l);
      Defs1(last, l);
    }
    UniqueFromDefs(code);
  }

  /** A label that is placed is somewhere. */
  lemma {:induction false} Placed(code: seq<Instr>, l: int) returns (i: nat)
    requires Defs(code, l) > 0
    ensures i < |code| && code[i] == Lbl(l)
    decreases |code|
  {
    if code[0] == Lbl(l) {
      i := 0;
    } else {
      var j := Placed(code[1..], l);
      i := j + 1;
    }
  }

  // ---- the emitter uses up exactly the sites that are counted ----

  ghost predicate Uses(n: Count, s: Sites, n2: Count) {
    n2.y == n.y + s.y && n2.yf == n.yf + s.yf && n2.fi == n.fi + s.fi
  }

  lemma {:induction false} SitesUsed(b: Block, ctx: Ctx, n: Count)
    ensures Uses(n, SitesOf(b), LowerBlock(b, ctx, n).next)
    decreases b, 0
  {
    match b
    case Nil =>
    case Cons(s, rest) =>
      SitesUsedIn(s, ctx, n);
      SitesUsed(rest, ctx, LowerStmt(s, ctx, n).next);
  }

  lemma {:induction false} SitesUsedIn(s: Stmt, ctx: Ctx, n: Count)
    ensures Uses(n, SitesIn(s), LowerStmt(s, ctx, n).next)
    decreases s, 1
  {
    hide LowerTry, LowerTryFinally, LowerBlock, LowerElifs, SitesOf, SitesOfElifs, SitesOfHandlers, WhileHead;
    hide ForHead, ForTail;
    match s
    case If(c, thn, els) =>
      var n1 := n.(id := if els.NoElse? then n.id + 2 else n.id + 3);
      SitesUsed(thn, ctx, n1);
      SitesUsedElifs(els, if els.NoElse? then n.id + 1 else n.id + 2, n.id + 1, 0, ctx, LowerBlock(thn, ctx, n1).next);
    case While(c, body) => SitesUsed(body, LoopCtx(ctx, n.id + 2, n.id), n.(id := n.id + 3));
    case ForIter(x, e, body) => SitesUsed(body, LoopCtx(ctx, n.id + 6, n.id), n.(id := n.id + 8, fi := n.fi + 1));
    case Try(body, hs, fin) =>
      if fin.None? { SitesUsedTry(s, ctx, n); } else { SitesUsedFinally(s, ctx, n); }
    case _ =>
  }

  lemma {:induction false} SitesUsedTry(s: Stmt, ctx: Ctx, n: Count)
    requires s.Try? && s.fin.None?
    ensures Uses(n, SitesIn(s), LowerTry(s, ctx, n).next)
    decreases s, 0
  {
    var n1 := n.(id := n.id + 3);
    SitesUsed(s.body, ctx, n1);
    SitesUsedHandlers(s.handlers, n.id + 2, ctx, LowerBlock(s.body, ctx, n1).next);
  }

  lemma {:induction false} SitesUsedFinally(s: Stmt, ctx: Ctx, n: Count)
    requires s.Try? && s.fin.Some?
    ensures Uses(n, SitesIn(s), LowerTryFinally(s, ctx, n).next)
    decreases s, 0
  {
    hide LowerBlock, LowerHandlers, SitesOf, SitesOfHandlers;
    var inner, n1 := ctx.(fin := Some(FrameOf(ctx, n.id))), n.(id := n.id + 11);
    var a := LowerBlock(s.body, inner, n1);
    SitesUsed(s.body, inner, n1);
    SitesUsedHandlers(s.handlers, n.id + 5, inner, a.next);
    SitesUsed(s.fin.value, ctx, LowerHandlers(s.handlers, n.id + 5, inner, a.next).next);
  }

  lemma {:induction false} SitesUsedElifs(els: Elifs, here: int, endL: int, i: nat, ctx: Ctx, n: Count)
    ensures Uses(n, SitesOfElifs(els), LowerElifs(els, here, endL, i, ctx, n).next)
    decreases els, 0
  {
    match els
    case NoElse =>
    case Else(b) => SitesUsed(b, ctx, n);
    case Elif(c, b, rest) =>
      var f := if i > 0 then n.id + 1 else n.id;
      var n1 := n.(id := if rest.NoElse? then f + 1 else f + 2);
      SitesUsed(b, ctx, n1);
      SitesUsedElifs(rest, if rest.NoElse? then endL else f + 1, endL, i + 1, ctx, LowerBlock(b, ctx, n1).next);
  }

  lemma {:induction false} SitesUsedHandlers(hs: Handlers, after: int, ctx: Ctx, n: Count)
    ensures Uses(n, SitesOfHandlers(hs), LowerHandlers(hs, after, ctx, n).next)
    decreases hs, 0
  {
    match hs
    case NoHandler =>
    case Handler(pat, body, rest) =>
      var inner, n1 := HandlerCtx(ctx, pat, n.id + 2), n.(id := n.id + 3);
      SitesUsed(body, inner, n1);
      SitesUsedHandlers(rest, after, ctx, LowerBlock(body, inner, n1).next);
  }
}
