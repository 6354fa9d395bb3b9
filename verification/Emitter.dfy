/**
 The code generator itself: one mutable object that appends instructions, draws
 fresh numbers and keeps the stacks of enclosing loops and finallies. Each method
 appends exactly the code whose meaning the other modules establish, and leaves
 the stacks and the variable table as it found them.
 */
module Emitter {
  import opened Common
  import opened StmtSyntax
  import opened Machine
  import opened Lowering
  import opened GeneratorLayout
  import opened LabelDiscipline
  import opened Simulation
  import opened GeneratorCorrect
  import opened FunctionCorrect
  import opened Covered
  import opened Faithful
  import opened Compiled

  /** Whether the generator accepts a block: breaks and continues inside loops only,
      yields inside generators only. */
  predicate Accepts(b: Block, gen: bool, loop: bool) {
    b.Cons? ==> AcceptsStmt(b.head, gen, loop) && Accepts(b.tail, gen, loop)
  }

  predicate AcceptsStmt(s: Stmt, gen: bool, loop: bool) {
    match s
    case If(_, thn, els) => Accepts(thn, gen, loop) && AcceptsElifs(els, gen, loop)
    case While(_, body) => Accepts(body, gen, true)
    case ForIter(_, _, body) => Accepts(body, gen, true)
    case Break => loop
    case Continue => loop
    case Yield(_) => gen
    case YieldFrom(_) => gen
    case Try(body, hs, fin) =>
      Accepts(body, gen, loop) && AcceptsHandlers(hs, gen, loop) && (fin.Some? ==> Accepts(fin.value, gen, loop))
    case _ => true
  }

  predicate AcceptsElifs(els: Elifs, gen: bool, loop: bool) {
    match els
    case NoElse => true
    case Else(b) => Accepts(b, gen, loop)
    case Elif(_, b, rest) => Accepts(b, gen, loop) && AcceptsElifs(rest, gen, loop)
  }

  predicate AcceptsHandlers(hs: Handlers, gen: bool, loop: bool) {
    hs.Handler? ==> Accepts(hs.body, gen, loop) && AcceptsHandlers(hs.rest, gen, loop)
  }

  function Last<T>(s: seq<T>): Option<T> {
    if s == [] then None else Some(s[|s| - 1])
  }

  lemma LastPushed<T>(s: seq<T>, x: T)
    ensures Last(s + [x]) == Some(x) && (s + [x])[..|s + [x]| - 1] == s
  {
  }

  // ---- how the pieces of each statement's code fit together ----

  lemma BlockCode(b: Block, ctx: Ctx, n: Count, before: seq<Instr>)
    returns (a: Code, z: Code)
    requires b.Cons?
    ensures a == LowerStmt(b.head, ctx, n) && z == LowerBlock(b.tail, ctx, a.next)
    ensures LowerBlock(b, ctx, n).next == z.next && Grows(a.next, z.next)
    ensures before + LowerBlock(b, ctx, n).ins == before + a.ins + z.ins
  {
    a := LowerStmt(b.head, ctx, n);
    z := LowerBlock(b.tail, ctx, a.next);
  }

  lemma YieldFromCode(e: Expr, ctx: Ctx, n: Count, before: seq<Instr>)
    ensures var f, it := n.id, ctx.lay.yfBase + n.yf;
      before + LowerYieldFrom(e, ctx, n).ins
      == before + [GetIter(it, ctx.vars, e), Br(f), Lbl(f), Push(f + 2, f + 1), Lbl(f + 1), Next(f + 6, it), Pop]
         + [Move(ctx.lay.value, f + 6), SetConst(ctx.lay.state, n.y + 1), Ret(ctx.lay.value),
            Lbl(ctx.lay.caseBase + n.y + 1), Br(f)]
         + IterTail(f + 2, f + 3, f + 4, f + 5)
  {
    var f, it := n.id, ctx.lay.yfBase + n.yf;
    var x, y := [GetIter(it, ctx.vars, e), Br(f), Lbl(f), Push(f + 2, f + 1), Lbl(f + 1), Next(f + 6, it), Pop],
      [Move(ctx.lay.value, f + 6), SetConst(ctx.lay.state, n.y + 1), Ret(ctx.lay.value),
       Lbl(ctx.lay.caseBase + n.y + 1), Br(f)];
    assert [GetIter(it, ctx.vars, e)] + YieldFromHead(it, ctx.lay, n.y + 1, f) == x + y;
    assert LowerYieldFrom(e, ctx, n).ins == x + y + IterTail(f + 2, f + 3, f + 4, f + 5);
  }

  lemma IfCode(s: Stmt, ctx: Ctx, n: Count, before: seq<Instr>)
    returns (n1: Count, elseL: int, a: Code, z: Code)
    requires s.If?
    ensures elseL == (if s.els.NoElse? then n.id + 1 else n.id + 2)
    ensures n1 == n.(id := if s.els.NoElse? then n.id + 2 else n.id + 3)
    ensures a == LowerBlock(s.thn, ctx, n1) && z == LowerElifs(s.els, elseL, n.id + 1, 0, ctx, a.next)
    ensures LowerIf(s, ctx, n).next == z.next && Grows(a.next, z.next)
    ensures before + LowerIf(s, ctx, n).ins
      == before + [CondBr(ctx.vars, s.c, n.id, elseL), Lbl(n.id)] + a.ins + [Br(n.id + 1)] + z.ins + [Lbl(n.id + 1)]
  {
    hide LowerBlock, LowerElifs;
    elseL := if s.els.NoElse? then n.id + 1 else n.id + 2;
    n1 := n.(id := if s.els.NoElse? then n.id + 2 else n.id + 3);
    a := LowerBlock(s.thn, ctx, n1);
    z := LowerElifs(s.els, elseL, n.id + 1, 0, ctx, a.next);
  }

  lemma ElifCode(els: Elifs, here: int, endL: int, i: nat, ctx: Ctx, n: Count, before: seq<Instr>)
    returns (f: int, nextL: int, n1: Count, a: Code, z: Code)
    requires els.Elif?
    ensures f == (if i > 0 then n.id + 1 else n.id) && nextL == (if els.rest.NoElse? then endL else f + 1)
    ensures n1 == n.(id := if els.rest.NoElse? then f + 1 else f + 2)
    ensures a == LowerBlock(els.b, ctx, n1) && z == LowerElifs(els.rest, nextL, endL, i + 1, ctx, a.next)
    ensures LowerElifs(els, here, endL, i, ctx, n).next == z.next && Grows(a.next, z.next)
    ensures before + LowerElifs(els, here, endL, i, ctx, n).ins
      == before + [Lbl(here), CondBr(ctx.vars, els.c, f, nextL), Lbl(f)] + a.ins + [Br(endL)] + z.ins
  {
    hide LowerBlock;
    f := if i > 0 then n.id + 1 else n.id;
    nextL := if els.rest.NoElse? then endL else f + 1;
    n1 := n.(id := if els.rest.NoElse? then f + 1 else f + 2);
    a := LowerBlock(els.b, ctx, n1);
    z := LowerElifs(els.rest, nextL, endL, i + 1, ctx, a.next);
    ElifCat(els, here, endL, i, ctx, n, f, nextL, a, z);
  }

  lemma ElifCat(els: Elifs, here: int, endL: int, i: nat, ctx: Ctx, n: Count, f: int, nextL: int, a: Code, z: Code)
    requires els.Elif? && f == (if i > 0 then n.id + 1 else n.id) && nextL == (if els.rest.NoElse? then endL else f + 1)
    requires a == LowerBlock(els.b, ctx, n.(id := if els.rest.NoElse? then f + 1 else f + 2))
    requires z == LowerElifs(els.rest, nextL, endL, i + 1, ctx, a.next)
    ensures LowerElifs(els, here, endL, i, ctx, n)
      == Code([Lbl(here), CondBr(ctx.vars, els.c, f, nextL), Lbl(f)] + (a.ins + ([Br(endL)] + z.ins)), z.next)
  {
    hide LowerBlock;
  }

  lemma ElseCode(b: Block, here: int, endL: int, i: nat, ctx: Ctx, n: Count, before: seq<Instr>)
    returns (a: Code)
    ensures a == LowerBlock(b, ctx, n) && LowerElifs(Else(b), here, endL, i, ctx, n).next == a.next
    ensures before + LowerElifs(Else(b), here, endL, i, ctx, n).ins == before + [Lbl(here)] + a.ins + [Br(endL)]
  {
    hide LowerBlock;
    a := LowerBlock(b, ctx, n);
  }

  lemma WhileCode(s: Stmt, ctx: Ctx, n: Count, before: seq<Instr>)
    returns (a: Code)
    requires s.While?
    ensures a == LowerBlock(s.body, LoopCtx(ctx, n.id + 2, n.id), n.(id := n.id + 3))
    ensures LowerWhile(s, ctx, n).next == a.next
    ensures before + LowerWhile(s, ctx, n).ins
      == before + WhileHead(ctx.vars, s.c, n.id) + a.ins + [Br(n.id), Lbl(n.id + 2)]
  {
    hide LowerBlock, WhileHead;
    a := LowerBlock(s.body, LoopCtx(ctx, n.id + 2, n.id), n.(id := n.id + 3));
  }

  lemma ForCode(s: Stmt, ctx: Ctx, n: Count, before: seq<Instr>)
    returns (a: Code)
    requires s.ForIter?
    ensures a == LowerBlock(s.body, LoopCtx(ctx, n.id + 6, n.id), n.(id := n.id + 8, fi := n.fi + 1))
    ensures LowerFor(s, ctx, n).next == a.next
    ensures var f, it := n.id, ctx.lay.fiBase + n.fi;
      before + LowerFor(s, ctx, n).ins
      == before + [GetIter(it, ctx.vars, s.e)] + ForHead(it, Slot(ctx.vars, s.x), f) + a.ins + [Br(f)]
         + IterTail(f + 3, f + 4, f + 5, f + 6)
  {
    hide LowerBlock, ForHead, IterTail, Slot;
    a := LowerBlock(s.body, LoopCtx(ctx, n.id + 6, n.id), n.(id := n.id + 8, fi := n.fi + 1));
    Cat5(before, [GetIter(ctx.lay.fiBase + n.fi, ctx.vars, s.e)],
         ForHead(ctx.lay.fiBase + n.fi, Slot(ctx.vars, s.x), n.id), a.ins,
         [Br(n.id)], IterTail(n.id + 3, n.id + 4, n.id + 5, n.id + 6));
  }

  lemma Cat5(a: seq<Instr>, b: seq<Instr>, c: seq<Instr>, d: seq<Instr>, e: seq<Instr>, f: seq<Instr>)
    ensures a + (b + (c + (d + (e + f)))) == a + b + c + d + e + f
  {
  }

  lemma TryCode(s: Stmt, ctx: Ctx, n: Count, before: seq<Instr>)
    returns (a: Code, z: Code)
    requires s.Try?
    ensures a == LowerBlock(s.body, ctx, n.(id := n.id + 3)) && z == LowerHandlers(s.handlers, n.id + 2, ctx, a.next)
    ensures LowerTry(s, ctx, n).next == z.next && Grows(a.next, z.next)
    ensures before + LowerTry(s, ctx, n).ins
      == before + [Push(n.id + 1, n.id), Lbl(n.id)] + a.ins + [Pop, Br(n.id + 2), Lbl(n.id + 1), Pop] + z.ins
        + [Rethrow, Lbl(n.id + 2)]
  {
    hide LowerBlock, LowerHandlers;
    a := LowerBlock(s.body, ctx, n.(id := n.id + 3));
    z := LowerHandlers(s.handlers, n.id + 2, ctx, a.next);
    Cat5(before, [Push(n.id + 1, n.id), Lbl(n.id)], a.ins, [Pop, Br(n.id + 2), Lbl(n.id + 1), Pop], z.ins,
         [Rethrow, Lbl(n.id + 2)]);
  }

  lemma HandlerCode(hs: Handlers, after: int, ctx: Ctx, n: Count, before: seq<Instr>)
    returns (a: Code, z: Code)
    requires hs.Handler?
    ensures a == LowerBlock(hs.body, HandlerCtx(ctx, hs.pat, n.id + 2), n.(id := n.id + 3))
    ensures z == LowerHandlers(hs.rest, after, ctx, a.next)
    ensures LowerHandlers(hs, after, ctx, n).next == z.next && Grows(a.next, z.next)
    ensures before + LowerHandlers(hs, after, ctx, n).ins
      == before + HandlerHead(hs.pat, n.id) + a.ins + [Br(after), Lbl(n.id + 1)] + z.ins
  {
    hide LowerBlock, HandlerHead;
    a := LowerBlock(hs.body, HandlerCtx(ctx, hs.pat, n.id + 2), n.(id := n.id + 3));
    z := LowerHandlers(hs.rest, after, ctx, a.next);
    assert LowerHandlers(hs, after, ctx, n).ins
        == HandlerHead(hs.pat, n.id) + (a.ins + ([Br(after), Lbl(n.id + 1)] + z.ins));
  }

  lemma FinallyCode(s: Stmt, ctx: Ctx, n: Count, before: seq<Instr>)
    returns (inner: Ctx, a: Code, h: Code, z: Code)
    requires s.Try? && s.fin.Some?
    ensures inner == ctx.(fin := Some(FrameOf(ctx, n.id))) && a == LowerBlock(s.body, inner, n.(id := n.id + 11))
    ensures h == LowerHandlers(s.handlers, n.id + 5, inner, a.next) && z == LowerBlock(s.fin.value, ctx, h.next)
    ensures LowerTryFinally(s, ctx, n).next == z.next && Grows(a.next, h.next) && Grows(h.next, z.next)
    ensures before + LowerTryFinally(s, ctx, n).ins
      == before + FinallyHead(n.id) + a.ins + FinallyMid(n.id) + h.ins + FinallyEnter(n.id) + z.ins
        + FinallyTail(ctx, n.id)
  {
    hide LowerBlock, LowerHandlers, FinallyHead, FinallyMid, FinallyEnter, FinallyTail;
    inner := ctx.(fin := Some(FrameOf(ctx, n.id)));
    a := LowerBlock(s.body, inner, n.(id := n.id + 11));
    h := LowerHandlers(s.handlers, n.id + 5, inner, a.next);
    z := LowerBlock(s.fin.value, ctx, h.next);
    Cat5(before, FinallyHead(n.id), a.ins, FinallyMid(n.id), h.ins,
         FinallyEnter(n.id) + (z.ins + FinallyTail(ctx, n.id)));
    Cat5(before + FinallyHead(n.id), a.ins, FinallyMid(n.id), h.ins, FinallyEnter(n.id),
         z.ins + FinallyTail(ctx, n.id));
    assert forall x: seq<Instr> :: x + (z.ins + FinallyTail(ctx, n.id)) == x + z.ins + FinallyTail(ctx, n.id);
  }

  lemma NothingMore(ctx: Ctx, n: Count)
    ensures LowerBlock(Nil, ctx, n) == Code([], n)
  {
  }

  lemma NoElseCode(here: int, endL: int, i: nat, ctx: Ctx, n: Count)
    ensures LowerElifs(NoElse, here, endL, i, ctx, n) == Code([], n)
  {
  }

  lemma NoHandlerCode(after: int, ctx: Ctx, n: Count)
    ensures LowerHandlers(NoHandler, after, ctx, n) == Code([], n)
  {
  }

  class Generator {
    const gen: bool
    const void: bool
    const lay: Layout
    /** Prepared for a generator before its body: the labels the switch leads to and
        the fields for inner iterators, each used once, in order. */
    const caseLabels: seq<int>
    const yfPtrs: seq<int>
    const foriterPtrs: seq<int>

    var code: seq<Instr>
    var id: int
    var yieldCount: nat
    var yfCount: nat
    var foriterCount: nat
    var vars: Vars
    var breakLabels: seq<int>
    var continueLabels: seq<int>
    var finallyStack: seq<Fin>

    ghost predicate Valid() reads this {
      && |breakLabels| == |continueLabels|
      && (forall k {:trigger caseLabels[k]} :: 0 <= k < |caseLabels| ==> caseLabels[k] == lay.caseBase + k)
      && (forall i {:trigger yfPtrs[i]} :: 0 <= i < |yfPtrs| ==> yfPtrs[i] == lay.yfBase + i)
      && (forall i {:trigger foriterPtrs[i]} :: 0 <= i < |foriterPtrs| ==> foriterPtrs[i] == lay.fiBase + i)
    }

    ghost function Context(): Ctx reads this {
      Ctx(gen, void, lay, vars, Last(breakLabels), Last(continueLabels), Last(finallyStack))
    }

    ghost function Counts(): Count reads this { Count(id, yieldCount, yfCount, foriterCount) }

    /** The prepared labels and fields last until the counters reach `n`. */
    ghost predicate Fits(n: Count) {
      gen ==> n.y < |caseLabels| && n.yf <= |yfPtrs| && n.fi <= |foriterPtrs|
    }

    twostate predicate SameScope() reads this {
      && vars == old(vars) && breakLabels == old(breakLabels) && continueLabels == old(continueLabels)
      && finallyStack == old(finallyStack)
    }

    twostate predicate Emitted(L: Code) reads this {
      Valid() && SameScope() && code == old(code) + L.ins && Counts() == L.next
    }

    constructor (gen: bool, void: bool, lay: Layout, sites: Sites, n: Count)
      ensures Valid() && this.gen == gen && this.void == void && this.lay == lay
      ensures |caseLabels| == sites.y + 1 && |yfPtrs| == sites.yf && |foriterPtrs| == sites.fi
      ensures code == [] && Counts() == n && Context() == Ctx(gen, void, lay, lay.vars, None, None, None)
    {
      this.gen, this.void, this.lay := gen, void, lay;
      caseLabels := seq(sites.y + 1, k => lay.caseBase + k);
      yfPtrs := seq(sites.yf, i => lay.yfBase + i);
      foriterPtrs := seq(sites.fi, i => lay.fiBase + i);
      code, vars := [], lay.vars;
      id, yieldCount, yfCount, foriterCount := n.id, n.y, n.yf, n.fi;
      breakLabels, continueLabels, finallyStack := [], [], [];
    }

    /** The whole `__next__` of a generator. */
    method EmitNext(body: Block) returns (ok: bool)
      requires Valid() && gen && code == [] && Context() == GenCtx(lay)
      requires Counts() == Count(id, 0, 0, 0)
      requires |caseLabels| == SitesOf(body).y + 1 && |yfPtrs| == SitesOf(body).yf && |foriterPtrs| == SitesOf(body).fi
      modifies this
      ensures ok <==> Accepts(body, true, false)
      ensures ok ==> code == LowerNext(body, lay, SitesOf(body).y, old(Counts()))
    {
      hide LowerBlock, Accepts, SitesOf;
      ghost var n := Counts();
      SitesUsed(body, GenCtx(lay), n);
      var cases, i := map[0 := caseLabels[0]], 1;
      while i < |caseLabels|
        invariant 1 <= i <= |caseLabels| && cases == Cases(lay, i - 1)
      {
        cases := cases[i := caseLabels[i]];
        i := i + 1;
      }
      Emit([Switch(lay.state, cases, lay.exhausted), Lbl(caseLabels[0])]);
      ok := EmitBlock(body);
      if !ok { return; }
      Emit([Br(lay.exhausted), Lbl(lay.exhausted), SetConst(lay.state, -1), ThrowStop]);
    }

    /** The body of an ordinary function. */
    method EmitFunc(body: Block) returns (ok: bool)
      requires Valid() && !gen && code == [] && SitesOf(body).fi == 0 && breakLabels == []
      modifies this
      ensures ok <==> Accepts(body, false, false)
      ensures ok ==> code == LowerFunc(body, old(Context()), old(Counts()))
    {
      hide LowerBlock, Accepts, SitesOf;
      ok := EmitBlock(body);
      if !ok { return; }
      if void { Emit([RetVoid]); } else { Emit([Unreachable]); }
    }

    /** Draws `k` consecutive numbers for labels and slots. */
    method NewLabels(k: nat) returns (first: int)
      modifies this`id
      ensures first == old(id) && id == first + k
    {
      first := id;
      id := id + k;
    }

    method Emit(ins: seq<Instr>)
      modifies this`code
      ensures code == old(code) + ins
    {
      code := code + ins;
    }

    method EmitBlock(b: Block) returns (ok: bool)
      requires Valid() && Fits(LowerBlock(b, Context(), Counts()).next)
      requires gen || SitesOf(b).fi == 0
      modifies this
      ensures ok <==> Accepts(b, gen, |old(breakLabels)| > 0)
      ensures ok ==> Emitted(LowerBlock(b, old(Context()), old(Counts())))
      decreases b, 0
    {
      hide LowerStmt, LowerBlock, AcceptsStmt, SitesIn;
      var rest := b;
      ghost var L := LowerBlock(b, Context(), Counts());
      while rest.Cons?
        invariant Valid() && SameScope()
        invariant code + LowerBlock(rest, Context(), Counts()).ins == old(code) + L.ins
        invariant LowerBlock(rest, Context(), Counts()).next == L.next
        invariant gen || SitesOf(rest).fi == 0
        invariant Accepts(rest, gen, |breakLabels| > 0) <==> Accepts(b, gen, |breakLabels| > 0)
        invariant rest == b || rest < b
        decreases rest
      {
        ghost var a, z := BlockCode(rest, Context(), Counts(), code);
        ok := EmitStmt(rest.head);
        if !ok { return false; }
        rest := rest.tail;
      }
      NothingMore(Context(), Counts());
      return true;
    }

    method EmitStmt(s: Stmt) returns (ok: bool)
      requires Valid() && Fits(LowerStmt(s, Context(), Counts()).next)
      requires gen || SitesIn(s).fi == 0
      modifies this
      ensures ok <==> AcceptsStmt(s, gen, |old(breakLabels)| > 0)
      ensures ok ==> Emitted(LowerStmt(s, old(Context()), old(Counts())))
      decreases s, 3
    {
      hide LowerIf, LowerWhile, LowerFor, LowerTry, LowerTryFinally, LowerYieldFrom, SitesOf, SitesOfElifs;
      hide SitesOfHandlers;
      match s
      case Eval(e) => Emit([Do(vars, e)]); ok := true;
      case Assign(x, e) => Emit([Set(Slot(vars, x), vars, e)]); ok := true;
      case Raise(e) =>
        var after := NewLabels(1);
        Emit([Throw(vars, e), Lbl(after)]);
        ok := true;
      case Break => ok := EmitBreak();
      case Continue => ok := EmitContinue();
      case Return(v) => EmitReturn(v); ok := true;
      case Yield(e) => ok := EmitYield(e);
      case YieldFrom(e) => ok := EmitYieldFrom(e);
      case If(_, _, _) => ok := EmitIf(s);
      case While(_, _) => ok := EmitWhile(s);
      case ForIter(_, _, _) => ok := EmitFor(s);
      case Try(_, _, fin) => if fin.Some? { ok := EmitTryFinally(s); } else { ok := EmitTry(s); }
    }

    method EmitBreak() returns (ok: bool)
      requires Valid()
      modifies this
      ensures ok <==> |old(breakLabels)| > 0
      ensures ok ==> Emitted(LowerStmt(Break, old(Context()), old(Counts())))
    {
      if |breakLabels| == 0 { return false; }
      var target := breakLabels[|breakLabels| - 1];
      if |finallyStack| > 0 && finallyStack[|finallyStack| - 1].brk == Some(target) {
        var frame := finallyStack[|finallyStack| - 1];
        Emit([SetConst(frame.pending, BREAK), Br(frame.entry)]);
      } else {
        Emit([Br(target)]);
      }
      var after := NewLabels(1);
      Emit([Lbl(after)]);
      return true;
    }

    method EmitContinue() returns (ok: bool)
      requires Valid()
      modifies this
      ensures ok <==> |old(breakLabels)| > 0
      ensures ok ==> Emitted(LowerStmt(Continue, old(Context()), old(Counts())))
    {
      if |continueLabels| == 0 { return false; }
      var target := continueLabels[|continueLabels| - 1];
      if |finallyStack| > 0 && finallyStack[|finallyStack| - 1].cont == Some(target) {
        var frame := finallyStack[|finallyStack| - 1];
        Emit([SetConst(frame.pending, CONTINUE), Br(frame.entry)]);
      } else {
        Emit([Br(target)]);
      }
      var after := NewLabels(1);
      Emit([Lbl(after)]);
      return true;
    }

    method EmitReturn(v: Option<Expr>)
      requires Valid()
      modifies this
      ensures Emitted(LowerStmt(Return(v), old(Context()), old(Counts())))
    {
      if v.None? && gen {
        var after := NewLabels(1);
        Emit([Br(lay.exhausted), Lbl(after)]);
      } else if |finallyStack| > 0 {
        var frame := finallyStack[|finallyStack| - 1];
        var after := NewLabels(1);
        if v.Some? { Emit([Set(frame.ret, vars, v.value)]); }
        Emit([SetConst(frame.pending, RETURN), Br(frame.entry), Lbl(after)]);
      } else if v.Some? {
        Emit([RetExpr(vars, v.value)]);
      } else {
        Emit([RetVoid]);
      }
    }

    method EmitYield(e: Expr) returns (ok: bool)
      requires Valid() && Fits(LowerStmt(Yield(e), Context(), Counts()).next)
      modifies this
      ensures ok <==> gen
      ensures ok ==> Emitted(LowerStmt(Yield(e), old(Context()), old(Counts())))
    {
      if !gen { return false; }
      Emit([Set(lay.value, vars, e)]);
      yieldCount := yieldCount + 1;
      Emit([SetConst(lay.state, yieldCount), Ret(lay.value), Lbl(caseLabels[yieldCount])]);
      return true;
    }

    method EmitIterTail(dispatch: int, stop: int, rethrow: int, end: int)
      modifies this`code
      ensures code == old(code) + IterTail(dispatch, stop, rethrow, end)
    {
      Emit([Lbl(dispatch), Pop, IfStop(stop, rethrow), Lbl(stop)]);
      Emit([Clear, Br(end), Lbl(rethrow), Rethrow]);
      Emit([Lbl(end)]);
    }

    method EmitYieldFrom(e: Expr) returns (ok: bool)
      requires Valid() && Fits(LowerYieldFrom(e, Context(), Counts()).next)
      modifies this
      ensures ok <==> gen
      ensures ok ==> Emitted(LowerYieldFrom(e, old(Context()), old(Counts())))
    {
      hide IterTail;
      if !gen { return false; }
      YieldFromCode(e, Context(), Counts(), code);
      var it := yfPtrs[yfCount];
      yfCount := yfCount + 1;
      var head := NewLabels(7);
      var tmp := head + 6;
      Emit([GetIter(it, vars, e), Br(head), Lbl(head), Push(head + 2, head + 1), Lbl(head + 1), Next(tmp, it), Pop]);
      yieldCount := yieldCount + 1;
      Emit([Move(lay.value, tmp), SetConst(lay.state, yieldCount), Ret(lay.value),
            Lbl(caseLabels[yieldCount]), Br(head)]);
      EmitIterTail(head + 2, head + 3, head + 4, head + 5);
      return true;
    }

    method EmitIf(s: Stmt) returns (ok: bool)
      requires s.If? && Valid() && Fits(LowerIf(s, Context(), Counts()).next)
      requires gen || SitesIn(s).fi == 0
      modifies this
      ensures ok <==> AcceptsStmt(s, gen, |old(breakLabels)| > 0)
      ensures ok ==> Emitted(LowerIf(s, old(Context()), old(Counts())))
      decreases s, 2
    {
      hide LowerIf, LowerBlock, LowerElifs, Accepts, AcceptsElifs, SitesOf, SitesOfElifs;
      ghost var n1, el, a, z := IfCode(s, Context(), Counts(), code);
      var thenL := NewLabels(2);
      var endL := thenL + 1;
      var elseL := endL;
      if !s.els.NoElse? { elseL := NewLabels(1); }
      Emit([CondBr(vars, s.c, thenL, elseL), Lbl(thenL)]);
      ok := EmitBlock(s.thn);
      if !ok { return; }
      Emit([Br(endL)]);
      ok := EmitElifs(s.els, elseL, endL);
      if !ok { return; }
      Emit([Lbl(endL)]);
    }

    method EmitElifs(els: Elifs, first: int, endL: int) returns (ok: bool)
      requires Valid() && Fits(LowerElifs(els, first, endL, 0, Context(), Counts()).next)
      requires gen || SitesOfElifs(els).fi == 0
      modifies this
      ensures ok <==> AcceptsElifs(els, gen, |old(breakLabels)| > 0)
      ensures ok ==> Emitted(LowerElifs(els, first, endL, 0, old(Context()), old(Counts())))
      decreases els, 1
    {
      hide LowerBlock, LowerElifs, Accepts, SitesOf;
      var rest, here, i := els, first, 0;
      ghost var L := LowerElifs(els, first, endL, 0, Context(), Counts());
      while rest.Elif?
        invariant Valid() && SameScope() && i >= 0
        invariant code + LowerElifs(rest, here, endL, i, Context(), Counts()).ins == old(code) + L.ins
        invariant LowerElifs(rest, here, endL, i, Context(), Counts()).next == L.next
        invariant gen || SitesOfElifs(rest).fi == 0
        invariant AcceptsElifs(rest, gen, |breakLabels| > 0) <==> AcceptsElifs(els, gen, |breakLabels| > 0)
        invariant rest == els || rest < els
        decreases rest
      {
        ok, here := EmitElif(rest, here, endL, i);
        if !ok { return false; }
        rest, i := rest.rest, i + 1;
      }
      if rest.Else? {
        ghost var a := ElseCode(rest.b, here, endL, i, Context(), Counts(), code);
        Emit([Lbl(here)]);
        ok := EmitBlock(rest.b);
        if !ok { return false; }
        Emit([Br(endL)]);
      } else {
        NoElseCode(here, endL, i, Context(), Counts());
      }
      return true;
    }

    /** One `elif`. From the second on, a label number is drawn and not used. */
    method EmitElif(els: Elifs, here: int, endL: int, i: nat) returns (ok: bool, next: int)
      requires els.Elif? && Valid() && Fits(LowerElifs(els, here, endL, i, Context(), Counts()).next)
      requires gen || SitesOf(els.b).fi == 0
      modifies this
      ensures ok <==> Accepts(els.b, gen, |old(breakLabels)| > 0)
      ensures ok ==> Valid() && SameScope()
      ensures ok ==> var all := LowerElifs(els, here, endL, i, old(Context()), old(Counts()));
        && code + LowerElifs(els.rest, next, endL, i + 1, Context(), Counts()).ins == old(code) + all.ins
        && LowerElifs(els.rest, next, endL, i + 1, Context(), Counts()).next == all.next
      decreases els, 0
    {
      hide LowerBlock, LowerElifs, Accepts, SitesOf;
      ghost var f, nl, n1, a, z := ElifCode(els, here, endL, i, Context(), Counts(), code);
      if i > 0 { var unused := NewLabels(1); }
      var thenL := NewLabels(1);
      next := endL;
      if !els.rest.NoElse? { next := NewLabels(1); }
      Emit([Lbl(here), CondBr(vars, els.c, thenL, next), Lbl(thenL)]);
      ok := EmitBlock(els.b);
      if !ok { return; }
      Emit([Br(endL)]);
    }

    /** A loop body, with the loop's labels on top of the stacks meanwhile. */
    method EmitLoopBody(b: Block, brk: int, cont: int) returns (ok: bool)
      requires Valid() && Fits(LowerBlock(b, LoopCtx(Context(), brk, cont), Counts()).next)
      requires gen || SitesOf(b).fi == 0
      modifies this
      ensures ok <==> Accepts(b, gen, true)
      ensures ok ==> Emitted(LowerBlock(b, LoopCtx(old(Context()), brk, cont), old(Counts())))
      decreases b, 1
    {
      hide LowerBlock, Accepts, SitesOf;
      LastPushed(breakLabels, brk);
      LastPushed(continueLabels, cont);
      breakLabels, continueLabels := breakLabels + [brk], continueLabels + [cont];
      ok := EmitBlock(b);
      if !ok { return; }
      breakLabels, continueLabels := breakLabels[..|breakLabels| - 1], continueLabels[..|continueLabels| - 1];
    }

    /** What a finally guards, with its frame on top of the stack meanwhile. */
    method EmitGuarded(b: Block, frame: Fin) returns (ok: bool)
      requires Valid() && Fits(LowerBlock(b, Context().(fin := Some(frame)), Counts()).next)
      requires gen || SitesOf(b).fi == 0
      modifies this
      ensures ok <==> Accepts(b, gen, |old(breakLabels)| > 0)
      ensures ok ==> Emitted(LowerBlock(b, old(Context()).(fin := Some(frame)), old(Counts())))
      decreases b, 1
    {
      hide LowerBlock, Accepts, SitesOf;
      LastPushed(finallyStack, frame);
      finallyStack := finallyStack + [frame];
      ok := EmitBlock(b);
      if !ok { return; }
      finallyStack := finallyStack[..|finallyStack| - 1];
    }

    method EmitWhile(s: Stmt) returns (ok: bool)
      requires s.While? && Valid() && Fits(LowerWhile(s, Context(), Counts()).next)
      requires gen || SitesIn(s).fi == 0
      modifies this
      ensures ok <==> AcceptsStmt(s, gen, |old(breakLabels)| > 0)
      ensures ok ==> Emitted(LowerWhile(s, old(Context()), old(Counts())))
      decreases s, 2
    {
      hide LowerWhile, LowerBlock, Accepts, SitesOf;
      ghost var a := WhileCode(s, Context(), Counts(), code);
      var cond := NewLabels(3);
      var end := cond + 2;
      Emit([Br(cond), Lbl(cond), CondBr(vars, s.c, cond + 1, end), Lbl(cond + 1)]);
      ok := EmitLoopBody(s.body, end, cond);
      if !ok { return; }
      Emit([Br(cond), Lbl(end)]);
    }

    method EmitFor(s: Stmt) returns (ok: bool)
      requires s.ForIter? && Valid() && Fits(LowerFor(s, Context(), Counts()).next)
      requires gen || SitesIn(s).fi == 0
      modifies this
      ensures ok <==> AcceptsStmt(s, gen, |old(breakLabels)| > 0)
      ensures ok ==> Emitted(LowerFor(s, old(Context()), old(Counts())))
      decreases s, 2
    {
      hide LowerFor, LowerBlock, Accepts, SitesOf, IterTail;
      ghost var a := ForCode(s, Context(), Counts(), code);
      var it := foriterPtrs[foriterCount];
      foriterCount := foriterCount + 1;
      Emit([GetIter(it, vars, s.e)]);
      var head := NewLabels(8);
      var end := head + 6;
      EmitForHead(it, Slot(vars, s.x), head);
      ok := EmitLoopBody(s.body, end, head);
      if !ok { return; }
      Emit([Br(head)]);
      EmitIterTail(head + 3, head + 4, head + 5, end);
    }

    method EmitForHead(it: int, x: int, head: int)
      modifies this`code
      ensures code == old(code) + ForHead(it, x, head)
    {
      Emit([Br(head), Lbl(head), Push(head + 3, head + 1), Lbl(head + 1)]);
      Emit([Next(head + 7, it), Pop, Move(x, head + 7), Br(head + 2), Lbl(head + 2)]);
    }

    method EmitTry(s: Stmt) returns (ok: bool)
      requires s.Try? && s.fin.None? && Valid() && Fits(LowerTry(s, Context(), Counts()).next)
      requires gen || SitesIn(s).fi == 0
      modifies this
      ensures ok <==> AcceptsStmt(s, gen, |old(breakLabels)| > 0)
      ensures ok ==> Emitted(LowerTry(s, old(Context()), old(Counts())))
      decreases s, 2
    {
      hide LowerTry, LowerBlock, LowerHandlers, Accepts, AcceptsHandlers, SitesOf, SitesOfHandlers;
      ghost var a, z := TryCode(s, Context(), Counts(), code);
      var bodyL := NewLabels(3);
      var dispatch, endL := bodyL + 1, bodyL + 2;
      Emit([Push(dispatch, bodyL), Lbl(bodyL)]);
      ok := EmitBlock(s.body);
      if !ok { return; }
      Emit([Pop, Br(endL), Lbl(dispatch), Pop]);
      ok := EmitHandlers(s.handlers, endL, None);
      if !ok { return; }
      Emit([Rethrow, Lbl(endL)]);
    }

    /** The context in which the clauses of a try are emitted. */
    ghost function Framed(frame: Option<Fin>): Ctx reads this {
      if frame.Some? then Context().(fin := frame) else Context()
    }

    method EmitHandlers(hs: Handlers, after: int, frame: Option<Fin>) returns (ok: bool)
      requires Valid() && Fits(LowerHandlers(hs, after, Framed(frame), Counts()).next)
      requires gen || SitesOfHandlers(hs).fi == 0
      modifies this
      ensures ok <==> AcceptsHandlers(hs, gen, |old(breakLabels)| > 0)
      ensures ok ==> Emitted(LowerHandlers(hs, after, old(Framed(frame)), old(Counts())))
      decreases hs, 1
    {
      hide LowerHandlers, Accepts, SitesOf;
      var rest := hs;
      ghost var L := LowerHandlers(hs, after, Framed(frame), Counts());
      while rest.Handler?
        invariant Valid() && SameScope()
        invariant code + LowerHandlers(rest, after, Framed(frame), Counts()).ins == old(code) + L.ins
        invariant LowerHandlers(rest, after, Framed(frame), Counts()).next == L.next
        invariant gen || SitesOfHandlers(rest).fi == 0
        invariant AcceptsHandlers(rest, gen, |breakLabels| > 0) <==> AcceptsHandlers(hs, gen, |breakLabels| > 0)
        invariant rest == hs || rest < hs
        decreases rest
      {
        ok := EmitHandler(rest, after, frame);
        if !ok { return false; }
        rest := rest.rest;
      }
      NoHandlerCode(after, Framed(frame), Counts());
      return true;
    }

    /** One clause: its name gets a slot of its own while its body is emitted. */
    method EmitHandler(hs: Handlers, after: int, frame: Option<Fin>) returns (ok: bool)
      requires hs.Handler? && Valid() && Fits(LowerHandlers(hs, after, Framed(frame), Counts()).next)
      requires gen || SitesOf(hs.body).fi == 0
      modifies this
      ensures ok <==> Accepts(hs.body, gen, |old(breakLabels)| > 0)
      ensures ok ==> Valid() && SameScope()
      ensures ok ==> var all := LowerHandlers(hs, after, old(Framed(frame)), old(Counts()));
        && code + LowerHandlers(hs.rest, after, Framed(frame), Counts()).ins == old(code) + all.ins
        && LowerHandlers(hs.rest, after, Framed(frame), Counts()).next == all.next
      decreases hs, 0
    {
      hide LowerBlock, LowerHandlers, Accepts, SitesOf, HandlerHead;
      ghost var a, z := HandlerCode(hs, after, Framed(frame), Counts(), code);
      var matchL := NewLabels(3);
      var saved := vars;
      EmitHandlerHead(hs.pat, matchL);
      if frame.Some? { ok := EmitGuarded(hs.body, frame.value); } else { ok := EmitBlock(hs.body); }
      if !ok { return; }
      vars := saved;
      Emit([Br(after), Lbl(matchL + 1)]);
    }

    method EmitHandlerHead(pat: Pattern, matchL: int)
      modifies this`code, this`vars
      ensures code == old(code) + HandlerHead(pat, matchL)
      ensures vars == if pat.TypedAs? then old(vars)[pat.name := matchL + 2] else old(vars)
    {
      Emit([IfExc(pat, matchL, matchL + 1), Lbl(matchL)]);
      if pat.TypedAs? {
        Emit([BindExc(matchL + 2)]);
        vars := vars[pat.name := matchL + 2];
      }
      Emit([Clear]);
    }

    /** Where the switch after a finally sends a pending break or continue: always to
        the enclosing finally when there is one. */
    method ResolveExitTarget(exit: Option<int>) returns (target: Option<int>)
      ensures target == ExitTarget(Context(), exit)
    {
      if |finallyStack| == 0 { return exit; }
      return Some(finallyStack[|finallyStack| - 1].entry);
    }

    method EmitTryFinally(s: Stmt) returns (ok: bool)
      requires s.Try? && s.fin.Some? && Valid() && Fits(LowerTryFinally(s, Context(), Counts()).next)
      requires gen || SitesIn(s).fi == 0
      modifies this
      ensures ok <==> AcceptsStmt(s, gen, |old(breakLabels)| > 0)
      ensures ok ==> Emitted(LowerTryFinally(s, old(Context()), old(Counts())))
      decreases s, 2
    {
      hide LowerTryFinally, LowerBlock, LowerHandlers, Accepts, AcceptsHandlers, SitesOf, SitesOfHandlers,
           FinallyHead, FinallyMid, FinallyEnter, FinallyTail, ExitTarget;
      ghost var ctx := Context();
      ghost var inner, a, h, z := FinallyCode(s, ctx, Counts(), code);
      var bodyL := NewLabels(11);
      var frame := Fin(bodyL + 5, bodyL + 8, bodyL + 10, Last(breakLabels), Last(continueLabels));
      var breakTarget := ResolveExitTarget(frame.brk);
      var contTarget := ResolveExitTarget(frame.cont);
      EmitFinallyHead(frame, bodyL);
      ok := EmitGuarded(s.body, frame);
      if !ok { return; }
      EmitFinallyMid(frame, bodyL);
      ok := EmitHandlers(s.handlers, frame.entry, Some(frame));
      if !ok { return; }
      ok := EmitFinallyBody(s.fin.value, ctx, frame, breakTarget, contTarget, bodyL);
    }

    method EmitFinallyBody(b: Block, ghost ctx: Ctx, frame: Fin, breakTarget: Option<int>, contTarget: Option<int>,
                           bodyL: int)
      returns (ok: bool)
      requires Valid() && Fits(LowerBlock(b, ctx, Counts()).next) && ctx == Context()
      requires frame.entry == bodyL + 5 && frame.pending == bodyL + 8 && frame.ret == bodyL + 10
      requires breakTarget == ExitTarget(ctx, ctx.brk) && contTarget == ExitTarget(ctx, ctx.cont)
      requires gen || SitesOf(b).fi == 0
      modifies this
      ensures ok <==> Accepts(b, gen, |old(breakLabels)| > 0)
      ensures ok ==> Valid() && SameScope() && Counts() == LowerBlock(b, ctx, old(Counts())).next
      ensures ok ==>
        code == old(code) + FinallyEnter(bodyL) + LowerBlock(b, ctx, old(Counts())).ins + FinallyTail(ctx, bodyL)
      decreases b, 1
    {
      hide LowerBlock, Accepts, SitesOf, FinallyTail, ExitTarget;
      Emit([SetConst(frame.pending, RETHROW), Br(frame.entry), Lbl(frame.entry), Pop]);
      ok := EmitBlock(b);
      if !ok { return; }
      EmitFinallyTail(ctx, frame, breakTarget, contTarget, bodyL);
    }

    method EmitFinallyHead(frame: Fin, bodyL: int)
      requires frame.entry == bodyL + 5 && frame.pending == bodyL + 8
      modifies this`code
      ensures code == old(code) + FinallyHead(bodyL)
    {
      var phase, onThrow, escaped := bodyL + 9, bodyL + 3, bodyL + 4;
      Emit([SetConst(frame.pending, FALLTHROUGH), SetConst(phase, 0), Push(onThrow, bodyL)]);
      Emit([Lbl(onThrow), Switch(phase, map[0 := bodyL + 1], escaped)]);
      Emit([Lbl(escaped), SetConst(frame.pending, RETHROW), Br(frame.entry), Lbl(bodyL)]);
    }

    method EmitFinallyMid(frame: Fin, bodyL: int)
      requires frame.entry == bodyL + 5
      modifies this`code
      ensures code == old(code) + FinallyMid(bodyL)
    {
      Emit([Br(frame.entry), Lbl(bodyL + 1), SetConst(bodyL + 9, 1)]);
    }

    method EmitFinallyTail(ghost ctx: Ctx, frame: Fin, breakTarget: Option<int>, contTarget: Option<int>, bodyL: int)
      requires frame.pending == bodyL + 8 && frame.ret == bodyL + 10 && ctx.void == void
      requires breakTarget == ExitTarget(ctx, ctx.brk) && contTarget == ExitTarget(ctx, ctx.cont)
      modifies this`code
      ensures code == old(code) + FinallyTail(ctx, bodyL)
    {
      var rethrow, doReturn, endL := bodyL + 7, bodyL + 6, bodyL + 2;
      var cases := map[RETHROW := rethrow, RETURN := doReturn];
      if breakTarget.Some? { cases := cases[BREAK := breakTarget.value]; }
      if contTarget.Some? { cases := cases[CONTINUE := contTarget.value]; }
      Emit([Switch(frame.pending, cases, endL), Lbl(rethrow), Rethrow]);
      Emit([Lbl(doReturn), if void then RetVoid else Ret(frame.ret), Lbl(endL)]);
    }
  }

  /** From the text of a generator to the code of its `__next__`: rejected exactly when
      a break or continue is outside every loop, and otherwise the translation whose
      runs GeneratorCorrect describes, on a layout that is sound exactly when no local
      is named like the state field. */
  method CompileGenerator(params: seq<string>, body: Block, firstLabel: int)
    returns (ok: bool, code: seq<Instr>, lay: Layout, n: Count)
    ensures ok <==> Accepts(body, true, false)
    ensures ok ==> code == LowerNext(body, lay, LowerBlock(body, GenCtx(lay), n).next.y, n)
    ensures GoodLayout(body, lay, n) <==> "__state" !in Assigned(body) - Names(params)
    ensures lay.vars.Keys == Names(params) + Assigned(body)
    ensures forall us :: OkBlock(body, true, false, us, TOP) ==> ok && OkBlock(body, true, false, lay.vars.Keys, TOP)
    ensures forall us, w: World :: GoodText(w, params, body, us) ==>
      ok && Delivers(Program(w, code, lay.fields), body, lay)
  {
    hide LowerBlock, LowerNext, Accepts, SitesOf, GoodLayout, Assigned, OkBlock, Delivers, GoodText;
    var fields, sites;
    fields, lay, n, sites := Plan(params, body, firstLabel);
    SitesUsed(body, GenCtx(lay), n);
    var g := new Generator(true, false, lay, sites, n);
    ok := g.EmitNext(body);
    code := g.code;
    forall us | OkBlock(body, true, false, us, TOP) ensures ok && OkBlock(body, true, false, lay.vars.Keys, TOP) {
      CoveredAccepted(body, true, false, us, TOP, false);
      FoundNames(body, true, false, us, lay.vars.Keys, TOP);
    }
    forall us, w: World | GoodText(w, params, body, us)
      ensures ok && Delivers(Program(w, code, lay.fields), body, lay)
    {
      GoodTextSays(w, params, body, us);
      ProgramIs(w, body, lay, n, code);
      GeneratorDelivers(Program(w, code, lay.fields), w, body, lay, n);
    }
  }

  /** A text to which the theorem on its calls applies, for a class hierarchy and a world:
      covered with some names, no local named like the state field, and finallies that
      catch nothing. */
  ghost predicate GoodText(w: World, params: seq<string>, body: Block, us: set<string>) {
    && w.gen && StopsAreStops(w) && OkBlock(body, true, false, us, TOP) && QuietFinallies(w, body)
    && "__state" !in Assigned(body) - Names(params)
  }

  lemma GoodTextSays(w: World, params: seq<string>, body: Block, us: set<string>)
    requires GoodText(w, params, body, us)
    ensures w.gen && StopsAreStops(w) && OkBlock(body, true, false, us, TOP) && QuietFinallies(w, body)
    ensures "__state" !in Assigned(body) - Names(params)
  {
    hide OkBlock, QuietFinallies, Assigned;
  }

  lemma ProgramIs(w: World, body: Block, lay: Layout, n: Count, code: seq<Instr>)
    requires code == LowerNext(body, lay, LowerBlock(body, GenCtx(lay), n).next.y, n)
    ensures Program(w, code, lay.fields) == GenProgram(w, body, lay, n)
  {
    hide LowerBlock, LowerNext;
  }

  // ---- covered texts are accepted ----

  lemma {:induction false} CoveredAccepted(b: Block, gen: bool, void: bool, us: set<string>, sc: Scope, loop: bool)
    requires OkBlock(b, gen, void, us, sc) && (sc.loopOk ==> loop)
    ensures Accepts(b, gen, loop)
    decreases b, 0
  {
    hide AcceptsStmt, OkStmt;
    if b.Cons? {
      CoveredStmtAccepted(b.head, gen, void, us, sc, loop);
      CoveredAccepted(b.tail, gen, void, us, sc, loop);
    }
  }

  lemma {:induction false} CoveredStmtAccepted(s: Stmt, gen: bool, void: bool, us: set<string>, sc: Scope, loop: bool)
    requires OkStmt(s, gen, void, us, sc) && (sc.loopOk ==> loop)
    ensures AcceptsStmt(s, gen, loop)
    decreases s, 1
  {
    hide Accepts, AcceptsElifs, AcceptsHandlers, OkBlock, OkElifs, OkHandlers;
    match s
    case If(_, thn, els) =>
      CoveredAccepted(thn, gen, void, us, sc, loop);
      CoveredElifsAccepted(els, gen, void, us, sc, loop);
    case While(_, body) => CoveredAccepted(body, gen, void, us, sc.(loopOk := true), true);
    case ForIter(_, _, body) => CoveredAccepted(body, gen, void, us, sc.(loopOk := true), true);
    case Try(body, hs, None) =>
      CoveredAccepted(body, gen, void, us, BodyScope(sc, gen), loop);
      CoveredHandlersAccepted(hs, gen, void, us, sc, loop);
    case Try(body, hs, Some(fin)) =>
      CoveredAccepted(body, gen, void, us, FinallyScope(sc, gen), loop);
      CoveredHandlersAccepted(hs, gen, void, us, FinallyScope(sc, gen), loop);
      CoveredAccepted(fin, gen, void, us, Scope(false, false, true, sc.inFin), loop);
    case _ =>
  }

  lemma {:induction false} CoveredElifsAccepted(els: Elifs, gen: bool, void: bool, us: set<string>, sc: Scope,
                                                loop: bool)
    requires OkElifs(els, gen, void, us, sc) && (sc.loopOk ==> loop)
    ensures AcceptsElifs(els, gen, loop)
    decreases els, 0
  {
    hide Accepts, OkBlock;
    match els
    case NoElse =>
    case Else(b) => CoveredAccepted(b, gen, void, us, sc, loop);
    case Elif(_, b, rest) =>
      CoveredAccepted(b, gen, void, us, sc, loop);
      CoveredElifsAccepted(rest, gen, void, us, sc, loop);
  }

  lemma {:induction false} CoveredHandlersAccepted(hs: Handlers, gen: bool, void: bool, us: set<string>, sc: Scope,
                                                   loop: bool)
    requires OkHandlers(hs, gen, void, us, sc) && (sc.loopOk ==> loop)
    ensures AcceptsHandlers(hs, gen, loop)
    decreases hs, 0
  {
    hide Accepts, OkBlock;
    if hs.Handler? {
      CoveredAccepted(hs.body, gen, void, us + Bound(hs.pat), ClauseScope(sc, hs.pat), loop);
      CoveredHandlersAccepted(hs.rest, gen, void, us, sc, loop);
    }
  }

  /** One stack slot for each variable, in order. */
  method Allocate(names: seq<string>) returns (vars: Vars)
    ensures vars.Keys == Names(names) && Injective(vars)
    ensures forall x :: x in vars ==> 0 <= vars[x] < |names| && names[vars[x]] == x
  {
    vars := map[];
    var i := 0;
    while i < |names|
      invariant 0 <= i <= |names| && vars.Keys == Names(names[..i])
      invariant forall x :: x in vars ==> 0 <= vars[x] < i && names[vars[x]] == x
    {
      assert names[..i + 1] == names[..i] + [names[i]];
      vars := vars[names[i] := i];
      i := i + 1;
    }
    assert names[..|names|] == names;
  }

  /** From the text of an ordinary function to its code: rejected exactly when a break or
      continue is outside every loop or something yields, and otherwise the program
      whose calls FunctionCorrect describes. */
  method CompileFunction(names: seq<string>, body: Block, void: bool)
    returns (ok: bool, code: seq<Instr>, lay: Layout, n: Count)
    requires SitesOf(body).fi == 0
    ensures ok <==> Accepts(body, false, false)
    ensures GoodFunction(lay, n) && lay.vars.Keys == Names(names)
    ensures ok ==> forall w: World :: !w.gen ==> Program(w, code, lay.fields) == FuncProgram(w, body, void, lay, n)
    ensures OkBlock(body, false, void, Names(names), TOP) ==> ok
    ensures forall w: World :: !w.gen && OkBlock(body, false, void, Names(names), TOP) && QuietFinallies(w, body) ==>
      Computes(Program(w, code, lay.fields), body, void, lay)
  {
    hide LowerBlock, LowerFunc, Accepts, SitesOf, OkBlock, QuietFinallies, Computes, FuncProgram;
    var vars := Allocate(names);
    lay := Layout(vars, 0, 0, 0, 0, 0, 0, 0);
    n := Count(|names|, 0, 0, 0);
    var g := new Generator(false, void, lay, SitesOf(body), n);
    ok := g.EmitFunc(body);
    code := g.code;
    FuncProgramIs(body, void, lay, n);
    if OkBlock(body, false, void, Names(names), TOP) {
      CoveredAccepted(body, false, void, Names(names), TOP, false);
      forall w: World | !w.gen && QuietFinallies(w, body)
        ensures Computes(Program(w, code, lay.fields), body, void, lay)
      {
        FunctionComputes(Program(w, code, lay.fields), w, body, void, lay, n);
      }
    }
  }

  lemma FuncProgramIs(body: Block, void: bool, lay: Layout, n: Count)
    ensures forall w ::
      FuncProgram(w, body, void, lay, n) == Program(w, LowerFunc(body, FuncCtx(void, lay), n), lay.fields)
  {
    hide LowerFunc;
  }
}
