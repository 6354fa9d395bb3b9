/**
 Writing an expression and parsing it gives the expression back, wherever the text
 stands and whatever follows it, as long as that cannot continue it.
 */
module ExprRoundTrip {
  import opened Common
  import opened ExprSyntax
  import opened ExprGrammar

  ghost predicate Here(t: seq<Token>, i: nat, s: seq<Token>) {
    i + |s| <= |t| && t[i..i + |s|] == s
  }

  lemma HereSplit(t: seq<Token>, i: nat, a: seq<Token>, b: seq<Token>)
    requires Here(t, i, a + b)
    ensures Here(t, i, a) && Here(t, i + |a|, b)
  {
    assert t[i..i + |a|] == (a + b)[..|a|] && t[i + |a|..i + |a| + |b|] == (a + b)[|a|..];
  }

  lemma Here3(t: seq<Token>, i: nat, a: seq<Token>, b: seq<Token>, c: seq<Token>)
    requires Here(t, i, a + b + c)
    ensures Here(t, i, a) && Here(t, i + |a|, b) && Here(t, i + |a| + |b|, c)
  {
    hide Here;
    HereSplit(t, i, a + b, c);
    HereSplit(t, i, a, b);
  }

  lemma HereOne(t: seq<Token>, i: nat, k: Token)
    requires Here(t, i, [k])
    ensures i < |t| && t[i] == k && Peek(t, i) == k.kind
  {
    assert t[i..i + 1][0] == k;
  }

  lemma HereTwo(t: seq<Token>, i: nat, a: Token, b: Token)
    requires Here(t, i, [a, b])
    ensures i + 1 < |t| && t[i] == a && t[i + 1] == b
  {
    assert t[i..i + 2][0] == a && t[i..i + 2][1] == b;
  }

  // ---- what may follow ----

  /** The next token would extend an operand. */
  predicate Tight(t: seq<Token>, i: nat) {
    Peek(t, i) == DSTAR || Peek(t, i) == LPAREN || Peek(t, i) == LBRACK || Peek(t, i) == DOT
  }

  function OpLevel(t: seq<Token>, i: nat): nat {
    if MemberNext(t, i) then 6 else 2 * Prec(Peek(t, i))
  }

  /** What comes next does not bind tighter than `c`. */
  predicate Loose(t: seq<Token>, i: nat, c: nat) { !Tight(t, i) && OpLevel(t, i) <= c }

  lemma ClimbStops(t: seq<Token>, e: Expr, i: nat, m: nat)
    requires i <= |t| && OpLevel(t, i) < 2 * m + (if m == 0 then 1 else 0)
    ensures Climb(t, e, i, m) == Some(Parsed(e, i))
  {
  }

  lemma SuffixesStop(t: seq<Token>, e: Expr, i: nat)
    requires i <= |t| && !Tight(t, i)
    ensures Suffixes(t, e, i) == Some(Parsed(e, i))
  {
  }

  /** The tokens that end an expression wherever one stands alone. */
  predicate Closes(k: Kind) { k == RPAREN || k == RBRACK || k == RBRACE || k == COMMA || k == COLON }

  lemma AfterClose(t: seq<Token>, i: nat)
    requires Closes(Peek(t, i))
    ensures Loose(t, i, 0)
  {
  }

  // ---- how texts start ----

  predicate StartsOperand(k: Kind) {
    k == LITERAL || k == IDENT || k == RANGE || k == LPAREN || k == LBRACK || k == LBRACE
  }

  predicate Opens(k: Kind) { StartsOperand(k) || k == NOT || k == MINUS || k == TILDE || k == LAMBDA }

  lemma {:induction false} Starts(e: Expr, c: nat)
    requires Sound(e)
    ensures Body(e) != [] && Opens(Body(e)[0].kind) && (Level(e) >= POWER ==> StartsOperand(Body(e)[0].kind))
    ensures Print(e, c) != [] && Opens(Print(e, c)[0].kind)
    ensures StartsOperand(Body(e)[0].kind) ==> StartsOperand(Print(e, c)[0].kind)
    decreases e
  {
    hide Items, Params, Part, StepText, AllSound;
    match e
    case Binary(op, l, r) => Starts(l, if op == DSTAR then POSTFIX else 2 * Prec(op));
    case Member(_, l, r) => Starts(l, 6);
    case Call(f, _) => Starts(f, POSTFIX);
    case Index(o, _) => Starts(o, POSTFIX);
    case Slice(o, _, _, _) => Starts(o, POSTFIX);
    case Attr(o, _) => Starts(o, POSTFIX);
    case _ =>
  }

  lemma StartHere(t: seq<Token>, i: nat, e: Expr, c: nat)
    requires Sound(e) && Here(t, i, Print(e, c))
    ensures Opens(Peek(t, i))
  {
    hide Sound, Print, Body;
    Starts(e, c);
    assert t[i..i + |Print(e, c)|][0] == t[i];
  }

  lemma BodyStart(t: seq<Token>, i: nat, e: Expr)
    requires Sound(e) && Level(e) >= POWER && Here(t, i, Body(e))
    ensures StartsOperand(Peek(t, i))
  {
    hide Sound, Print, Body;
    Starts(e, 0);
    assert t[i..i + |Body(e)|][0] == t[i];
  }

  /** No text has an equals sign in second place. */
  lemma {:induction false} NoAssign(e: Expr, c: nat)
    requires Sound(e)
    ensures Print(e, c) != [] && (|Print(e, c)| > 1 ==> Print(e, c)[1].kind != ASSIGN)
    decreases e, 1
  {
    hide Sound, Body;
    Starts(e, c);
    BodyNoAssign(e);
  }

  lemma {:induction false} BodyNoAssign(e: Expr)
    requires Sound(e)
    ensures |Body(e)| > 1 ==> Body(e)[1].kind != ASSIGN
    decreases e, 0, 1
  {
    hide Items, Params, Part, StepText, AllSound, SoundPart, Level, Print, Prec;
    match e
    case Unary(op, x) => Starts(x, if op == NOT then 5 else UNARY);
    case Binary(op, l, r) => BinaryNoAssign(op, l, r);
    case Member(neg, l, r) => NoAssign(l, 6); ThenSecond(Print(l, 6), MemberOp(neg), Print(r, 7));
    case Call(f, _) => NoAssign(f, POSTFIX); SuffixNoAssign(e, f);
    case Index(o, _) => NoAssign(o, POSTFIX); SuffixNoAssign(e, o);
    case Slice(o, _, _, _) => NoAssign(o, POSTFIX); SuffixNoAssign(e, o);
    case Attr(o, _) => NoAssign(o, POSTFIX); SuffixNoAssign(e, o);
    case Tuple(es) => ItemsStart(es, Elements); InnerNoAssign(e, LPAREN, Items(es));
    case List(es) => ItemsStart(es, Elements); InnerNoAssign(e, LBRACK, Items(es));
    case SetLit(es) => ItemsStart(es, Elements); InnerNoAssign(e, LBRACE, Items(es));
    case MapLit(es) => ItemsStart(es, Pairs); InnerNoAssign(e, LBRACE, Items(es));
    case Lambda(ps, _) => ParamsStart(ps); InnerNoAssign(e, LAMBDA, Params(ps));
    case _ =>
  }

  /** An operand and what its suffix starts with. */
  lemma SuffixNoAssign(e: Expr, o: Expr)
    requires match e case Call(f, _) => f == o case Index(p, _) => p == o case Slice(p, _, _, _) => p == o
             case Attr(p, _) => p == o case _ => false
    requires Print(o, POSTFIX) != [] && (|Print(o, POSTFIX)| > 1 ==> Print(o, POSTFIX)[1].kind != ASSIGN)
    ensures |Body(e)| > 1 && Body(e)[1].kind != ASSIGN
  {
    hide Print, Items, Part, StepText;
    var a := Print(o, POSTFIX);
    match e
    case Call(_, args) => ThenSecond(a, [Tok(LPAREN)], Items(args) + [Tok(RPAREN)]);
    case Index(_, at) => ThenSecond(a, [Tok(LBRACK)], Print(at, 0) + [Tok(RBRACK)]);
    case Slice(_, low, high, step) =>
      SliceBody(o, low, high, step);
      ThenSecond(a, [Tok(LBRACK)], BoundsText(low, high, step));
    case Attr(_, name) => assert Body(e) == a + [Tok(DOT), Token(IDENT, name)];
  }

  /** An opening token and what stands between it and the end. */
  lemma InnerNoAssign(e: Expr, open: Kind, s: seq<Token>)
    requires match e
             case Tuple(es) => open == LPAREN && s == Items(es)
             case List(es) => open == LBRACK && s == Items(es)
             case SetLit(es) => open == LBRACE && s == Items(es)
             case MapLit(es) => open == LBRACE && s == Items(es)
             case Lambda(ps, _) => open == LAMBDA && s == Params(ps)
             case _ => false
    requires s != [] ==> s[0].kind != ASSIGN
    ensures |Body(e)| > 1 && Body(e)[1].kind != ASSIGN
  {
    hide Print, Items, Params;
    var u := match e
             case Tuple(es) => (if |es| == 1 then [Tok(COMMA)] else []) + [Tok(RPAREN)]
             case List(_) => [Tok(RBRACK)]
             case Lambda(_, body) => [Tok(COLON)] + Print(body, 0)
             case _ => [Tok(RBRACE)];
    assert u[0].kind != ASSIGN;
    SecondToken(open, s, u);
    assert Body(e) == [Tok(open)] + s + u;
  }

  lemma {:induction false} BinaryNoAssign(op: Kind, l: Expr, r: Expr)
    requires (Prec(op) > 0 || op == DSTAR) && Sound(l) && Sound(r)
    ensures |Body(Binary(op, l, r))| > 1 && Body(Binary(op, l, r))[1].kind != ASSIGN
    decreases l, 2
  {
    hide Sound, Print;
    var k := if op == DSTAR then POSTFIX else 2 * Prec(op);
    NoAssign(l, k);
    ThenSecond(Print(l, k), [Tok(op)], Print(r, if op == DSTAR then UNARY else 2 * Prec(op) + 1));
  }

  lemma ThenSecond(a: seq<Token>, b: seq<Token>, c: seq<Token>)
    requires a != [] && b != []
    ensures |a + b + c| > 1 && (a + b + c)[1] == if |a| > 1 then a[1] else b[0]
  {
  }

  lemma SecondToken(open: Kind, s: seq<Token>, u: seq<Token>)
    requires u != []
    ensures |[Tok(open)] + s + u| > 1 && ([Tok(open)] + s + u)[1] == if s == [] then u[0] else s[0]
  {
  }

  lemma ItemsStart(es: seq<Item>, form: Form)
    requires AllSound(es, form, false) && form != Args
    ensures Items(es) != [] ==> Items(es)[0].kind != ASSIGN
  {
    hide Sound, Print;
    if es != [] {
      if es[0].Pair? { Starts(es[0].key, 0); } else { Starts(es[0].e, 0); }
    }
  }

  lemma ParamsStart(ps: seq<string>)
    ensures Params(ps) != [] ==> Params(ps)[0].kind == IDENT
  {
  }

  // ---- operands ----

  /** In parentheses anything is an operand. */
  lemma {:induction false} ParenOk(t: seq<Token>, i: nat, e: Expr)
    requires Sound(e) && Here(t, i, [Tok(LPAREN)] + Body(e) + [Tok(RPAREN)])
    ensures ParsePostfix(t, i) == Suffixes(t, e, i + |Body(e)| + 2)
    decreases e, 5
  {
    hide Sound, Body, ParseExpr, Suffixes, Climb, Here, Print, ParseParens, ParsePostfix, ParseList, ParseBraces;
    hide ParseLambda;
    var j := i + 1 + |Body(e)|;
    InBrackets(t, i, LPAREN, Body(e), RPAREN);
    AfterClose(t, j);
    PrintZero(e);
    StartHere(t, i + 1, e, 0);
    ExprOk(t, i + 1, e, 0);
    ClimbStops(t, e, j, 0);
    GroupStep(t, i + 1, e, j);
    Bracketed(t, i, ParseParens(t, i + 1), e, j + 1);
  }

  lemma GroupStep(t: seq<Token>, i: nat, e: Expr, j: nat)
    requires Peek(t, i) != RPAREN && ParseExpr(t, i, 0) == Some(Parsed(e, j)) && Peek(t, j) == RPAREN
    ensures ParseParens(t, i) == Some(Parsed(e, j + 1))
  {
    hide ParseExpr;
  }

  lemma PrintZero(e: Expr)
    ensures Print(e, 0) == Body(e)
  {
  }

  lemma {:induction false} PostfixOk(t: seq<Token>, i: nat, e: Expr)
    requires Sound(e) && Level(e) >= POSTFIX && Here(t, i, Body(e))
    ensures ParsePostfix(t, i) == Suffixes(t, e, i + |Body(e)|)
    decreases e, 1
  {
    hide ParsePostfix, Suffixes, Here, Print, Items, AllSound, Part, StepText;
    match e
    case Lit(x) => HereOne(t, i, Token(LITERAL, x)); LeafOk(t, i, e);
    case Name(x) => HereOne(t, i, NameTok(x)); LeafOk(t, i, e);
    case Super => SuperOk(t, i);
    case Call(f, args) => CallOk(t, i, f, args);
    case Index(o, at) => IndexOk(t, i, o, at);
    case Slice(o, low, high, step) => SliceOk(t, i, o, low, high, step);
    case Attr(o, name) =>
      HereSplit(t, i, Print(o, POSTFIX), [Tok(DOT), Token(IDENT, name)]);
      OperandOk(t, i, o);
      AttrOk(t, i + |Print(o, POSTFIX)|, o, name);
    case Tuple(es) => TupleOk(t, i, es);
    case List(es) => ListOk(t, i, es);
    case SetLit(es) => SetOk(t, i, es);
    case MapLit(es) => MapOk(t, i, es);
    case Unary(_, _) => assert false;
    case Binary(_, _, _) => assert false;
    case Member(_, _, _) => assert false;
    case Lambda(_, _) => assert false;
  }

  /** An expression written where a primary is needed. */
  lemma {:induction false} OperandOk(t: seq<Token>, i: nat, e: Expr)
    requires Sound(e) && Here(t, i, Print(e, POSTFIX))
    ensures ParsePostfix(t, i) == Suffixes(t, e, i + |Print(e, POSTFIX)|)
    decreases e, 6
  {
    hide Sound, Body, ParsePostfix, Suffixes, Here;
    if Level(e) < POSTFIX { ParenOk(t, i, e); } else { PostfixOk(t, i, e); }
  }

  lemma LeafOk(t: seq<Token>, i: nat, e: Expr)
    requires (e.Lit? || e.Name?) && i < |t| && t[i] == if e.Lit? then Token(LITERAL, e.text) else NameTok(e.name)
    ensures ParsePostfix(t, i) == Suffixes(t, e, i + 1)
  {
    hide Suffixes, ParseLambda, ParseParens, ParseList, ParseBraces;
  }

  lemma SuperOk(t: seq<Token>, i: nat)
    requires Here(t, i, Body(Super))
    ensures i + 3 <= |t| && ParsePostfix(t, i) == Suffixes(t, Super, i + 3)
  {
    hide ParseExpr, Climb, Here, ParseItems, ParseLambda, ParseParens, ParseList, ParseBraces, ParseSubscript;
    assert Body(Super) == [Token(IDENT, "super")] + [Tok(LPAREN), Tok(RPAREN)];
    HereSplit(t, i, [Token(IDENT, "super")], [Tok(LPAREN), Tok(RPAREN)]);
    HereOne(t, i, Token(IDENT, "super"));
    HereTwo(t, i + 1, Tok(LPAREN), Tok(RPAREN));
    assert ParseArgs(t, i + 2) == Some(ParsedItems([], i + 3));
  }

  /** Brackets hold one of four things. */
  lemma Bracketed(t: seq<Token>, i: nat, r: Option<Parsed>, e: Expr, j: nat)
    requires r == match Peek(t, i) case LAMBDA => ParseLambda(t, i + 1) case LPAREN => ParseParens(t, i + 1)
                  case LBRACK => ParseList(t, i + 1) case LBRACE => ParseBraces(t, i + 1) case _ => None
    requires r == Some(Parsed(e, j))
    ensures j <= |t| && ParsePostfix(t, i) == Suffixes(t, e, j)
  {
    hide Suffixes, ParseLambda, ParseParens, ParseList, ParseBraces;
  }

  // ---- calls and subscripts ----

  lemma CallBody(f: Expr, args: seq<Item>)
    ensures Body(Call(f, args)) == Print(f, POSTFIX) + [Tok(LPAREN)] + (Items(args) + [Tok(RPAREN)])
  {
    hide Print, Items;
  }

  lemma IndexBody(o: Expr, at: Expr)
    ensures Body(Index(o, at)) == Print(o, POSTFIX) + [Tok(LBRACK)] + (Print(at, 0) + [Tok(RBRACK)])
  {
    hide Print;
  }

  lemma TupleBody(es: seq<Item>)
    ensures Body(Tuple(es)) == [Tok(LPAREN)] + Items(es) + ((if |es| == 1 then [Tok(COMMA)] else []) + [Tok(RPAREN)])
  {
    hide Items, Print, Params, Part, StepText;
  }

  lemma CallStep(t: seq<Token>, f: Expr, i: nat, args: seq<Item>, j: nat)
    requires i < j <= |t| && Peek(t, i) == LPAREN && ParseArgs(t, i + 1) == Some(ParsedItems(args, j))
    requires f == Name("super") ==> args != []
    ensures Suffixes(t, f, i) == Suffixes(t, Call(f, args), j)
  {
    hide ParseArgs, ParseSubscript;
  }

  lemma SubscriptStep(t: seq<Token>, o: Expr, i: nat, e: Expr, j: nat)
    requires i < j <= |t| && Peek(t, i) == LBRACK && ParseSubscript(t, o, i + 1) == Some(Parsed(e, j))
    ensures Suffixes(t, o, i) == Suffixes(t, e, j)
  {
    hide ParseArgs, ParseSubscript;
  }

  lemma {:induction false} CallOk(t: seq<Token>, i: nat, f: Expr, args: seq<Item>)
    requires (f == Name("super") ==> args != []) && Sound(f) && AllSound(args, Args, false)
    requires Here(t, i, Body(Call(f, args)))
    ensures ParsePostfix(t, i) == Suffixes(t, Call(f, args), i + |Body(Call(f, args))|)
    decreases Call(f, args), 0
  {
    hide Sound, Body, ParsePostfix, Here, Print, ParseArgs, Items, AllSound, Suffixes, Peek;
    var a, b := Print(f, POSTFIX), Items(args);
    CallBody(f, args);
    Here3(t, i, a, [Tok(LPAREN)], b + [Tok(RPAREN)]);
    HereOne(t, i + |a|, Tok(LPAREN));
    OperandOk(t, i, f);
    ArgsOk(t, i + |a| + 1, args);
    HereEnds(t, i + |a| + 1, b + [Tok(RPAREN)]);
    CallStep(t, f, i + |a|, args, i + |a| + 1 + |b| + 1);
  }

  lemma {:induction false} IndexOk(t: seq<Token>, i: nat, o: Expr, at: Expr)
    requires Sound(o) && Sound(at) && Here(t, i, Body(Index(o, at)))
    ensures ParsePostfix(t, i) == Suffixes(t, Index(o, at), i + |Body(Index(o, at))|)
    decreases Index(o, at), 0
  {
    hide Sound, Body, ParsePostfix, ParseSubscript, ParseExpr, Here, Print, Suffixes, Peek, Loose, Opens;
    var a, b := |Print(o, POSTFIX)|, |Print(at, 0)|;
    IndexParts(t, i, o, at);
    OperandOk(t, i, o);
    StartHere(t, i + a + 1, at, 0);
    AfterClose(t, i + a + 1 + b);
    WholeOk(t, i + a + 1, at);
    IndexStep(t, o, i + a + 1, at, i + a + 1 + b);
    SubscriptStep(t, o, i + a, Index(o, at), i + a + 1 + b + 1);
  }

  lemma IndexParts(t: seq<Token>, i: nat, o: Expr, at: Expr)
    requires Here(t, i, Body(Index(o, at)))
    ensures var a, b := |Print(o, POSTFIX)|, |Print(at, 0)|;
      && Here(t, i, Print(o, POSTFIX)) && Peek(t, i + a) == LBRACK && Here(t, i + a + 1, Print(at, 0))
      && Peek(t, i + a + 1 + b) == RBRACK && Closes(Peek(t, i + a + 1 + b)) && i + a + 2 + b <= |t|
      && |Body(Index(o, at))| == a + b + 2
  {
    hide Body, Here, Print;
    var a, b := Print(o, POSTFIX), Print(at, 0);
    IndexBody(o, at);
    Here3(t, i, a, [Tok(LBRACK)], b + [Tok(RBRACK)]);
    HereSplit(t, i + |a| + 1, b, [Tok(RBRACK)]);
    HereOne(t, i + |a|, Tok(LBRACK));
    HereOne(t, i + |a| + 1 + |b|, Tok(RBRACK));
  }

  lemma IndexStep(t: seq<Token>, o: Expr, i: nat, at: Expr, j: nat)
    requires Opens(Peek(t, i)) && ParseExpr(t, i, 0) == Some(Parsed(at, j)) && Peek(t, j) == RBRACK
    ensures ParseSubscript(t, o, i) == Some(Parsed(Index(o, at), j + 1))
  {
    hide ParseExpr;
  }

  lemma {:induction false} PartOk(t: seq<Token>, i: nat, p: Option<Expr>)
    requires SoundPart(p) && Here(t, i, Part(p))
    requires Peek(t, i + |Part(p)|) == COLON || Peek(t, i + |Part(p)|) == RBRACK
    ensures ParsePart(t, i) == Some(ParsedPart(p, i + |Part(p)|))
    decreases p, 0
  {
    hide Sound, ParseExpr, Here, Print, Loose;
    if p.Some? {
      StartHere(t, i, p.value, 0);
      AfterClose(t, i + |Part(p)|);
      WholeOk(t, i, p.value);
    }
  }

  lemma {:induction false} StepOk(t: seq<Token>, i: nat, p: Option<Expr>)
    requires SoundPart(p) && Here(t, i, StepText(p)) && Peek(t, i + |StepText(p)|) == RBRACK
    ensures ParseStep(t, i) == Some(ParsedPart(p, i + |StepText(p)|))
    decreases p, 1
  {
    hide Sound, ParsePart, Here, Print;
    if p.Some? {
      HereSplit(t, i, [Tok(COLON)], Print(p.value, 0));
      HereOne(t, i, Tok(COLON));
      assert Part(p) == Print(p.value, 0);
      PartOk(t, i + 1, p);
    }
  }

  lemma {:induction false} SliceOk(t: seq<Token>, i: nat, o: Expr, low: Option<Expr>, high: Option<Expr>,
                                   step: Option<Expr>)
    requires Sound(o) && SoundPart(low) && SoundPart(high) && SoundPart(step)
    requires Here(t, i, Body(Slice(o, low, high, step)))
    ensures ParsePostfix(t, i) == Suffixes(t, Slice(o, low, high, step), i + |Body(Slice(o, low, high, step))|)
    decreases Slice(o, low, high, step), 0, 1
  {
    hide Sound, Body, ParsePostfix, ParseSubscript, Here, Print, Suffixes, SoundPart, BoundsText, Peek;
    var a, b := Print(o, POSTFIX), BoundsText(low, high, step);
    SliceBody(o, low, high, step);
    Here3(t, i, a, [Tok(LBRACK)], b);
    HereOne(t, i + |a|, Tok(LBRACK));
    HereEnds(t, i + |a| + 1, b);
    OperandOk(t, i, o);
    BoundsOk(t, i + |a| + 1, o, low, high, step);
    SubscriptStep(t, o, i + |a|, Slice(o, low, high, step), i + |a| + 1 + |b|);
  }

  /** What stands between the brackets of a slice, and the closing bracket. */
  ghost function BoundsText(low: Option<Expr>, high: Option<Expr>, step: Option<Expr>): seq<Token> {
    Part(low) + [Tok(COLON)] + (Part(high) + StepText(step) + [Tok(RBRACK)])
  }

  lemma SliceBody(o: Expr, low: Option<Expr>, high: Option<Expr>, step: Option<Expr>)
    ensures Body(Slice(o, low, high, step)) == Print(o, POSTFIX) + [Tok(LBRACK)] + BoundsText(low, high, step)
  {
    hide Print, Part, StepText;
  }

  lemma {:induction false} BoundsOk(t: seq<Token>, i: nat, o: Expr, low: Option<Expr>, high: Option<Expr>,
                                    step: Option<Expr>)
    requires SoundPart(low) && SoundPart(high) && SoundPart(step) && Here(t, i, BoundsText(low, high, step))
    ensures ParseSubscript(t, o, i) == Some(Parsed(Slice(o, low, high, step), i + |BoundsText(low, high, step)|))
    decreases Slice(o, low, high, step), 0, 0
  {
    hide Sound, ParsePart, ParseStep, Here, Print, Part, StepText, SoundPart;
    var j := i + |Part(low)|;
    var k := j + 1 + |Part(high)|;
    var l := k + |StepText(step)|;
    Here3(t, i, Part(low), [Tok(COLON)], Part(high) + StepText(step) + [Tok(RBRACK)]);
    Here3(t, j + 1, Part(high), StepText(step), [Tok(RBRACK)]);
    HereOne(t, j, Tok(COLON));
    HereOne(t, l, Tok(RBRACK));
    StepStart(t, k, step);
    PartOk(t, i, low);
    PartOk(t, j + 1, high);
    StepOk(t, k, step);
  }

  lemma StepStart(t: seq<Token>, i: nat, p: Option<Expr>)
    requires Here(t, i, StepText(p)) && Peek(t, i + |StepText(p)|) == RBRACK
    ensures Peek(t, i) == COLON || Peek(t, i) == RBRACK
  {
    hide Here, Print;
    if p.Some? {
      HereSplit(t, i, [Tok(COLON)], Print(p.value, 0));
      HereOne(t, i, Tok(COLON));
    }
  }

  lemma AttrOk(t: seq<Token>, i: nat, o: Expr, name: string)
    requires Here(t, i, [Tok(DOT), Token(IDENT, name)])
    ensures i + 2 <= |t| && Suffixes(t, o, i) == Suffixes(t, Attr(o, name), i + 2)
  {
    hide Here;
    HereTwo(t, i, Tok(DOT), Token(IDENT, name));
  }

  // ---- items ----

  lemma {:induction false} ArgsOk(t: seq<Token>, i: nat, es: seq<Item>)
    requires AllSound(es, Args, false) && Here(t, i, Items(es) + [Tok(RPAREN)])
    ensures ParseArgs(t, i) == Some(ParsedItems(es, i + |Items(es)| + 1))
    decreases es, 2
  {
    hide Sound, Here, Items, ParseItems, ParseArgs, ItemText, AllSound, SoundItem, Peek, Closes, EndsAt;
    var j := i + |Items(es)|;
    HereSplit(t, i, Items(es), [Tok(RPAREN)]);
    HereOne(t, j, Tok(RPAREN));
    if es == [] {
      NoItems();
      NoArgs(t, i);
    } else {
      FirstItem(t, i, es, Args, false);
      PlainEnd(t, j, RPAREN);
      ItemsOk(t, i, es, RPAREN, false, Args, false);
      ArgsStep(t, i, es, j);
    }
  }

  /** A closing bracket with no comma before it. */
  lemma PlainEnd(t: seq<Token>, j: nat, close: Kind)
    requires Peek(t, j) == close && (close == RPAREN || close == RBRACK || close == RBRACE)
    ensures EndsAt(t, j, close, false) && Closes(Peek(t, j))
  {
  }

  lemma NoArgs(t: seq<Token>, i: nat)
    requires Peek(t, i) == RPAREN
    ensures ParseArgs(t, i) == Some(ParsedItems([], i + 1))
  {
  }

  lemma ArgsStep(t: seq<Token>, i: nat, es: seq<Item>, k: nat)
    requires !Closes(Peek(t, i)) && ParseItems(t, i, RPAREN, Args, false) == Some(ParsedItems(es, k))
    requires Peek(t, k) == RPAREN
    ensures ParseArgs(t, i) == Some(ParsedItems(es, k + 1))
  {
    hide ParseItems;
  }

  lemma FirstItem(t: seq<Token>, i: nat, es: seq<Item>, form: Form, kw: bool)
    requires AllSound(es, form, kw) && es != [] && Here(t, i, Items(es))
    ensures SoundItem(es[0], form, kw) && Here(t, i, ItemText(es[0])) && !Closes(Peek(t, i))
  {
    hide ItemText, SoundItem, Here;
    HereSplit(t, i, ItemText(es[0]), if |es| == 1 then [] else [Tok(COMMA)] + Items(es[1..]));
    ItemStart(t, i, es[0], form, kw);
  }

  lemma ItemStart(t: seq<Token>, i: nat, it: Item, form: Form, kw: bool)
    requires SoundItem(it, form, kw) && Here(t, i, ItemText(it))
    ensures !Closes(Peek(t, i))
  {
    hide Here, Print, Sound;
    match it
    case Plain(e) => StartHere(t, i, e, 0);
    case Star(e) => HereSplit(t, i, [Tok(STAR)], Print(e, 0)); HereOne(t, i, Tok(STAR));
    case Keyword(name, e) =>
      HereSplit(t, i, [Token(IDENT, name), Tok(ASSIGN)], Print(e, 0));
      HereTwo(t, i, Token(IDENT, name), Tok(ASSIGN));
    case DoubleStar(e) => HereSplit(t, i, [Tok(DSTAR)], Print(e, 0)); HereOne(t, i, Tok(DSTAR));
    case Pair(k, e) => Here3(t, i, Print(k, 0), [Tok(COLON)], Print(e, 0)); StartHere(t, i, k, 0);
  }

  lemma {:induction false} ItemOk(t: seq<Token>, i: nat, it: Item, form: Form, kw: bool)
    requires SoundItem(it, form, kw) && Here(t, i, ItemText(it)) && Closes(Peek(t, i + |ItemText(it)|))
    ensures ParseItem(t, i, form, kw) == Some(ParsedItem(it, i + |ItemText(it)|))
    decreases it, 1
  {
    hide Sound, Here, Print, ParseExpr, ParseItem, Loose;
    var j := i + |ItemText(it)|;
    AfterClose(t, j);
    match it
    case Plain(e) =>
      StartHere(t, i, e, 0);
      WholeOk(t, i, e);
      if form == Args { NotKeyword(t, i, e); }
      PlainStep(t, i, e, j, form, kw);
    case Star(e) =>
      HereSplit(t, i, [Tok(STAR)], Print(e, 0));
      HereOne(t, i, Tok(STAR));
      WholeOk(t, i + 1, e);
      StarStep(t, i, e, j, kw);
    case Keyword(name, e) =>
      HereSplit(t, i, [Token(IDENT, name), Tok(ASSIGN)], Print(e, 0));
      HereTwo(t, i, Token(IDENT, name), Tok(ASSIGN));
      WholeOk(t, i + 2, e);
      KeywordStep(t, i, e, j, kw);
    case DoubleStar(e) =>
      HereSplit(t, i, [Tok(DSTAR)], Print(e, 0));
      HereOne(t, i, Tok(DSTAR));
      WholeOk(t, i + 1, e);
      StarStep(t, i, e, j, kw);
    case Pair(k, e) =>
      PairOk(t, i, it);
      PairStep(t, i, k, i + |Print(k, 0)|, e, j, kw);
  }

  lemma PlainStep(t: seq<Token>, i: nat, e: Expr, j: nat, form: Form, kw: bool)
    requires Opens(Peek(t, i)) && ParseExpr(t, i, 0) == Some(Parsed(e, j)) && form != Pairs
    requires form == Args ==> Peek(t, i + 1) != ASSIGN && !kw
    ensures ParseItem(t, i, form, kw) == Some(ParsedItem(Plain(e), j))
  {
    hide ParseExpr;
  }

  lemma StarStep(t: seq<Token>, i: nat, e: Expr, j: nat, kw: bool)
    requires ParseExpr(t, i + 1, 0) == Some(Parsed(e, j))
    ensures Peek(t, i) == STAR && !kw ==> ParseItem(t, i, Args, kw) == Some(ParsedItem(Star(e), j))
    ensures Peek(t, i) == DSTAR ==> ParseItem(t, i, Args, kw) == Some(ParsedItem(DoubleStar(e), j))
  {
    hide ParseExpr;
  }

  lemma KeywordStep(t: seq<Token>, i: nat, e: Expr, j: nat, kw: bool)
    requires Peek(t, i) == IDENT && Peek(t, i + 1) == ASSIGN && ParseExpr(t, i + 2, 0) == Some(Parsed(e, j))
    ensures ParseItem(t, i, Args, kw) == Some(ParsedItem(Keyword(t[i].text, e), j))
  {
    hide ParseExpr;
  }

  lemma PairStep(t: seq<Token>, i: nat, k: Expr, c: nat, e: Expr, j: nat, kw: bool)
    requires ParseExpr(t, i, 0) == Some(Parsed(k, c)) && Peek(t, c) == COLON
    requires ParseExpr(t, c + 1, 0) == Some(Parsed(e, j))
    ensures ParseItem(t, i, Pairs, kw) == Some(ParsedItem(Pair(k, e), j))
  {
    hide ParseExpr;
  }

  lemma {:induction false} PairOk(t: seq<Token>, i: nat, it: Item)
    requires it.Pair? && Sound(it.key) && Sound(it.e) && Here(t, i, ItemText(it)) && Closes(Peek(t, i + |ItemText(it)|))
    ensures var j := i + |Print(it.key, 0)|;
      && ParseExpr(t, i, 0) == Some(Parsed(it.key, j)) && Peek(t, j) == COLON
      && ParseExpr(t, j + 1, 0) == Some(Parsed(it.e, i + |ItemText(it)|))
    decreases it, 0
  {
    hide Sound, Here, Print, ParseExpr, Loose;
    var j := i + |Print(it.key, 0)|;
    Here3(t, i, Print(it.key, 0), [Tok(COLON)], Print(it.e, 0));
    HereOne(t, j, Tok(COLON));
    AfterClose(t, j);
    AfterClose(t, j + 1 + |Print(it.e, 0)|);
    WholeOk(t, i, it.key);
    WholeOk(t, j + 1, it.e);
  }

  /** A positional argument does not look like a keyword argument. */
  lemma NotKeyword(t: seq<Token>, i: nat, e: Expr)
    requires Sound(e) && Here(t, i, Print(e, 0)) && Closes(Peek(t, i + |Print(e, 0)|))
    ensures Peek(t, i + 1) != ASSIGN
  {
    hide Sound, Print, Body;
    NoAssign(e, 0);
    if |Print(e, 0)| > 1 { assert t[i..i + |Print(e, 0)|][1] == t[i + 1]; }
  }

  /** The closing bracket at `j`, or one comma before it. */
  predicate EndsAt(t: seq<Token>, j: nat, close: Kind, trail: bool) {
    && Closes(close) && close != COMMA && close != COLON
    && (if trail then Peek(t, j) == COMMA && Peek(t, j + 1) == close else Peek(t, j) == close)
  }

  /** Items up to the closing bracket, or up to one comma before it. */
  lemma {:induction false} ItemsOk(t: seq<Token>, i: nat, es: seq<Item>, close: Kind, trail: bool, form: Form, kw: bool)
    requires es != [] && AllSound(es, form, kw) && Here(t, i, Items(es)) && EndsAt(t, i + |Items(es)|, close, trail)
    ensures ParseItems(t, i, close, form, kw) == Some(ParsedItems(es, i + |Items(es)| + if trail then 1 else 0))
    decreases es, 1
  {
    hide SoundItem, ParseItem, Here, ItemText, AllSound, Items, ParseItems, Later, Peek, EndsAt, Closes;
    var j := i + |ItemText(es[0])|;
    FirstItem(t, i, es, form, kw);
    if |es| == 1 {
      OneItem(es);
      EndCloses(t, j, close, trail);
      ItemOk(t, i, es[0], form, kw);
      LastStep(t, i, es[0], j, close, trail, form, kw);
    } else {
      EndCloses(t, i + |Items(es)|, close, trail);
      var rest := RestHere(t, i, es, close, form, kw);
      ItemOk(t, i, es[0], form, kw);
      ItemsOk(t, j + 1, rest, close, trail, form, kw || Later(es[0]));
      MoreStep(t, i, es[0], j, close, form, kw, rest);
    }
  }

  lemma EndCloses(t: seq<Token>, j: nat, close: Kind, trail: bool)
    requires EndsAt(t, j, close, trail)
    ensures Closes(close) && Closes(Peek(t, j))
  {
  }

  /** The items after the first. */
  lemma RestHere(t: seq<Token>, i: nat, es: seq<Item>, close: Kind, form: Form, kw: bool) returns (rest: seq<Item>)
    requires |es| > 1 && Closes(close) && AllSound(es, form, kw) && Here(t, i, Items(es))
    ensures rest == es[1..] && [es[0]] + rest == es && rest != [] && AllSound(rest, form, kw || Later(es[0]))
    ensures var j := i + |ItemText(es[0])|;
      && Here(t, j + 1, Items(rest)) && Peek(t, j) == COMMA && Closes(Peek(t, j)) && Peek(t, j + 1) != close
      && j + 1 + |Items(rest)| == i + |Items(es)|
  {
    hide SoundItem, Here, ItemText, AllSound, Items, Later;
    rest := es[1..];
    MoreItems(es, form, kw);
    Here3(t, i, ItemText(es[0]), [Tok(COMMA)], Items(rest));
    HereOne(t, i + |ItemText(es[0])|, Tok(COMMA));
    FirstItem(t, i + |ItemText(es[0])| + 1, rest, form, kw || Later(es[0]));
  }

  lemma LastStep(t: seq<Token>, i: nat, it: Item, j: nat, close: Kind, trail: bool, form: Form, kw: bool)
    requires ParseItem(t, i, form, kw) == Some(ParsedItem(it, j)) && EndsAt(t, j, close, trail)
    ensures ParseItems(t, i, close, form, kw) == Some(ParsedItems([it], if trail then j + 1 else j))
  {
    hide ParseItem;
  }

  lemma MoreStep(t: seq<Token>, i: nat, it: Item, j: nat, close: Kind, form: Form, kw: bool, rest: seq<Item>)
    requires ParseItem(t, i, form, kw) == Some(ParsedItem(it, j))
    requires Peek(t, j) == COMMA && Peek(t, j + 1) != close
    requires var r := ParseItems(t, j + 1, close, form, kw || Later(it)); r.Some? && r.value.es == rest
    ensures ParseItems(t, i, close, form, kw)
      == Some(ParsedItems([it] + rest, ParseItems(t, j + 1, close, form, kw || Later(it)).value.pos))
  {
    hide ParseItem;
  }

  lemma OneItem(es: seq<Item>)
    requires |es| == 1
    ensures Items(es) == ItemText(es[0]) && es == [es[0]]
  {
    hide ItemText;
  }

  lemma MoreItems(es: seq<Item>, form: Form, kw: bool)
    requires |es| > 1
    ensures Items(es) == ItemText(es[0]) + [Tok(COMMA)] + Items(es[1..])
    ensures AllSound(es, form, kw) ==> AllSound(es[1..], form, kw || Later(es[0]))
  {
    hide ItemText, SoundItem;
  }

  lemma NoItems()
    ensures Items([]) == []
  {
  }

  // ---- tuples, lists, sets and maps ----

  lemma {:induction false} TupleOk(t: seq<Token>, i: nat, es: seq<Item>)
    requires AllSound(es, Elements, false) && Here(t, i, Body(Tuple(es)))
    ensures ParsePostfix(t, i) == Suffixes(t, Tuple(es), i + |Body(Tuple(es))|)
    decreases Tuple(es), 0
  {
    hide Sound, Body, ParseExpr, Suffixes, Here, ParseItems, ItemText, Items, AllSound, SoundItem, ParsePostfix;
    hide ParseParens, Peek;
    var j, trail := i + 1 + |Items(es)|, if |es| == 1 then 1 else 0;
    TupleParts(t, i, es);
    if es == [] {
      NoItems();
      EmptyTuple(t, i + 1);
    } else {
      FirstItem(t, i + 1, es, Elements, false);
      ItemsOk(t, i + 1, es, RPAREN, |es| == 1, Elements, false);
      CommaAfterFirst(t, i + 1, es);
      FirstElement(t, i + 1, es[0]);
      TupleStep(t, i + 1, es[0].e, i + 1 + |ItemText(es[0])|, es, j + trail);
    }
    Bracketed(t, i, ParseParens(t, i + 1), Tuple(es), j + trail + 1);
  }

  lemma TupleParts(t: seq<Token>, i: nat, es: seq<Item>)
    requires Here(t, i, Body(Tuple(es)))
    ensures var j, trail := i + 1 + |Items(es)|, if |es| == 1 then 1 else 0;
      && Peek(t, i) == LPAREN && Here(t, i + 1, Items(es)) && EndsAt(t, j, RPAREN, |es| == 1)
      && Peek(t, j + trail) == RPAREN
      && |Body(Tuple(es))| == |Items(es)| + 2 + trail && j + trail < |t|
      && Closes(Peek(t, j)) && (|es| == 1 ==> Peek(t, j) == COMMA)
  {
    hide Body, Here, Items;
    var trail := if |es| == 1 then [Tok(COMMA)] else [];
    var j := i + 1 + |Items(es)|;
    TupleBody(es);
    Here3(t, i, [Tok(LPAREN)], Items(es), trail + [Tok(RPAREN)]);
    HereSplit(t, j, trail, [Tok(RPAREN)]);
    HereOne(t, i, Tok(LPAREN));
    HereOne(t, j + |trail|, Tok(RPAREN));
    if |es| == 1 { HereOne(t, j, Tok(COMMA)); }
  }

  lemma EmptyTuple(t: seq<Token>, i: nat)
    requires Peek(t, i) == RPAREN
    ensures ParseParens(t, i) == Some(Parsed(Tuple([]), i + 1))
  {
  }

  /** A list or a tuple starts with an expression. */
  lemma {:induction false} FirstElement(t: seq<Token>, i: nat, it: Item)
    requires SoundItem(it, Elements, false) && Here(t, i, ItemText(it)) && Closes(Peek(t, i + |ItemText(it)|))
    ensures ParseExpr(t, i, 0) == Some(Parsed(it.e, i + |ItemText(it)|))
    decreases it, 2
  {
    hide Sound, Here, Print, ParseExpr, Loose;
    AfterClose(t, i + |ItemText(it)|);
    WholeOk(t, i, it.e);
  }

  lemma TupleStep(t: seq<Token>, i: nat, e: Expr, j: nat, es: seq<Item>, k: nat)
    requires Peek(t, i) != RPAREN && ParseExpr(t, i, 0) == Some(Parsed(e, j)) && Peek(t, j) == COMMA
    requires ParseItems(t, i, RPAREN, Elements, false) == Some(ParsedItems(es, k)) && Peek(t, k) == RPAREN
    ensures ParseParens(t, i) == Some(Parsed(Tuple(es), k + 1))
  {
    hide ParseExpr, ParseItems;
  }

  /** The first item is followed by a comma unless it is the only one. */
  lemma CommaAfterFirst(t: seq<Token>, i: nat, es: seq<Item>)
    requires es != [] && Here(t, i, Items(es))
    ensures |es| > 1 ==> Peek(t, i + |ItemText(es[0])|) == COMMA
    ensures |es| == 1 ==> Items(es) == ItemText(es[0])
  {
    hide ItemText, Here, Items;
    if |es| > 1 {
      MoreItems(es, Elements, false);
      Here3(t, i, ItemText(es[0]), [Tok(COMMA)], Items(es[1..]));
      HereOne(t, i + |ItemText(es[0])|, Tok(COMMA));
    } else {
      OneItem(es);
    }
  }

  /** Items in brackets. */
  lemma InBrackets(t: seq<Token>, i: nat, open: Kind, s: seq<Token>, close: Kind)
    requires Here(t, i, [Tok(open)] + s + [Tok(close)])
    ensures Peek(t, i) == open && Here(t, i + 1, s) && Peek(t, i + 1 + |s|) == close && i + 2 + |s| <= |t|
  {
    hide Here;
    Here3(t, i, [Tok(open)], s, [Tok(close)]);
    HereOne(t, i, Tok(open));
    HereOne(t, i + 1 + |s|, Tok(close));
  }

  lemma {:induction false} ListOk(t: seq<Token>, i: nat, es: seq<Item>)
    requires AllSound(es, Elements, false) && Here(t, i, Body(List(es)))
    ensures ParsePostfix(t, i) == Suffixes(t, List(es), i + |Body(List(es))|)
    decreases List(es), 0
  {
    hide Sound, Suffixes, Here, ParseItems, ItemText, Items, AllSound, SoundItem, ParsePostfix, ParseParens;
    hide ParseList, ParseBraces, ParseLambda, Peek, Prec, EndsAt;
    InBrackets(t, i, LBRACK, Items(es), RBRACK);
    if es == [] {
      NoItems();
      EmptyList(t, i + 1);
    } else {
      FirstItem(t, i + 1, es, Elements, false);
      PlainEnd(t, i + 1 + |Items(es)|, RBRACK);
      ItemsOk(t, i + 1, es, RBRACK, false, Elements, false);
      ListStep(t, i + 1, es, i + 1 + |Items(es)|);
    }
    Bracketed(t, i, ParseList(t, i + 1), List(es), i + 1 + |Items(es)| + 1);
  }

  lemma EmptyList(t: seq<Token>, i: nat)
    requires Peek(t, i) == RBRACK
    ensures ParseList(t, i) == Some(Parsed(List([]), i + 1))
  {
  }

  lemma ListStep(t: seq<Token>, i: nat, es: seq<Item>, k: nat)
    requires Peek(t, i) != RBRACK && ParseItems(t, i, RBRACK, Elements, false) == Some(ParsedItems(es, k))
    requires Peek(t, k) == RBRACK
    ensures ParseList(t, i) == Some(Parsed(List(es), k + 1))
  {
    hide ParseItems;
  }

  lemma {:induction false} SetOk(t: seq<Token>, i: nat, es: seq<Item>)
    requires es != [] && AllSound(es, Elements, false) && Here(t, i, Body(SetLit(es)))
    ensures ParsePostfix(t, i) == Suffixes(t, SetLit(es), i + |Body(SetLit(es))|)
    decreases SetLit(es), 0
  {
    hide Sound, Suffixes, Here, ParseItems, ItemText, Items, AllSound, ParseParens, ParseList, ParseBraces;
    hide ParseLambda, ParseExpr, SoundItem, ParsePostfix, Peek, Prec, EndsAt;
    var j := i + 1 + |Items(es)|;
    InBrackets(t, i, LBRACE, Items(es), RBRACE);
    FirstItem(t, i + 1, es, Elements, false);
    PlainEnd(t, j, RBRACE);
    ItemsOk(t, i + 1, es, RBRACE, false, Elements, false);
    CommaAfterFirst(t, i + 1, es);
    FirstElement(t, i + 1, es[0]);
    BracesStep(t, i + 1, es[0].e, i + 1 + |ItemText(es[0])|, es, j);
    Bracketed(t, i, ParseBraces(t, i + 1), SetLit(es), j + 1);
  }

  lemma {:induction false} MapOk(t: seq<Token>, i: nat, es: seq<Item>)
    requires AllSound(es, Pairs, false) && Here(t, i, Body(MapLit(es)))
    ensures ParsePostfix(t, i) == Suffixes(t, MapLit(es), i + |Body(MapLit(es))|)
    decreases MapLit(es), 0
  {
    hide Sound, Suffixes, Here, ParseItems, ItemText, Items, AllSound, ParseParens, ParseList, ParseBraces;
    hide ParseLambda, ParseExpr, SoundItem, ParsePostfix, Peek, Prec, EndsAt;
    var j := i + 1 + |Items(es)|;
    InBrackets(t, i, LBRACE, Items(es), RBRACE);
    if es == [] {
      NoItems();
      EmptyMap(t, i + 1);
    } else {
      FirstItem(t, i + 1, es, Pairs, false);
      PlainEnd(t, j, RBRACE);
      ItemsOk(t, i + 1, es, RBRACE, false, Pairs, false);
      CommaAfterFirst(t, i + 1, es);
      var k := FirstKey(t, i + 1, es[0]);
      BracesStep(t, i + 1, es[0].key, k, es, j);
    }
    Bracketed(t, i, ParseBraces(t, i + 1), MapLit(es), j + 1);
  }

  lemma EmptyMap(t: seq<Token>, i: nat)
    requires Peek(t, i) == RBRACE
    ensures ParseBraces(t, i) == Some(Parsed(MapLit([]), i + 1))
  {
  }

  /** A map starts with an expression and a colon. */
  lemma {:induction false} FirstKey(t: seq<Token>, i: nat, it: Item) returns (k: nat)
    requires SoundItem(it, Pairs, false) && Here(t, i, ItemText(it)) && Closes(Peek(t, i + |ItemText(it)|))
    ensures it.Pair? && ParseExpr(t, i, 0) == Some(Parsed(it.key, k)) && Peek(t, k) == COLON
    decreases it, 2
  {
    hide Sound, Here, Print, ParseExpr;
    k := i + |Print(it.key, 0)|;
    PairOk(t, i, it);
  }

  lemma BracesStep(t: seq<Token>, i: nat, e: Expr, j: nat, es: seq<Item>, k: nat)
    requires Peek(t, i) != RBRACE && ParseExpr(t, i, 0) == Some(Parsed(e, j)) && Peek(t, k) == RBRACE
    requires ParseItems(t, i, RBRACE, if Peek(t, j) == COLON then Pairs else Elements, false)
      == Some(ParsedItems(es, k))
    ensures ParseBraces(t, i) == Some(Parsed(if Peek(t, j) == COLON then MapLit(es) else SetLit(es), k + 1))
  {
    hide ParseExpr, ParseItems;
  }

  // ---- power and prefix operators ----

  lemma {:induction false} PowerOk(t: seq<Token>, i: nat, e: Expr)
    requires Sound(e) && Level(e) >= POWER && Here(t, i, Body(e)) && !Tight(t, i + |Body(e)|)
    ensures ParsePower(t, i) == Some(Parsed(e, i + |Body(e)|))
    decreases e, 2
  {
    hide ParsePostfix, Suffixes, ParseUnary, Here, Print, Items;
    if Level(e) >= POSTFIX {
      hide Body;
      PostfixOk(t, i, e);
      HereEnds(t, i, Body(e));
      SuffixesStop(t, e, i + |Body(e)|);
    } else {
      var a, b := Print(e.l, POSTFIX), Print(e.r, UNARY);
      assert Body(e) == a + [Tok(DSTAR)] + b;
      PowerPair(t, i, e.l, e.r);
    }
  }

  lemma HereEnds(t: seq<Token>, i: nat, s: seq<Token>)
    requires Here(t, i, s)
    ensures i + |s| <= |t|
  {
  }

  lemma {:induction false} PowerPair(t: seq<Token>, i: nat, l: Expr, r: Expr)
    requires Sound(l) && Sound(r) && Here(t, i, Print(l, POSTFIX) + [Tok(DSTAR)] + Print(r, UNARY))
    requires !Tight(t, i + |Print(l, POSTFIX)| + 1 + |Print(r, UNARY)|)
    ensures ParsePower(t, i) == Some(Parsed(Binary(DSTAR, l, r), i + |Print(l, POSTFIX)| + 1 + |Print(r, UNARY)|))
    decreases Binary(DSTAR, l, r), 1
  {
    hide ParsePostfix, ParseUnary, Here, Print, Sound, ParseArgs, ParseSubscript, Suffixes, Tight;
    var a, b := Print(l, POSTFIX), Print(r, UNARY);
    Here3(t, i, a, [Tok(DSTAR)], b);
    HereOne(t, i + |a|, Tok(DSTAR));
    OperandOk(t, i, l);
    DstarStops(t, l, i + |a|);
    PrefixOk(t, i + |a| + 1, r);
  }

  lemma DstarStops(t: seq<Token>, e: Expr, i: nat)
    requires i < |t| && Peek(t, i) == DSTAR
    ensures Suffixes(t, e, i) == Some(Parsed(e, i))
  {
  }

  lemma SignBody(e: Expr)
    requires Sound(e) && UNARY <= Level(e) < POWER
    ensures e.Unary? && (e.op == MINUS || e.op == TILDE) && Sound(e.e) && Body(e) == [Tok(e.op)] + Print(e.e, UNARY)
  {
    hide Print;
  }

  lemma {:induction false} UnaryOk(t: seq<Token>, i: nat, e: Expr)
    requires Sound(e) && Level(e) >= UNARY && Here(t, i, Body(e)) && !Tight(t, i + |Body(e)|)
    ensures ParseUnary(t, i) == Some(Parsed(e, i + |Body(e)|))
    decreases e, 3
  {
    hide ParsePower, ParseExpr, Here, Print, Body, Sound, Level, Tight;
    if Level(e) >= POWER {
      BodyStart(t, i, e);
      PowerOk(t, i, e);
    } else {
      SignBody(e);
      HereSplit(t, i, [Tok(e.op)], Print(e.e, UNARY));
      HereOne(t, i, Tok(e.op));
      PrefixOk(t, i + 1, e.e);
    }
  }

  /** An expression written where a unary one is needed. */
  lemma {:induction false} PrefixOk(t: seq<Token>, i: nat, e: Expr)
    requires Sound(e) && Here(t, i, Print(e, UNARY)) && !Tight(t, i + |Print(e, UNARY)|)
    ensures ParseUnary(t, i) == Some(Parsed(e, i + |Print(e, UNARY)|))
    decreases e, 7
  {
    hide Sound, Body, ParsePostfix, ParseUnary, Here;
    if Level(e) < UNARY { ParenUnary(t, i, e); } else { UnaryOk(t, i, e); }
  }

  lemma {:induction false} ParenUnary(t: seq<Token>, i: nat, e: Expr)
    requires Sound(e) && Here(t, i, [Tok(LPAREN)] + Body(e) + [Tok(RPAREN)]) && !Tight(t, i + |Body(e)| + 2)
    ensures ParseUnary(t, i) == Some(Parsed(e, i + |Body(e)| + 2))
    decreases e, 6
  {
    hide Sound, Body, ParsePostfix, Here, ParseExpr, Suffixes;
    ParenOk(t, i, e);
    Here3(t, i, [Tok(LPAREN)], Body(e), [Tok(RPAREN)]);
    HereOne(t, i, Tok(LPAREN));
    HereEnds(t, i + 1 + |Body(e)|, [Tok(RPAREN)]);
    SuffixesStop(t, e, i + |Body(e)| + 2);
  }

  // ---- the climbing loop ----

  lemma {:induction false} ExprOk(t: seq<Token>, i: nat, e: Expr, m: nat)
    requires Sound(e) && Level(e) + 1 >= 2 * m && Here(t, i, Body(e)) && Loose(t, i + |Body(e)|, Level(e))
    ensures i + |Body(e)| <= |t| && ParseExpr(t, i, m) == Climb(t, e, i + |Body(e)|, m)
    decreases e, 4
  {
    hide ParseUnary, Climb, Here, Print, Items, OpLevel, Tight, Prec, Params, Part, StepText, AllSound;
    HereEnds(t, i, Body(e));
    if Level(e) >= UNARY {
      UnaryOk(t, i, e);
    } else {
      match e
      case Lambda(ps, body) =>
        LambdaOk(t, i, ps, body);
      case Unary(op, x) =>
        NotOk(t, i, x);
      case Binary(op, l, r) =>
        BinaryOk(t, i, op, l, r, m);
      case Member(neg, l, r) =>
        MemberOk(t, i, neg, l, r, m);
    }
  }

  /** A lambda takes everything up to the first token that ends an expression. */
  lemma {:induction false} LambdaOk(t: seq<Token>, i: nat, ps: seq<string>, body: Expr)
    requires RANGE_NAME !in ps && Sound(body) && Here(t, i, Body(Lambda(ps, body)))
    requires Loose(t, i + |Body(Lambda(ps, body))|, 0)
    ensures ParseUnary(t, i) == Some(Parsed(Lambda(ps, body), i + |Body(Lambda(ps, body))|))
    decreases Lambda(ps, body), 3
  {
    hide Sound, ParseExpr, Here, Print, Climb, Params, ParseParams, Suffixes, ParsePostfix, ParseUnary, ParseLambda;
    hide Peek, Loose;
    var j := i + 1 + |Params(ps)|;
    var end := j + 1 + |Print(body, 0)|;
    LambdaParts(t, i, ps, body);
    WholeOk(t, j + 1, body);
    ParamsOk(t, i + 1, ps);
    LambdaStep(t, i + 1, ps, j, body, end);
    LambdaEnds(t, i, Lambda(ps, body), end);
  }

  lemma LambdaParts(t: seq<Token>, i: nat, ps: seq<string>, body: Expr)
    requires Here(t, i, Body(Lambda(ps, body)))
    ensures var j := i + 1 + |Params(ps)|;
      && Peek(t, i) == LAMBDA && Here(t, i + 1, Params(ps)) && Peek(t, j) == COLON && Here(t, j + 1, Print(body, 0))
      && j + 1 + |Print(body, 0)| == i + |Body(Lambda(ps, body))|
  {
    hide Here, Params, Print;
    var j := i + 1 + |Params(ps)|;
    Here3(t, i, [Tok(LAMBDA)], Params(ps), [Tok(COLON)] + Print(body, 0));
    HereSplit(t, j, [Tok(COLON)], Print(body, 0));
    HereOne(t, i, Tok(LAMBDA));
    HereOne(t, j, Tok(COLON));
  }

  lemma LambdaEnds(t: seq<Token>, i: nat, e: Expr, end: nat)
    requires Peek(t, i) == LAMBDA && ParseLambda(t, i + 1) == Some(Parsed(e, end)) && Loose(t, end, 0)
    ensures ParseUnary(t, i) == Some(Parsed(e, end))
  {
    hide ParseLambda, ParsePostfix, Suffixes;
    Bracketed(t, i, ParseLambda(t, i + 1), e, end);
    SuffixesStop(t, e, end);
  }

  lemma {:induction false} ParamsOk(t: seq<Token>, i: nat, ps: seq<string>)
    requires Here(t, i, Params(ps)) && Peek(t, i + |Params(ps)|) == COLON
    ensures ps == [] ==> Params(ps) == []
    ensures if ps == [] then Peek(t, i) == COLON
            else Peek(t, i) != COLON && ParseParams(t, i) == Some(ParsedNames(ps, i + |Params(ps)|))
    decreases |ps|
  {
    hide Here, ParseParams;
    if |ps| == 1 {
      assert ps == [ps[0]] && Params(ps) == [Token(IDENT, ps[0])];
      HereOne(t, i, Token(IDENT, ps[0]));
      LastParam(t, i);
    } else if ps != [] {
      var rest := ps[1..];
      assert Params(ps) == [Token(IDENT, ps[0])] + [Tok(COMMA)] + Params(rest);
      Here3(t, i, [Token(IDENT, ps[0])], [Tok(COMMA)], Params(rest));
      HereOne(t, i, Token(IDENT, ps[0]));
      HereOne(t, i + 1, Tok(COMMA));
      ParamsOk(t, i + 2, rest);
      MoreParams(t, i, rest);
      assert [ps[0]] + rest == ps;
    }
  }

  lemma LastParam(t: seq<Token>, i: nat)
    requires Peek(t, i) == IDENT && Peek(t, i + 1) == COLON
    ensures ParseParams(t, i) == Some(ParsedNames([t[i].text], i + 1))
  {
  }

  lemma MoreParams(t: seq<Token>, i: nat, rest: seq<string>)
    requires Peek(t, i) == IDENT && Peek(t, i + 1) == COMMA
    requires var r := ParseParams(t, i + 2); r.Some? && r.value.names == rest
    ensures ParseParams(t, i) == Some(ParsedNames([t[i].text] + rest, ParseParams(t, i + 2).value.pos))
  {
  }

  lemma LambdaStep(t: seq<Token>, i: nat, ps: seq<string>, j: nat, body: Expr, end: nat)
    requires ps == [] ==> Peek(t, i) == COLON && j == i
    requires ps != [] ==> Peek(t, i) != COLON && ParseParams(t, i) == Some(ParsedNames(ps, j))
    requires Peek(t, j) == COLON && ParseExpr(t, j + 1, 0) == Some(Parsed(body, end))
    ensures ParseLambda(t, i) == Some(Parsed(Lambda(ps, body), end))
  {
    hide ParseExpr, ParseParams;
  }

  lemma {:induction false} NotOk(t: seq<Token>, i: nat, x: Expr)
    requires Sound(x) && Here(t, i, [Tok(NOT)] + Print(x, 5)) && Loose(t, i + 1 + |Print(x, 5)|, 5)
    ensures ParseUnary(t, i) == Some(Parsed(Unary(NOT, x), i + 1 + |Print(x, 5)|))
    decreases Unary(NOT, x), 3
  {
    hide Sound, Body, ParseExpr, ParsePower, Here, Print, Climb, OpLevel;
    HereSplit(t, i, [Tok(NOT)], Print(x, 5));
    HereOne(t, i, Tok(NOT));
    HereEnds(t, i + 1, Print(x, 5));
    PrintOk(t, i + 1, x, 5, 3);
    ClimbStops(t, x, i + 1 + |Print(x, 5)|, 3);
  }

  lemma {:induction false} BinaryOk(t: seq<Token>, i: nat, op: Kind, l: Expr, r: Expr, m: nat)
    requires Prec(op) > 0 && 2 * Prec(op) + 1 >= 2 * m && Sound(l) && Sound(r)
    requires Here(t, i, Print(l, 2 * Prec(op)) + [Tok(op)] + Print(r, 2 * Prec(op) + 1))
    requires Loose(t, i + |Print(l, 2 * Prec(op))| + 1 + |Print(r, 2 * Prec(op) + 1)|, 2 * Prec(op))
    ensures var j := i + |Print(l, 2 * Prec(op))| + 1 + |Print(r, 2 * Prec(op) + 1)|;
      j <= |t| && ParseExpr(t, i, m) == Climb(t, Binary(op, l, r), j, m)
    decreases Binary(op, l, r), 3
  {
    hide Sound, Body, ParseExpr, Here, Climb, OpLevel, Print, Tight, Prec, Peek;
    var q := Prec(op);
    var a, b := Print(l, 2 * q), Print(r, 2 * q + 1);
    var j := i + |a| + 1 + |b|;
    BinaryParts(t, i, a, op, b);
    PrintOk(t, i, l, 2 * q, m);
    PrintOk(t, i + |a| + 1, r, 2 * q + 1, q + 1);
    ClimbStops(t, r, j, q + 1);
    ClimbOn(t, op, l, r, i + |a|, j, m);
  }

  lemma BinaryParts(t: seq<Token>, i: nat, a: seq<Token>, op: Kind, b: seq<Token>)
    requires Here(t, i, a + [Tok(op)] + b) && Prec(op) > 0
    ensures Here(t, i, a) && Here(t, i + |a| + 1, b) && i + |a| + 1 + |b| <= |t|
    ensures Peek(t, i + |a|) == op && Loose(t, i + |a|, 2 * Prec(op))
  {
    hide Here;
    Here3(t, i, a, [Tok(op)], b);
    HereOne(t, i + |a|, Tok(op));
    HereEnds(t, i + |a| + 1, b);
  }

  lemma ClimbOn(t: seq<Token>, op: Kind, l: Expr, r: Expr, i: nat, j: nat, m: nat)
    requires i < j <= |t| && Peek(t, i) == op && Prec(op) > 0 && Prec(op) >= m
    requires ParseExpr(t, i + 1, Prec(op) + 1) == Some(Parsed(r, j))
    ensures Climb(t, l, i, m) == Climb(t, Binary(op, l, r), j, m)
  {
    hide ParseExpr;
  }

  lemma {:induction false} MemberOk(t: seq<Token>, i: nat, neg: bool, l: Expr, r: Expr, m: nat)
    requires 7 >= 2 * m && Sound(l) && Sound(r)
    requires Here(t, i, Print(l, 6) + MemberOp(neg) + Print(r, 7))
    requires Loose(t, i + |Print(l, 6)| + |MemberOp(neg)| + |Print(r, 7)|, 6)
    ensures var j := i + |Print(l, 6)| + |MemberOp(neg)| + |Print(r, 7)|;
      j <= |t| && ParseExpr(t, i, m) == Climb(t, Member(neg, l, r), j, m)
    decreases Member(neg, l, r), 3
  {
    hide Sound, Body, ParseExpr, Here, Climb, OpLevel, Print, MemberOp, Tight, Prec, Peek;
    var a, b, k := Print(l, 6), Print(r, 7), |MemberOp(neg)|;
    var j := i + |a| + k + |b|;
    MemberParts(t, i, a, neg, b);
    PrintOk(t, i, l, 6, m);
    PrintOk(t, i + |a| + k, r, 7, 4);
    ClimbStops(t, r, j, 4);
    ClimbMember(t, neg, l, r, i + |a|, j, m);
  }

  lemma MemberParts(t: seq<Token>, i: nat, a: seq<Token>, neg: bool, b: seq<Token>)
    requires Here(t, i, a + MemberOp(neg) + b)
    ensures Here(t, i, a) && Here(t, i + |a| + |MemberOp(neg)|, b) && i + |a| + |MemberOp(neg)| + |b| <= |t|
    ensures Peek(t, i + |a|) == (if neg then NOT else IN) && (neg ==> Peek(t, i + |a| + 1) == IN)
    ensures Loose(t, i + |a|, 6)
  {
    hide Here;
    Here3(t, i, a, MemberOp(neg), b);
    HereEnds(t, i + |a| + |MemberOp(neg)|, b);
    if neg { HereTwo(t, i + |a|, Tok(NOT), Tok(IN)); } else { HereOne(t, i + |a|, Tok(IN)); }
  }

  lemma ClimbMember(t: seq<Token>, neg: bool, l: Expr, r: Expr, i: nat, j: nat, m: nat)
    requires i < j <= |t| && m <= 3 && Peek(t, i) == (if neg then NOT else IN) && (neg ==> Peek(t, i + 1) == IN)
    requires ParseExpr(t, i + |MemberOp(neg)|, 4) == Some(Parsed(r, j))
    ensures Climb(t, l, i, m) == Climb(t, Member(neg, l, r), j, m)
  {
    hide ParseExpr;
  }

  /** An expression written where strength `c` is needed, read with a bound that lets
      operators of that strength through: the loop goes on with it as left operand. */
  lemma {:induction false} PrintOk(t: seq<Token>, i: nat, e: Expr, c: nat, m: nat)
    requires Sound(e) && Here(t, i, Print(e, c)) && c + 1 >= 2 * m && Loose(t, i + |Print(e, c)|, c)
    ensures i + |Print(e, c)| <= |t| && ParseExpr(t, i, m) == Climb(t, e, i + |Print(e, c)|, m)
    decreases e, 7
  {
    hide Sound, Body, ParseUnary, Here, Climb, OpLevel;
    HereEnds(t, i, Print(e, c));
    if Level(e) < c { ParenUnary(t, i, e); } else { ExprOk(t, i, e, m); }
  }

  /** An expression on its own, up to a bracket or a comma. */
  lemma {:induction false} WholeOk(t: seq<Token>, i: nat, e: Expr)
    requires Sound(e) && Here(t, i, Print(e, 0)) && Loose(t, i + |Print(e, 0)|, 0)
    ensures i + |Print(e, 0)| <= |t| && ParseExpr(t, i, 0) == Some(Parsed(e, i + |Print(e, 0)|))
    decreases e, 8
  {
    hide Sound, Body, ParseExpr, Here, Climb, Print;
    PrintOk(t, i, e, 0, 0);
    ClimbStops(t, e, i + |Print(e, 0)|, 0);
  }

  // ---- the theorem ----

  lemma HereThere(a: seq<Token>, s: seq<Token>, b: seq<Token>)
    ensures Here(a + s + b, |a|, s)
  {
    assert (a + s + b)[|a|..|a| + |s|] == s;
  }

  /** Anywhere in a token list, the text of `e` is read back as `e`, and reading stops
      at the first token that does not continue it: one that neither extends an operand
      nor is an operator that the bound `m` admits. */
  lemma {:induction false} RoundTrip(before: seq<Token>, e: Expr, c: nat, rest: seq<Token>, m: nat)
    requires Sound(e) && (c == 2 * m || c == 2 * m - 1)
    requires Loose(rest, 0, if c == 2 * m && c > 0 then c - 1 else c)
    ensures ParseExpr(before + Print(e, c) + rest, |before|, m) == Some(Parsed(e, |before + Print(e, c)|))
  {
    hide Sound, Body, ParseExpr, Climb, Print, Here, Prec;
    var t := before + Print(e, c) + rest;
    var j := |before + Print(e, c)|;
    HereThere(before, Print(e, c), rest);
    assert Peek(t, j) == Peek(rest, 0) && Peek(t, j + 1) == Peek(rest, 1);
    PrintOk(t, |before|, e, c, m);
    ClimbStops(t, e, j, m);
  }

  /** In particular the text on its own determines the tree. */
  lemma Unambiguous(a: Expr, b: Expr)
    requires Sound(a) && Sound(b) && Print(a, 0) == Print(b, 0)
    ensures a == b
  {
    hide Sound, Body, ParseExpr, Print;
    RoundTrip([], a, 0, [], 0);
    RoundTrip([], b, 0, [], 0);
  }
}
