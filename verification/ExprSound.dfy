/**
 Every tree that the parser returns has a text, so what holds of printed trees holds of
 everything it accepts.
 */
module ExprSound {
  import opened Common
  import opened ExprSyntax
  import opened ExprGrammar
  import opened ExprRoundTrip

  /** What the lexer promises: `range` has a token kind of its own. */
  predicate Lexed(t: seq<Token>) {
    forall k :: 0 <= k < |t| ==>
      && (t[k].kind == IDENT ==> t[k].text != RANGE_NAME) && (t[k].kind == RANGE ==> t[k].text == RANGE_NAME)
  }

  predicate SoundTree(r: Option<Parsed>) { r.Some? ==> Sound(r.value.e) }

  predicate SoundItems(r: Option<ParsedItems>, form: Form, kw: bool) { r.Some? ==> AllSound(r.value.es, form, kw) }

  lemma {:induction false} TreeSound(t: seq<Token>, i: nat, m: nat)
    requires Lexed(t)
    ensures SoundTree(ParseExpr(t, i, m))
    decreases |t| - i, 6
  {
    hide Sound, ParseUnary, Climb, Lexed;
    UnarySound(t, i);
    var u := ParseUnary(t, i);
    if u.Some? { ClimbSound(t, u.value.e, u.value.pos, m); }
  }

  lemma {:induction false} ClimbSound(t: seq<Token>, left: Expr, i: nat, m: nat)
    requires Lexed(t) && i <= |t| && Sound(left)
    ensures SoundTree(Climb(t, left, i, m))
    decreases |t| - i, 7
  {
    hide ParseExpr, AllSound, Lexed;
    if MemberNext(t, i) {
      var neg := Peek(t, i) == NOT;
      var at := if neg then i + 2 else i + 1;
      TreeSound(t, at, 4);
      var right := ParseExpr(t, at, 4);
      if right.Some? { ClimbSound(t, Member(neg, left, right.value.e), right.value.pos, m); }
    } else if Prec(Peek(t, i)) > 0 {
      TreeSound(t, i + 1, Prec(Peek(t, i)) + 1);
      var right := ParseExpr(t, i + 1, Prec(Peek(t, i)) + 1);
      if right.Some? { ClimbSound(t, Binary(Peek(t, i), left, right.value.e), right.value.pos, m); }
    }
  }

  lemma {:induction false} UnarySound(t: seq<Token>, i: nat)
    requires Lexed(t)
    ensures SoundTree(ParseUnary(t, i))
    decreases |t| - i, 5
  {
    hide ParseExpr, ParsePower, AllSound, Lexed;
    if Peek(t, i) == NOT {
      TreeSound(t, i + 1, 3);
    } else if Peek(t, i) == MINUS || Peek(t, i) == TILDE {
      UnarySound(t, i + 1);
    } else {
      PowerSound(t, i);
    }
  }

  lemma {:induction false} PowerSound(t: seq<Token>, i: nat)
    requires Lexed(t)
    ensures SoundTree(ParsePower(t, i))
    decreases |t| - i, 4
  {
    hide ParsePostfix, ParseUnary, AllSound, Lexed;
    PostfixSound(t, i);
    var base := ParsePostfix(t, i);
    if base.Some? && Peek(t, base.value.pos) == DSTAR { UnarySound(t, base.value.pos + 1); }
  }

  lemma {:induction false} PostfixSound(t: seq<Token>, i: nat)
    requires Lexed(t)
    ensures SoundTree(ParsePostfix(t, i))
    decreases |t| - i, 3
  {
    hide ParsePrimary, Suffixes, Sound, Lexed;
    PrimarySound(t, i);
    var p := ParsePrimary(t, i);
    if p.Some? { SuffixesSound(t, p.value.e, p.value.pos); }
  }

  lemma {:induction false} SuffixesSound(t: seq<Token>, e: Expr, i: nat)
    requires Lexed(t) && i <= |t| && Sound(e)
    ensures SoundTree(Suffixes(t, e, i))
    decreases |t| - i, 3
  {
    hide ParseArgs, ParseSubscript, AllSound, Sound;
    match Peek(t, i)
    case LPAREN =>
      ArgsSound(t, i + 1);
      var a := ParseArgs(t, i + 1);
      if a.Some? {
        CallSound(e, a.value.es);
        SuffixesSound(t, if e == Name("super") && a.value.es == [] then Super else Call(e, a.value.es), a.value.pos);
      }
    case LBRACK =>
      SubscriptSound(t, e, i + 1);
      var x := ParseSubscript(t, e, i + 1);
      if x.Some? { SuffixesSound(t, x.value.e, x.value.pos); }
    case DOT =>
      if Peek(t, i + 1) == IDENT {
        AttrSound(e, t[i + 1].text);
        SuffixesSound(t, Attr(e, t[i + 1].text), i + 2);
      }
    case _ =>
  }

  lemma CallSound(f: Expr, args: seq<Item>)
    requires Sound(f) && AllSound(args, Args, false)
    ensures Sound(if f == Name("super") && args == [] then Super else Call(f, args))
  {
    hide SoundItem;
  }

  lemma AttrSound(o: Expr, name: string)
    requires Sound(o) && name != RANGE_NAME
    ensures Sound(Attr(o, name))
  {
    hide AllSound;
  }

  lemma {:induction false} SubscriptSound(t: seq<Token>, o: Expr, i: nat)
    requires Lexed(t) && Sound(o)
    ensures SoundTree(ParseSubscript(t, o, i))
    decreases |t| - i, 8
  {
    hide ParsePart, Sound, SoundPart, Lexed;
    PartSound(t, i);
    var low := ParsePart(t, i);
    if low.Some? && Peek(t, low.value.pos) == COLON {
      PartSound(t, low.value.pos + 1);
      var high := ParsePart(t, low.value.pos + 1);
      if high.Some? {
        if Peek(t, high.value.pos) == COLON { PartSound(t, high.value.pos + 1); } else { NoPart(); }
        var step := ParseStep(t, high.value.pos);
        if step.Some? { SliceSound(o, low.value.e, high.value.e, step.value.e); }
      }
    } else if low.Some? && low.value.e.Some? {
      IndexSound(o, low.value.e.value);
    }
  }

  lemma NoPart()
    ensures SoundPart(None)
  {
  }

  lemma SliceSound(o: Expr, low: Option<Expr>, high: Option<Expr>, step: Option<Expr>)
    requires Sound(o) && SoundPart(low) && SoundPart(high) && SoundPart(step)
    ensures Sound(Slice(o, low, high, step))
  {
  }

  lemma IndexSound(o: Expr, at: Expr)
    requires Sound(o) && SoundPart(Some(at))
    ensures Sound(Index(o, at))
  {
  }

  lemma {:induction false} PartSound(t: seq<Token>, i: nat)
    requires Lexed(t)
    ensures var r := ParsePart(t, i); r.Some? ==> SoundPart(r.value.e)
    decreases |t| - i, 7
  {
    hide ParseExpr, Sound, Lexed;
    if Peek(t, i) != COLON && Peek(t, i) != RBRACK { TreeSound(t, i, 0); }
  }

  lemma {:induction false} ArgsSound(t: seq<Token>, i: nat)
    requires Lexed(t)
    ensures SoundItems(ParseArgs(t, i), Args, false)
    decreases |t| - i, 9
  {
    hide ParseItems, SoundItem, Lexed;
    if Peek(t, i) != RPAREN { ItemsSound(t, i, RPAREN, Args, false); }
  }

  lemma {:induction false} ItemSound(t: seq<Token>, i: nat, form: Form, kw: bool)
    requires Lexed(t)
    ensures var r := ParseItem(t, i, form, kw); r.Some? ==> SoundItem(r.value.it, form, kw)
    decreases |t| - i, 7
  {
    hide ParseExpr, Sound;
    if form == Args && (Peek(t, i) == DSTAR || Peek(t, i) == STAR) {
      TreeSound(t, i + 1, 0);
    } else if form == Args && Peek(t, i) == IDENT && Peek(t, i + 1) == ASSIGN {
      TreeSound(t, i + 2, 0);
    } else {
      TreeSound(t, i, 0);
      var x := ParseExpr(t, i, 0);
      if x.Some? && Peek(t, x.value.pos) == COLON { TreeSound(t, x.value.pos + 1, 0); }
    }
  }

  lemma {:induction false} ItemsSound(t: seq<Token>, i: nat, close: Kind, form: Form, kw: bool)
    requires Lexed(t)
    ensures SoundItems(ParseItems(t, i, close, form, kw), form, kw)
    decreases |t| - i, 8
  {
    hide ParseItem, ParseItems, SoundItem, Lexed, AllSound, Peek;
    ItemSound(t, i, form, kw);
    ItemsAre(t, i, close, form, kw);
    var x := ParseItem(t, i, form, kw);
    if x.Some? {
      OnlySound(x.value.it, form, kw);
      if Peek(t, x.value.pos) == COMMA {
        var at, after := x.value.pos + 1, kw || Later(x.value.it);
        ItemsSound(t, at, close, form, after);
        var more := ParseItems(t, at, close, form, after);
        if more.Some? { FirstSound(x.value.it, more.value.es, form, kw); }
      }
    }
  }

  /** A list is one item, or one item and a list. */
  lemma ItemsAre(t: seq<Token>, i: nat, close: Kind, form: Form, kw: bool)
    ensures var r, x := ParseItems(t, i, close, form, kw), ParseItem(t, i, form, kw);
      r.Some? ==>
        && x.Some?
        && (r.value.es == [x.value.it]
            || (Peek(t, x.value.pos) == COMMA
                && var more := ParseItems(t, x.value.pos + 1, close, form, kw || Later(x.value.it));
                   more.Some? && r.value.es == [x.value.it] + more.value.es))
  {
    hide ParseItem, Peek;
  }

  lemma OnlySound(it: Item, form: Form, kw: bool)
    requires SoundItem(it, form, kw)
    ensures AllSound([it], form, kw)
  {
    hide SoundItem;
  }

  lemma FirstSound(it: Item, es: seq<Item>, form: Form, kw: bool)
    requires SoundItem(it, form, kw)
    ensures AllSound(es, form, kw || Later(it)) ==> AllSound([it] + es, form, kw)
  {
    hide SoundItem;
    assert ([it] + es)[1..] == es;
  }

  lemma {:induction false} ParamsSound(t: seq<Token>, i: nat)
    requires Lexed(t)
    ensures var r := ParseParams(t, i); r.Some? ==> RANGE_NAME !in r.value.names
    decreases |t| - i
  {
    if Peek(t, i) == IDENT && Peek(t, i + 1) == COMMA { ParamsSound(t, i + 2); }
  }

  lemma {:induction false} LambdaSound(t: seq<Token>, i: nat)
    requires Lexed(t)
    ensures SoundTree(ParseLambda(t, i))
    decreases |t| - i, 7
  {
    hide ParseExpr, ParseParams, AllSound, Lexed;
    ParamsSound(t, i);
    var ps := if Peek(t, i) == COLON then Some(ParsedNames([], i)) else ParseParams(t, i);
    if ps.Some? && Peek(t, ps.value.pos) == COLON { TreeSound(t, ps.value.pos + 1, 0); }
  }

  lemma {:induction false} PrimarySound(t: seq<Token>, i: nat)
    requires Lexed(t)
    ensures SoundTree(ParsePrimary(t, i))
    decreases |t| - i, 2
  {
    hide ParseLambda, ParseParens, ParseList, ParseBraces, AllSound, Lexed;
    match Peek(t, i)
    case LAMBDA => LambdaSound(t, i + 1);
    case LPAREN => ParensSound(t, i + 1);
    case LBRACK => ListSound(t, i + 1);
    case LBRACE => BracesSound(t, i + 1);
    case _ =>
  }

  lemma {:induction false} ParensSound(t: seq<Token>, i: nat)
    requires Lexed(t)
    ensures SoundTree(ParseParens(t, i))
    decreases |t| - i, 9
  {
    hide ParseExpr, ParseItems, SoundItem, Lexed;
    if Peek(t, i) != RPAREN {
      TreeSound(t, i, 0);
      ItemsSound(t, i, RPAREN, Elements, false);
    }
  }

  lemma {:induction false} ListSound(t: seq<Token>, i: nat)
    requires Lexed(t)
    ensures SoundTree(ParseList(t, i))
    decreases |t| - i, 9
  {
    hide ParseItems, SoundItem, Lexed;
    if Peek(t, i) != RBRACK { ItemsSound(t, i, RBRACK, Elements, false); }
  }

  lemma {:induction false} BracesSound(t: seq<Token>, i: nat)
    requires Lexed(t)
    ensures SoundTree(ParseBraces(t, i))
    decreases |t| - i, 9
  {
    hide ParseExpr, ParseItems, SoundItem, Lexed;
    if Peek(t, i) != RBRACE {
      ItemsSound(t, i, RBRACE, Pairs, false);
      ItemsSound(t, i, RBRACE, Elements, false);
    }
  }

  // ---- what follows ----

  /** Whatever the parser reads, its tree can be written and is then read as that tree,
      with every token used. */
  lemma ReadAgain(t: seq<Token>, i: nat, m: nat)
    requires Lexed(t) && ParseExpr(t, i, m).Some?
    ensures var e := ParseExpr(t, i, m).value.e;
      Sound(e) && ParseExpr(Print(e, 0), 0, 0) == Some(Parsed(e, |Print(e, 0)|))
  {
    hide Print, Sound, ParseExpr, Body, Lexed;
    TreeSound(t, i, m);
    var e := ParseExpr(t, i, m).value.e;
    RoundTrip([], e, 0, [], 0);
    assert [] + Print(e, 0) + [] == Print(e, 0) && [] + Print(e, 0) == Print(e, 0);
  }

  // ---- which calls are allowed ----

  /** An argument of any of the four kinds. */
  predicate Argument(it: Item) {
    && (it.Plain? || it.Star? || it.Keyword? || it.DoubleStar?) && Sound(it.e)
    && (it.Keyword? ==> it.name != "range")
  }

  lemma {:induction false} ArgumentsSound(es: seq<Item>, kw: bool)
    requires forall k :: 0 <= k < |es| ==> Argument(es[k])
    requires KeywordsLast(es) && (kw ==> AllKeywords(es))
    ensures AllSound(es, Args, kw)
    decreases |es|
  {
    hide Sound;
    if es != [] {
      assert es[0..] == es;
      forall k | 0 <= k < |es| - 1 ensures es[1..][k..] == es[k + 1..] {}
      ArgumentsSound(es[1..], kw || Later(es[0]));
    }
  }

  /** Whatever arguments a call has, with the positionals in front of the keywords, it can be
      written, and the parser reads it. */
  lemma CallAllowed(f: Expr, args: seq<Item>)
    requires Sound(f) && (f == Name("super") ==> args != [])
    requires (forall k :: 0 <= k < |args| ==> Argument(args[k])) && KeywordsLast(args)
    ensures Sound(Call(f, args))
    ensures var text := Print(Call(f, args), 0);
      ParseExpr(text, 0, 0) == Some(Parsed(Call(f, args), |text|))
  {
    hide AllSound, Argument, KeywordsLast, Print, ParseExpr, Sound;
    ArgumentsSound(args, false);
    IsCall(f, args);
    RoundTrip([], Call(f, args), 0, [], 0);
    var text := Print(Call(f, args), 0);
    assert [] + text + [] == text && [] + text == text;
  }

  lemma IsCall(f: Expr, args: seq<Item>)
    requires Sound(f) && (f == Name("super") ==> args != []) && AllSound(args, Args, false)
    ensures Sound(Call(f, args))
  {
  }
}
