/**
 The parser object: a token list and a position that its methods move forward. Each
 method reads what the grammar function of the same name reads.
 */
module ExprParser {
  import opened Common
  import opened ExprSyntax
  import opened ExprGrammar
  import opened ExprRoundTrip

  class Parser {
    const tokens: seq<Token>
    var current: nat

    constructor (tokens: seq<Token>)
      ensures this.tokens == tokens && current == 0
    {
      this.tokens, current := tokens, 0;
    }

    /** What the grammar function said, and the position moved accordingly. An error
        leaves the position anywhere. */
    ghost predicate Did(r: Option<Expr>, g: Option<Parsed>) reads this {
      if g.None? then r.None? else r == Some(g.value.e) && current == g.value.pos
    }

    ghost predicate DidItems(r: Option<seq<Item>>, g: Option<ParsedItems>) reads this {
      if g.None? then r.None? else r == Some(g.value.es) && current == g.value.pos
    }

    ghost predicate DidPart(r: Option<Option<Expr>>, g: Option<ParsedPart>) reads this {
      if g.None? then r.None? else r == Some(g.value.e) && current == g.value.pos
    }

    function PeekKind(): (k: Kind) reads this ensures k == Peek(tokens, current) {
      if current >= |tokens| then EOF else tokens[current].kind
    }

    method Advance() returns (t: Token)
      modifies this
      ensures current == old(current) + 1
      ensures old(current) < |tokens| ==> t == tokens[old(current)]
    {
      t := if current < |tokens| then tokens[current] else Token(EOF, "");
      current := current + 1;
    }

    method Expect(k: Kind) returns (ok: bool)
      modifies this
      ensures ok <==> Peek(tokens, old(current)) == k
      ensures current == if ok then old(current) + 1 else old(current)
    {
      if PeekKind() != k { return false; }
      var _ := Advance();
      return true;
    }

    /** Precedence climbing. */
    method ParseExpr(minPrec: nat) returns (r: Option<Expr>)
      modifies this
      ensures Did(r, ExprGrammar.ParseExpr(tokens, old(current), minPrec))
      decreases |tokens| - current, 6
    {
      hide ExprGrammar.ParseExpr, ExprGrammar.ParseUnary, Climb, Prec;
      ghost var start, goal := current, ExprGrammar.ParseExpr(tokens, current, minPrec);
      ExprIs(tokens, current, minPrec);
      var left := ParseUnary();
      if left.None? { return None; }
      var e := left.value;
      while true
        invariant start < current <= |tokens| && Climb(tokens, e, current, minPrec) == goal
        decreases |tokens| - current
      {
        ghost var at := current;
        var k := PeekKind();
        var neg := k == NOT;
        if k == IN || (neg && Peek(tokens, current + 1) == IN) {
          if 3 < minPrec { ClimbDone(tokens, e, current, minPrec); break; }
          var _ := Advance();
          if neg { var _ := Advance(); }
          var right := ParseExpr(4);
          if right.None? { MemberFails(tokens, neg, e, at, minPrec); return None; }
          ClimbMember(tokens, neg, e, right.value, at, current, minPrec);
          e := Member(neg, e, right.value);
          continue;
        }
        var prec := Prec(k);
        if prec == 0 || prec < minPrec { ClimbDone(tokens, e, current, minPrec); break; }
        var _ := Advance();
        var right := ParseExpr(prec + 1);
        if right.None? { BinaryFails(tokens, e, at, minPrec); return None; }
        ClimbOn(tokens, k, e, right.value, at, current, minPrec);
        e := Binary(k, e, right.value);
      }
      return Some(e);
    }

    method ParseUnary() returns (r: Option<Expr>)
      modifies this
      ensures Did(r, ExprGrammar.ParseUnary(tokens, old(current)))
      decreases |tokens| - current, 5
    {
      hide ExprGrammar.ParseExpr, ExprGrammar.ParsePower;
      var k := PeekKind();
      if k == NOT {
        var _ := Advance();
        r := ParseExpr(3);
        if r.Some? { r := Some(Unary(NOT, r.value)); }
      } else if k == MINUS || k == TILDE {
        var _ := Advance();
        r := ParseUnary();
        if r.Some? { r := Some(Unary(k, r.value)); }
      } else {
        r := ParsePower();
      }
    }

    method ParsePower() returns (r: Option<Expr>)
      modifies this
      ensures Did(r, ExprGrammar.ParsePower(tokens, old(current)))
      decreases |tokens| - current, 4
    {
      hide ExprGrammar.ParsePostfix, ExprGrammar.ParseUnary;
      ghost var start := current;
      r := ParsePostfix();
      if r.None? || PeekKind() != DSTAR { return; }
      var _ := Advance();
      var x := ParseUnary();
      if x.None? { return None; }
      r := Some(Binary(DSTAR, r.value, x.value));
    }

    /** A primary and its calls, subscripts and attributes. */
    method ParsePostfix() returns (r: Option<Expr>)
      modifies this
      ensures Did(r, ExprGrammar.ParsePostfix(tokens, old(current)))
      decreases |tokens| - current, 3
    {
      hide ExprGrammar.ParsePrimary, ExprGrammar.ParseSubscript, ParseArgs;
      ghost var start := current;
      r := ParsePrimary();
      if r.None? { return; }
      ghost var goal := Suffixes(tokens, r.value, current);
      var e := r.value;
      while true
        invariant start < current <= |tokens| && Suffixes(tokens, e, current) == goal
        decreases |tokens| - current
      {
        match PeekKind()
        case LPAREN =>
          var args := ParseCallArgs();
          if args.None? { return None; }
          e := if e == Name("super") && args.value == [] then Super else Call(e, args.value);
        case LBRACK =>
          var x := ParseSubscript(e);
          if x.None? { return None; }
          e := x.value;
        case DOT =>
          var _ := Advance();
          if PeekKind() != IDENT { return None; }
          var name := Advance();
          e := Attr(e, name.text);
        case _ =>
          return Some(e);
      }
    }

    /** An index or a slice. */
    method ParseSubscript(o: Expr) returns (r: Option<Expr>)
      requires Peek(tokens, current) == LBRACK
      modifies this
      ensures Did(r, ExprGrammar.ParseSubscript(tokens, o, old(current) + 1))
      decreases |tokens| - current, 2
    {
      hide ExprGrammar.ParsePart, ExprGrammar.ParseSubscript, ParseStep, Peek;
      Inside(tokens, current);
      var _ := Advance();
      ghost var at := current;
      var low := ParseSlicePart();
      SubscriptParts(tokens, o, at);
      if low.None? { return None; }
      ghost var mid := current;
      if PeekKind() != COLON {
        if low.value.None? { return None; }
        var ok := Expect(RBRACK);
        return if ok then Some(Index(o, low.value.value)) else None;
      }
      Inside(tokens, current);
      var _ := Advance();
      var high := ParseSlicePart();
      if high.None? { return None; }
      ghost var end := current;
      StepParts(tokens, end);
      var step := Some(None);
      if PeekKind() == COLON {
        Inside(tokens, current);
        var _ := Advance();
        step := ParseSlicePart();
        if step.None? { return None; }
      }
      assert DidPart(step, ParseStep(tokens, end));
      var ok := Expect(RBRACK);
      return if ok then Some(Slice(o, low.value, high.value, step.value)) else None;
    }

    method ParseSlicePart() returns (r: Option<Option<Expr>>)
      modifies this
      ensures DidPart(r, ExprGrammar.ParsePart(tokens, old(current)))
      decreases |tokens| - current, 7
    {
      hide ExprGrammar.ParseExpr;
      if PeekKind() == COLON || PeekKind() == RBRACK { return Some(None); }
      var x := ParseExpr(0);
      r := if x.Some? then Some(x) else None;
    }

    /** Positional, starred and keyword arguments, in source order. */
    method ParseCallArgs() returns (r: Option<seq<Item>>)
      requires Peek(tokens, current) == LPAREN
      modifies this
      ensures DidItems(r, ParseArgs(tokens, old(current) + 1))
      ensures r.Some? ==> KeywordsLast(r.value)
      decreases |tokens| - current, 2
    {
      hide ExprGrammar.ParseItems, ExprGrammar.ParseItem, KeywordsLast;
      NoItemsInOrder();
      ItemsInOrder(tokens, current + 1, RPAREN, false);
      var _ := Advance();
      if PeekKind() == RPAREN {
        var _ := Advance();
        return Some([]);
      }
      ghost var start, goal := current, ParseItems(tokens, current, RPAREN, Args, false);
      var es, kw, more := [], false, true;
      PrependNone(goal);
      while more
        invariant start <= current <= |tokens|
        invariant goal == if more then Prepend(es, ParseItems(tokens, current, RPAREN, Args, kw))
          else Some(ParsedItems(es, current))
        decreases |tokens| - current, more
      {
        ghost var at, kwAt, before := current, kw, es;
        var x := ParseArg(kw);
        if x.None? { NoneTaken(tokens, at, RPAREN, Args, kwAt); return None; }
        es, kw := es + [x.value], kw || Later(x.value);
        more := PeekKind() == COMMA;
        ItemTaken(tokens, at, RPAREN, Args, kwAt, x.value, current);
        if more {
          var _ := Advance();
          more := PeekKind() != RPAREN;
          if more { PrependMore(before, x.value, ParseItems(tokens, current, RPAREN, Args, kw)); }
        }
      }
      var ok := Expect(RPAREN);
      return if ok then Some(es) else None;
    }

    /** One argument; after a keyword argument only such may come. */
    method ParseArg(kw: bool) returns (r: Option<Item>)
      modifies this
      ensures var g := ParseItem(tokens, old(current), Args, kw);
        if g.None? then r.None? else r == Some(g.value.it) && current == g.value.pos
      decreases |tokens| - current, 7
    {
      hide ExprGrammar.ParseExpr;
      var k := PeekKind();
      if k == DSTAR {
        var _ := Advance();
        var x := ParseExpr(0);
        return if x.Some? then Some(DoubleStar(x.value)) else None;
      }
      if k == IDENT && Peek(tokens, current + 1) == ASSIGN {
        var name := Advance();
        var _ := Advance();
        var x := ParseExpr(0);
        return if x.Some? then Some(Keyword(name.text, x.value)) else None;
      }
      if kw { return None; }
      if k == STAR {
        var _ := Advance();
        var x := ParseExpr(0);
        return if x.Some? then Some(Star(x.value)) else None;
      }
      var x := ParseExpr(0);
      r := if x.Some? then Some(Plain(x.value)) else None;
    }

    method ParsePrimary() returns (r: Option<Expr>)
      modifies this
      ensures Did(r, ExprGrammar.ParsePrimary(tokens, old(current)))
      decreases |tokens| - current, 2
    {
      hide ParseParens, ParseList, ParseBraces, ExprGrammar.ParseLambda;
      match PeekKind()
      case LITERAL =>
        var t := Advance();
        r := Some(Lit(t.text));
      case IDENT =>
        var t := Advance();
        r := Some(Name(t.text));
      case RANGE =>
        var t := Advance();
        r := Some(Name(t.text));
      case LAMBDA => r := ParseLambda();
      case LPAREN => r := ParseParenthesised();
      case LBRACK => r := ParseListLit();
      case LBRACE => r := ParseMapLit();
      case _ => r := None;
    }

    method ParseLambda() returns (r: Option<Expr>)
      requires Peek(tokens, current) == LAMBDA
      modifies this
      ensures Did(r, ExprGrammar.ParseLambda(tokens, old(current) + 1))
      decreases |tokens| - current, 1
    {
      hide ExprGrammar.ParseExpr;
      var _ := Advance();
      ghost var start := current;
      var names: seq<string> := [];
      if PeekKind() != COLON {
        ghost var goal := ParseParams(tokens, current);
        PrependNoNames(goal);
        var more := true;
        while more
          invariant start <= current <= |tokens|
          invariant goal == if more then PrependNames(names, ParseParams(tokens, current))
            else Some(ParsedNames(names, current))
          decreases |tokens| - current, more
        {
          if PeekKind() != IDENT { return None; }
          var name := Advance();
          more := PeekKind() == COMMA;
          if more {
            var _ := Advance();
            PrependName(names, name.text, ParseParams(tokens, current));
          }
          names := names + [name.text];
        }
      }
      var ok := Expect(COLON);
      if !ok { return None; }
      var body := ParseExpr(0);
      r := if body.Some? then Some(Lambda(names, body.value)) else None;
    }

    /** The rest of a list whose first element is read: one more after every comma, but
        one comma may trail. */
    method ParseElements(first: Expr, close: Kind, ghost start: nat) returns (r: Option<seq<Item>>)
      requires start < current <= |tokens|
      requires ParseItem(tokens, start, Elements, false) == Some(ParsedItem(Plain(first), current))
      modifies this
      ensures DidItems(r, ParseItems(tokens, start, close, Elements, false))
      decreases |tokens| - current, 8
    {
      hide ExprGrammar.ParseExpr, ExprGrammar.ParseItems, ExprGrammar.ParseItem;
      ghost var goal := ParseItems(tokens, start, close, Elements, false);
      var es := [Plain(first)];
      ItemTaken(tokens, start, close, Elements, false, Plain(first), current);
      while PeekKind() == COMMA
        invariant start < current <= |tokens| && goal == After(tokens, es, current, close, Elements, false)
        decreases |tokens| - current
      {
        ghost var at := current;
        var _ := Advance();
        if PeekKind() == close { break; }
        ElementIs(tokens, current);
        var next := ParseExpr(0);
        if next.None? { NoMore(tokens, es, at, close, Elements, false); return None; }
        MoreTaken(tokens, es, at, close, Elements, false, Plain(next.value), current);
        es := es + [Plain(next.value)];
      }
      return Some(es);
    }

    /** A grouping or a tuple. */
    method ParseParenthesised() returns (r: Option<Expr>)
      requires Peek(tokens, current) == LPAREN
      modifies this
      ensures Did(r, ParseParens(tokens, old(current) + 1))
      decreases |tokens| - current, 1
    {
      hide ExprGrammar.ParseExpr, ExprGrammar.ParseItems, ExprGrammar.ParseItem;
      var _ := Advance();
      ghost var start := current;
      if PeekKind() == RPAREN {
        var _ := Advance();
        return Some(Tuple([]));
      }
      var first := ParseExpr(0);
      if first.None? { return None; }
      if PeekKind() != COMMA {
        var ok := Expect(RPAREN);
        return if ok then first else None;
      }
      ElementIs(tokens, start);
      var es := ParseElements(first.value, RPAREN, start);
      if es.None? { return None; }
      var ok := Expect(RPAREN);
      return if ok then Some(Tuple(es.value)) else None;
    }

    method ParseListLit() returns (r: Option<Expr>)
      requires Peek(tokens, current) == LBRACK
      modifies this
      ensures Did(r, ParseList(tokens, old(current) + 1))
      decreases |tokens| - current, 1
    {
      hide ExprGrammar.ParseExpr, ExprGrammar.ParseItems, ExprGrammar.ParseItem;
      var _ := Advance();
      ghost var start := current;
      if PeekKind() == RBRACK {
        var _ := Advance();
        return Some(List([]));
      }
      var first := ParseExpr(0);
      ElementIs(tokens, start);
      if first.None? { NoneTaken(tokens, start, RBRACK, Elements, false); return None; }
      var es := ParseElements(first.value, RBRACK, start);
      if es.None? { return None; }
      var ok := Expect(RBRACK);
      return if ok then Some(List(es.value)) else None;
    }

    /** A set or a map. */
    method ParseMapLit() returns (r: Option<Expr>)
      requires Peek(tokens, current) == LBRACE
      modifies this
      ensures Did(r, ParseBraces(tokens, old(current) + 1))
      decreases |tokens| - current, 1
    {
      hide ExprGrammar.ParseExpr, ExprGrammar.ParseItems, ExprGrammar.ParseItem;
      var _ := Advance();
      ghost var start := current;
      if PeekKind() == RBRACE {
        var _ := Advance();
        return Some(MapLit([]));
      }
      var first := ParseExpr(0);
      if first.None? { return None; }
      var es;
      if PeekKind() == COLON {
        es := ParsePairs(first.value, start);
        if es.None? { return None; }
        var ok := Expect(RBRACE);
        return if ok then Some(MapLit(es.value)) else None;
      }
      ElementIs(tokens, start);
      es := ParseElements(first.value, RBRACE, start);
      if es.None? { return None; }
      var ok := Expect(RBRACE);
      return if ok then Some(SetLit(es.value)) else None;
    }

    /** The pairs of a map whose first key is read. */
    method ParsePairs(first: Expr, ghost start: nat) returns (r: Option<seq<Item>>)
      requires start < current <= |tokens| && ExprGrammar.ParseExpr(tokens, start, 0) == Some(Parsed(first, current))
      requires Peek(tokens, current) == COLON
      modifies this
      ensures DidItems(r, ParseItems(tokens, start, RBRACE, Pairs, false))
      decreases |tokens| - current, 8
    {
      hide ExprGrammar.ParseExpr, ExprGrammar.ParseItems, ExprGrammar.ParseItem, After;
      ghost var goal := ParseItems(tokens, start, RBRACE, Pairs, false);
      PairIs(tokens, start);
      var _ := Advance();
      var firstVal := ParseExpr(0);
      if firstVal.None? { NoneTaken(tokens, start, RBRACE, Pairs, false); return None; }
      var es := [Pair(first, firstVal.value)];
      ItemTaken(tokens, start, RBRACE, Pairs, false, es[0], current);
      while PeekKind() == COMMA
        invariant start < current <= |tokens| && goal == After(tokens, es, current, RBRACE, Pairs, false)
        decreases |tokens| - current
      {
        ghost var at := current;
        var _ := Advance();
        if PeekKind() == RBRACE { LastComma(tokens, es, at, RBRACE, Pairs, false); return Some(es); }
        PairIs(tokens, current);
        var k := ParseExpr(0);
        if k.None? { NoMore(tokens, es, at, RBRACE, Pairs, false); return None; }
        var ok := Expect(COLON);
        if !ok { NoMore(tokens, es, at, RBRACE, Pairs, false); return None; }
        var v := ParseExpr(0);
        if v.None? { NoMore(tokens, es, at, RBRACE, Pairs, false); return None; }
        MoreTaken(tokens, es, at, RBRACE, Pairs, false, Pair(k.value, v.value), current);
        es := es + [Pair(k.value, v.value)];
      }
      NoComma(tokens, es, current, RBRACE, Pairs, false);
      return Some(es);
    }
  }

  // ---- what is still to come, behind what is already read ----

  ghost function Prepend(es: seq<Item>, r: Option<ParsedItems>): Option<ParsedItems> {
    if r.None? then None else Some(ParsedItems(es + r.value.es, r.value.pos))
  }

  ghost function PrependNames(ns: seq<string>, r: Option<ParsedNames>): Option<ParsedNames> {
    if r.None? then None else Some(ParsedNames(ns + r.value.names, r.value.pos))
  }

  lemma PrependNone(r: Option<ParsedItems>)
    ensures Prepend([], r) == r
  {
    if r.Some? { assert [] + r.value.es == r.value.es; }
  }

  lemma PrependNoNames(r: Option<ParsedNames>)
    ensures PrependNames([], r) == r
  {
    if r.Some? { assert [] + r.value.names == r.value.names; }
  }

  lemma PrependName(ns: seq<string>, n: string, r: Option<ParsedNames>)
    ensures PrependNames(ns, PrependNames([n], r)) == PrependNames(ns + [n], r)
  {
    if r.Some? { assert ns + ([n] + r.value.names) == ns + [n] + r.value.names; }
  }

  lemma PrependMore(es: seq<Item>, it: Item, r: Option<ParsedItems>)
    ensures Prepend(es, Prepend([it], r)) == Prepend(es + [it], r)
  {
    if r.Some? { assert es + ([it] + r.value.es) == es + [it] + r.value.es; }
  }

  lemma NoneTaken(t: seq<Token>, i: nat, close: Kind, form: Form, kw: bool)
    requires ParseItem(t, i, form, kw).None?
    ensures ParseItems(t, i, close, form, kw).None?
  {
    hide ParseItem;
  }

  /** After `es`, up to `j`: the end, one comma and the end, or a comma and more. */
  ghost function After(t: seq<Token>, es: seq<Item>, j: nat, close: Kind, form: Form, kw: bool): Option<ParsedItems> {
    if Peek(t, j) != COMMA then Some(ParsedItems(es, j))
    else if Peek(t, j + 1) == close then Some(ParsedItems(es, j + 1))
    else Prepend(es, ParseItems(t, j + 1, close, form, kw))
  }

  lemma NoComma(t: seq<Token>, es: seq<Item>, j: nat, close: Kind, form: Form, kw: bool)
    requires Peek(t, j) != COMMA
    ensures After(t, es, j, close, form, kw) == Some(ParsedItems(es, j))
  {
  }

  lemma LastComma(t: seq<Token>, es: seq<Item>, j: nat, close: Kind, form: Form, kw: bool)
    requires Peek(t, j) == COMMA && Peek(t, j + 1) == close
    ensures After(t, es, j, close, form, kw) == Some(ParsedItems(es, j + 1))
  {
  }

  lemma NoMore(t: seq<Token>, es: seq<Item>, i: nat, close: Kind, form: Form, kw: bool)
    requires Peek(t, i) == COMMA && Peek(t, i + 1) != close && ParseItem(t, i + 1, form, kw).None?
    ensures After(t, es, i, close, form, kw).None?
  {
    hide ParseItem;
  }

  lemma ItemTaken(t: seq<Token>, i: nat, close: Kind, form: Form, kw: bool, it: Item, j: nat)
    requires ParseItem(t, i, form, kw) == Some(ParsedItem(it, j))
    ensures ParseItems(t, i, close, form, kw) == After(t, [it], j, close, form, kw || Later(it))
  {
    hide ParseItem;
  }

  lemma MoreTaken(t: seq<Token>, es: seq<Item>, i: nat, close: Kind, form: Form, kw: bool, it: Item, j: nat)
    requires Peek(t, i) == COMMA && Peek(t, i + 1) != close && ParseItem(t, i + 1, form, kw) == Some(ParsedItem(it, j))
    ensures After(t, es, i, close, form, kw) == After(t, es + [it], j, close, form, kw || Later(it))
  {
    hide ParseItem, ParseItems;
    ItemTaken(t, i + 1, close, form, kw, it, j);
    PrependMore(es, it, ParseItems(t, j + 1, close, form, kw || Later(it)));
  }

  lemma ExprIs(t: seq<Token>, i: nat, m: nat)
    ensures var u, r := ExprGrammar.ParseUnary(t, i), ExprGrammar.ParseExpr(t, i, m);
      if u.None? then r.None? else r == Climb(t, u.value.e, u.value.pos, m)
  {
    hide ExprGrammar.ParseUnary, Climb;
  }

  lemma ClimbDone(t: seq<Token>, e: Expr, i: nat, m: nat)
    requires i <= |t| && if MemberNext(t, i) then 3 < m else Prec(Peek(t, i)) == 0 || Prec(Peek(t, i)) < m
    ensures Climb(t, e, i, m) == Some(Parsed(e, i))
  {
    hide ExprGrammar.ParseExpr;
  }

  lemma MemberFails(t: seq<Token>, neg: bool, e: Expr, i: nat, m: nat)
    requires i <= |t| && m <= 3 && MemberNext(t, i) && (neg <==> Peek(t, i) == NOT)
    requires ExprGrammar.ParseExpr(t, if neg then i + 2 else i + 1, 4).None?
    ensures Climb(t, e, i, m).None?
  {
    hide ExprGrammar.ParseExpr;
  }

  lemma BinaryFails(t: seq<Token>, e: Expr, i: nat, m: nat)
    requires i <= |t| && !MemberNext(t, i) && Prec(Peek(t, i)) > 0 && Prec(Peek(t, i)) >= m
    requires ExprGrammar.ParseExpr(t, i + 1, Prec(Peek(t, i)) + 1).None?
    ensures Climb(t, e, i, m).None?
  {
    hide ExprGrammar.ParseExpr;
  }

  lemma ElementIs(t: seq<Token>, i: nat)
    ensures var x, r := ExprGrammar.ParseExpr(t, i, 0), ParseItem(t, i, Elements, false);
      if x.None? then r.None? else r == Some(ParsedItem(Plain(x.value.e), x.value.pos))
  {
    hide ExprGrammar.ParseExpr;
  }

  lemma PairIs(t: seq<Token>, i: nat)
    ensures var k, r := ExprGrammar.ParseExpr(t, i, 0), ParseItem(t, i, Pairs, false);
      if k.None? || Peek(t, k.value.pos) != COLON then r.None?
      else
        var v := ExprGrammar.ParseExpr(t, k.value.pos + 1, 0);
        if v.None? then r.None? else r == Some(ParsedItem(Pair(k.value.e, v.value.e), v.value.pos))
  {
    hide ExprGrammar.ParseExpr;
  }

  lemma ReadAlone(e: Expr)
    requires Sound(e)
    ensures ExprGrammar.ParseExpr(Print(e, 0), 0, 0) == Some(Parsed(e, |Print(e, 0)|))
  {
    hide Print, Sound, ExprGrammar.ParseExpr, Body;
    RoundTrip([], e, 0, [], 0);
    assert [] + Print(e, 0) + [] == Print(e, 0) && [] + Print(e, 0) == Print(e, 0);
  }

  lemma Inside(t: seq<Token>, i: nat)
    requires Peek(t, i) != EOF
    ensures i < |t|
  {
  }

  /** What the brackets hold, part by part. */
  lemma SubscriptParts(t: seq<Token>, o: Expr, i: nat)
    ensures var low := ParsePart(t, i);
      && (low.None? ==> ExprGrammar.ParseSubscript(t, o, i).None?)
      && (low.Some? && Peek(t, low.value.pos) != COLON ==>
            ExprGrammar.ParseSubscript(t, o, i)
            == if low.value.e.None? || Peek(t, low.value.pos) != RBRACK then None
               else Some(Parsed(Index(o, low.value.e.value), low.value.pos + 1)))
      && (low.Some? && Peek(t, low.value.pos) == COLON ==>
            var high := ParsePart(t, low.value.pos + 1);
            if high.None? then ExprGrammar.ParseSubscript(t, o, i).None?
            else
              var step := ParseStep(t, high.value.pos);
              ExprGrammar.ParseSubscript(t, o, i)
              == if step.None? || Peek(t, step.value.pos) != RBRACK then None
                 else Some(Parsed(Slice(o, low.value.e, high.value.e, step.value.e), step.value.pos + 1)))
  {
    hide ExprGrammar.ParsePart, ParseStep, Peek;
  }

  lemma StepParts(t: seq<Token>, i: nat)
    ensures ParseStep(t, i) == if Peek(t, i) == COLON then ParsePart(t, i + 1) else Some(ParsedPart(None, i))
  {
    hide ExprGrammar.ParsePart, Peek;
  }

  /** Writing a sound tree and running the parser on it gives the tree back and uses
      up every token. */
  method ReadBack(e: Expr) returns (r: Option<Expr>)
    requires Sound(e)
    ensures r == Some(e)
  {
    hide Print, Sound, ExprGrammar.ParseExpr;
    var p := new Parser(Print(e, 0));
    ReadAlone(e);
    r := p.ParseExpr(0);
    assert p.current == |p.tokens|;
  }

  lemma NoItemsInOrder()
    ensures KeywordsLast([])
  {
  }

  lemma OneMore(it: Item, es: seq<Item>)
    requires KeywordsLast(es) && (it.Keyword? || it.DoubleStar? ==> AllKeywords(es))
    ensures KeywordsLast([it] + es)
    ensures (it.Keyword? || it.DoubleStar?) && AllKeywords(es) ==> AllKeywords([it] + es)
  {
    forall k | 0 < k < |es| + 1 ensures ([it] + es)[k] == es[k - 1] && ([it] + es)[k..] == es[k - 1..] {}
    assert ([it] + es)[0..] == [it] + es;
  }

  lemma {:induction false} ItemsInOrder(t: seq<Token>, i: nat, close: Kind, kw: bool)
    ensures var r := ParseItems(t, i, close, Args, kw);
      r.Some? ==> KeywordsLast(r.value.es) && (kw ==> AllKeywords(r.value.es))
    decreases |t| - i
  {
    hide ExprGrammar.ParseItem, KeywordsLast, AllKeywords;
    NoItemsInOrder();
    var x := ParseItem(t, i, Args, kw);
    if x.Some? {
      var it, at := x.value.it, x.value.pos;
      if kw { OnlyKeywords(t, i); }
      if Peek(t, at) == COMMA && Peek(t, at + 1) != close {
        ItemsInOrder(t, at + 1, close, kw || Later(it));
        var more := ParseItems(t, at + 1, close, Args, kw || Later(it));
        if more.Some? { OneMore(it, more.value.es); }
      } else {
        NoneKeywords();
        OneMore(it, []);
        assert [it] + [] == [it];
      }
    }
  }

  lemma OnlyKeywords(t: seq<Token>, i: nat)
    ensures var x := ParseItem(t, i, Args, true); x.Some? ==> x.value.it.Keyword? || x.value.it.DoubleStar?
  {
    hide ExprGrammar.ParseExpr;
  }

  lemma NoneKeywords()
    ensures AllKeywords([])
  {
  }
}
