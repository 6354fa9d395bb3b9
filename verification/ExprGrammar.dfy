/**
 The expression grammar as the parser follows it: one function per parse method,
 from a position to a tree and the position after it. An error is a None.
 */
module ExprGrammar {
  import opened Common
  import opened ExprSyntax

  datatype Parsed = Parsed(e: Expr, pos: nat)
  datatype ParsedItem = ParsedItem(it: Item, pos: nat)
  datatype ParsedItems = ParsedItems(es: seq<Item>, pos: nat)
  datatype ParsedPart = ParsedPart(e: Option<Expr>, pos: nat)
  datatype ParsedNames = ParsedNames(names: seq<string>, pos: nat)

  function Peek(t: seq<Token>, i: nat): Kind { if i < |t| then t[i].kind else EOF }

  predicate Ahead(r: Option<Parsed>, i: nat, t: seq<Token>) {
    r.Some? ==> i < r.value.pos <= |t|
  }

  /** `in` or `not in` is next. */
  predicate MemberNext(t: seq<Token>, i: nat) {
    Peek(t, i) == IN || (Peek(t, i) == NOT && Peek(t, i + 1) == IN)
  }

  function ParseExpr(t: seq<Token>, i: nat, m: nat): (r: Option<Parsed>)
    ensures Ahead(r, i, t)
    decreases |t| - i, 6
  {
    var u := ParseUnary(t, i);
    if u.None? then None else Climb(t, u.value.e, u.value.pos, m)
  }

  /** The climbing loop, with `left` read so far. */
  function Climb(t: seq<Token>, left: Expr, i: nat, m: nat): (r: Option<Parsed>)
    requires i <= |t|
    ensures r.Some? ==> i <= r.value.pos <= |t|
    decreases |t| - i, 7
  {
    if MemberNext(t, i) then
      if 3 < m then Some(Parsed(left, i))
      else
        var neg := Peek(t, i) == NOT;
        var right := ParseExpr(t, if neg then i + 2 else i + 1, 4);
        if right.None? then None
        else Climb(t, Member(neg, left, right.value.e), right.value.pos, m)
    else if Prec(Peek(t, i)) == 0 || Prec(Peek(t, i)) < m then Some(Parsed(left, i))
    else
      var right := ParseExpr(t, i + 1, Prec(Peek(t, i)) + 1);
      if right.None? then None
      else Climb(t, Binary(Peek(t, i), left, right.value.e), right.value.pos, m)
  }

  function ParseUnary(t: seq<Token>, i: nat): (r: Option<Parsed>)
    ensures Ahead(r, i, t)
    decreases |t| - i, 5
  {
    var k := Peek(t, i);
    if k == NOT then
      var x := ParseExpr(t, i + 1, 3);
      if x.None? then None else Some(Parsed(Unary(NOT, x.value.e), x.value.pos))
    else if k == MINUS || k == TILDE then
      var x := ParseUnary(t, i + 1);
      if x.None? then None else Some(Parsed(Unary(k, x.value.e), x.value.pos))
    else ParsePower(t, i)
  }

  function ParsePower(t: seq<Token>, i: nat): (r: Option<Parsed>)
    ensures Ahead(r, i, t)
    decreases |t| - i, 4
  {
    var base := ParsePostfix(t, i);
    if base.None? || Peek(t, base.value.pos) != DSTAR then base
    else
      var x := ParseUnary(t, base.value.pos + 1);
      if x.None? then None else Some(Parsed(Binary(DSTAR, base.value.e, x.value.e), x.value.pos))
  }

  function ParsePostfix(t: seq<Token>, i: nat): (r: Option<Parsed>)
    ensures Ahead(r, i, t)
    decreases |t| - i, 3
  {
    var p := ParsePrimary(t, i);
    if p.None? then None else Suffixes(t, p.value.e, p.value.pos)
  }

  /** The loop over calls, subscripts and attributes. */
  function Suffixes(t: seq<Token>, e: Expr, i: nat): (r: Option<Parsed>)
    requires i <= |t|
    ensures r.Some? ==> i <= r.value.pos <= |t|
    decreases |t| - i, 3
  {
    match Peek(t, i)
    case LPAREN =>
      var a := ParseArgs(t, i + 1);
      if a.None? then None
      else if e == Name("super") && a.value.es == [] then Suffixes(t, Super, a.value.pos)
      else Suffixes(t, Call(e, a.value.es), a.value.pos)
    case LBRACK =>
      var x := ParseSubscript(t, e, i + 1);
      if x.None? then None else Suffixes(t, x.value.e, x.value.pos)
    case DOT =>
      if Peek(t, i + 1) != IDENT then None else Suffixes(t, Attr(e, t[i + 1].text), i + 2)
    case _ => Some(Parsed(e, i))
  }

  /** An index or a slice of `o`, and its closing bracket. */
  function ParseSubscript(t: seq<Token>, o: Expr, i: nat): (r: Option<Parsed>)
    ensures Ahead(r, i, t)
    decreases |t| - i, 8
  {
    var low := ParsePart(t, i);
    if low.None? then None
    else if Peek(t, low.value.pos) != COLON then
      if low.value.e.None? || Peek(t, low.value.pos) != RBRACK then None
      else Some(Parsed(Index(o, low.value.e.value), low.value.pos + 1))
    else
      var high := ParsePart(t, low.value.pos + 1);
      if high.None? then None
      else
        var step := ParseStep(t, high.value.pos);
        if step.None? || Peek(t, step.value.pos) != RBRACK then None
        else Some(Parsed(Slice(o, low.value.e, high.value.e, step.value.e), step.value.pos + 1))
  }

  /** One bound of a slice, if there is one. */
  function ParsePart(t: seq<Token>, i: nat): (r: Option<ParsedPart>)
    ensures r.Some? ==> i <= r.value.pos && (r.value.pos == i || r.value.pos <= |t|)
    decreases |t| - i, 7
  {
    if Peek(t, i) == COLON || Peek(t, i) == RBRACK then Some(ParsedPart(None, i))
    else
      var x := ParseExpr(t, i, 0);
      if x.None? then None else Some(ParsedPart(Some(x.value.e), x.value.pos))
  }

  function ParseStep(t: seq<Token>, i: nat): (r: Option<ParsedPart>)
    ensures r.Some? ==> i <= r.value.pos && (r.value.pos == i || r.value.pos <= |t|)
    decreases |t| - i, 7
  {
    if Peek(t, i) == COLON then ParsePart(t, i + 1) else Some(ParsedPart(None, i))
  }

  /** The arguments of a call and its closing parenthesis. */
  function ParseArgs(t: seq<Token>, i: nat): (r: Option<ParsedItems>)
    ensures r.Some? ==> i < r.value.pos <= |t|
    decreases |t| - i, 9
  {
    if Peek(t, i) == RPAREN then Some(ParsedItems([], i + 1))
    else Closed(t, ParseItems(t, i, RPAREN, Args, false), RPAREN)
  }

  /** One item; `kw` once a keyword argument has come. */
  function ParseItem(t: seq<Token>, i: nat, form: Form, kw: bool): (r: Option<ParsedItem>)
    ensures r.Some? ==> i < r.value.pos <= |t|
    decreases |t| - i, 7
  {
    if form == Args && Peek(t, i) == DSTAR then
      var x := ParseExpr(t, i + 1, 0);
      if x.None? then None else Some(ParsedItem(DoubleStar(x.value.e), x.value.pos))
    else if form == Args && Peek(t, i) == IDENT && Peek(t, i + 1) == ASSIGN then
      var x := ParseExpr(t, i + 2, 0);
      if x.None? then None else Some(ParsedItem(Keyword(t[i].text, x.value.e), x.value.pos))
    else if form == Args && kw then None
    else if form == Args && Peek(t, i) == STAR then
      var x := ParseExpr(t, i + 1, 0);
      if x.None? then None else Some(ParsedItem(Star(x.value.e), x.value.pos))
    else
      var x := ParseExpr(t, i, 0);
      if x.None? then None
      else if form != Pairs then Some(ParsedItem(Plain(x.value.e), x.value.pos))
      else if Peek(t, x.value.pos) != COLON then None
      else
        var y := ParseExpr(t, x.value.pos + 1, 0);
        if y.None? then None else Some(ParsedItem(Pair(x.value.e, y.value.e), y.value.pos))
  }

  /** One or more items between commas; one comma may trail. */
  function ParseItems(t: seq<Token>, i: nat, close: Kind, form: Form, kw: bool): (r: Option<ParsedItems>)
    ensures r.Some? ==> i < r.value.pos <= |t| && r.value.es != []
    decreases |t| - i, 8
  {
    var x := ParseItem(t, i, form, kw);
    if x.None? then None
    else if Peek(t, x.value.pos) != COMMA then Some(ParsedItems([x.value.it], x.value.pos))
    else if Peek(t, x.value.pos + 1) == close then Some(ParsedItems([x.value.it], x.value.pos + 1))
    else
      var more := ParseItems(t, x.value.pos + 1, close, form, kw || Later(x.value.it));
      if more.None? then None else Some(ParsedItems([x.value.it] + more.value.es, more.value.pos))
  }

  function Closed(t: seq<Token>, r: Option<ParsedItems>, close: Kind): Option<ParsedItems> {
    if r.None? || Peek(t, r.value.pos) != close then None else Some(r.value.(pos := r.value.pos + 1))
  }

  /** The names of a lambda, up to its colon. */
  function ParseParams(t: seq<Token>, i: nat): (r: Option<ParsedNames>)
    ensures r.Some? ==> i < r.value.pos <= |t|
    decreases |t| - i
  {
    if Peek(t, i) != IDENT then None
    else if Peek(t, i + 1) != COMMA then Some(ParsedNames([t[i].text], i + 1))
    else
      var more := ParseParams(t, i + 2);
      if more.None? then None else Some(ParsedNames([t[i].text] + more.value.names, more.value.pos))
  }

  function ParseLambda(t: seq<Token>, i: nat): (r: Option<Parsed>)
    ensures Ahead(r, i, t)
    decreases |t| - i, 7
  {
    var ps := if Peek(t, i) == COLON then Some(ParsedNames([], i)) else ParseParams(t, i);
    if ps.None? || Peek(t, ps.value.pos) != COLON then None
    else
      var x := ParseExpr(t, ps.value.pos + 1, 0);
      if x.None? then None else Some(Parsed(Lambda(ps.value.names, x.value.e), x.value.pos))
  }

  function ParsePrimary(t: seq<Token>, i: nat): (r: Option<Parsed>)
    ensures Ahead(r, i, t)
    decreases |t| - i, 2
  {
    match Peek(t, i)
    case LITERAL => Some(Parsed(Lit(t[i].text), i + 1))
    case IDENT => Some(Parsed(Name(t[i].text), i + 1))
    case RANGE => Some(Parsed(Name(t[i].text), i + 1))
    case LAMBDA => ParseLambda(t, i + 1)
    case LPAREN => ParseParens(t, i + 1)
    case LBRACK => ParseList(t, i + 1)
    case LBRACE => ParseBraces(t, i + 1)
    case _ => None
  }

  /** A grouping or a tuple. */
  function ParseParens(t: seq<Token>, i: nat): (r: Option<Parsed>)
    ensures Ahead(r, i, t)
    decreases |t| - i, 9
  {
    if Peek(t, i) == RPAREN then Some(Parsed(Tuple([]), i + 1))
    else
      var first := ParseExpr(t, i, 0);
      if first.None? then None
      else if Peek(t, first.value.pos) != COMMA then
        if Peek(t, first.value.pos) != RPAREN then None else Some(Parsed(first.value.e, first.value.pos + 1))
      else
        var all := Closed(t, ParseItems(t, i, RPAREN, Elements, false), RPAREN);
        if all.None? then None else Some(Parsed(Tuple(all.value.es), all.value.pos))
  }

  function ParseList(t: seq<Token>, i: nat): (r: Option<Parsed>)
    ensures Ahead(r, i, t)
    decreases |t| - i, 9
  {
    if Peek(t, i) == RBRACK then Some(Parsed(List([]), i + 1))
    else
      var all := Closed(t, ParseItems(t, i, RBRACK, Elements, false), RBRACK);
      if all.None? then None else Some(Parsed(List(all.value.es), all.value.pos))
  }

  /** A map if a colon follows the first expression or there is none, otherwise a set. */
  function ParseBraces(t: seq<Token>, i: nat): (r: Option<Parsed>)
    ensures Ahead(r, i, t)
    decreases |t| - i, 9
  {
    if Peek(t, i) == RBRACE then Some(Parsed(MapLit([]), i + 1))
    else
      var first := ParseExpr(t, i, 0);
      if first.None? then None
      else
        var isMap := Peek(t, first.value.pos) == COLON;
        var all := Closed(t, ParseItems(t, i, RBRACE, if isMap then Pairs else Elements, false), RBRACE);
        if all.None? then None
        else Some(Parsed(if isMap then MapLit(all.value.es) else SetLit(all.value.es), all.value.pos))
  }
}
