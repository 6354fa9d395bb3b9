/**
 Expressions, their tokens, and how an expression is written with parentheses only
 where its binding strength asks for them.
 */
module ExprSyntax {
  import opened Common

  datatype Kind =
    | LITERAL | IDENT | RANGE | LAMBDA
    | OR | AND | NOT | IN
    | EQ | NEQ | LT | GT | LTE | GTE
    | PIPE | CARET | AMP | LSHIFT | RSHIFT | PLUS | MINUS | STAR | SLASH | DSLASH | PERCENT
    | DSTAR | TILDE
    | LPAREN | RPAREN | LBRACK | RBRACK | LBRACE | RBRACE | COMMA | COLON | ASSIGN | DOT
    | OTHER | EOF

  /** `text` is the name of an identifier or the value of a literal. */
  datatype Token = Token(kind: Kind, text: string)

  datatype Expr =
    | Lit(text: string)
    | Name(name: string)
    | Super
    | Unary(op: Kind, e: Expr)
    | Binary(op: Kind, l: Expr, r: Expr)
    | Member(neg: bool, l: Expr, r: Expr)
    | Call(f: Expr, args: seq<Item>)
    | Index(o: Expr, at: Expr)
    | Slice(o: Expr, low: Option<Expr>, high: Option<Expr>, step: Option<Expr>)
    | Attr(o: Expr, name: string)
    | Tuple(es: seq<Item>)
    | List(es: seq<Item>)
    | SetLit(es: seq<Item>)
    | MapLit(es: seq<Item>)
    | Lambda(params: seq<string>, body: Expr)

  /** What stands between two commas: an element, an argument, or a key and its value. */
  datatype Item =
    | Plain(e: Expr)
    | Star(e: Expr)
    | Keyword(name: string, e: Expr)
    | DoubleStar(e: Expr)
    | Pair(key: Expr, e: Expr)

  datatype Form = Elements | Args | Pairs

  /** Precedence of the operators that the climbing loop handles; 0 for the rest. */
  function Prec(k: Kind): nat {
    match k
    case OR => 1
    case AND => 2
    case EQ => 3 case NEQ => 3 case LT => 3 case GT => 3 case LTE => 3 case GTE => 3
    case PIPE => 4
    case CARET => 5
    case AMP => 6
    case LSHIFT => 7 case RSHIFT => 7
    case PLUS => 8 case MINUS => 8
    case STAR => 9 case SLASH => 9 case DSLASH => 9 case PERCENT => 9
    case _ => 0
  }

  // ---- which trees have a text ----

  /** The lexer gives this name a token kind of its own. */
  const RANGE_NAME := "range"

  predicate Later(it: Item) { it.Keyword? || it.DoubleStar? }

  predicate AllKeywords(es: seq<Item>) { forall j :: 0 <= j < |es| ==> es[j].Keyword? || es[j].DoubleStar? }

  /** Behind a keyword argument or `**expr` there is no positional. */
  predicate KeywordsLast(es: seq<Item>) {
    forall k :: 0 <= k < |es| && (es[k].Keyword? || es[k].DoubleStar?) ==> AllKeywords(es[k..])
  }

  /** Which items a list of this form takes; `kw` once a keyword argument has come. */
  predicate Fits(it: Item, form: Form, kw: bool) {
    match form
    case Elements => it.Plain?
    case Pairs => it.Pair?
    case Args => Later(it) || (!kw && (it.Plain? || it.Star?))
  }

  /** Known operators, a set with elements, no call spelled `super()`, and `range` only
      where an operand stands. */
  predicate Sound(e: Expr) {
    match e
    case Unary(op, x) => (op == NOT || op == MINUS || op == TILDE) && Sound(x)
    case Binary(op, l, r) => (Prec(op) > 0 || op == DSTAR) && Sound(l) && Sound(r)
    case Member(_, l, r) => Sound(l) && Sound(r)
    case Call(f, args) => (f == Name("super") ==> args != []) && Sound(f) && AllSound(args, Args, false)
    case Index(o, at) => Sound(o) && Sound(at)
    case Slice(o, low, high, step) => Sound(o) && SoundPart(low) && SoundPart(high) && SoundPart(step)
    case Attr(o, name) => name != RANGE_NAME && Sound(o)
    case Tuple(es) => AllSound(es, Elements, false)
    case List(es) => AllSound(es, Elements, false)
    case SetLit(es) => es != [] && AllSound(es, Elements, false)
    case MapLit(es) => AllSound(es, Pairs, false)
    case Lambda(params, body) => RANGE_NAME !in params && Sound(body)
    case _ => true
  }

  predicate SoundPart(p: Option<Expr>) { p.Some? ==> Sound(p.value) }

  predicate SoundItem(it: Item, form: Form, kw: bool) {
    && Fits(it, form, kw) && Sound(it.e)
    && (it.Pair? ==> Sound(it.key)) && (it.Keyword? ==> it.name != RANGE_NAME)
  }

  predicate AllSound(es: seq<Item>, form: Form, kw: bool) {
    es != [] ==> SoundItem(es[0], form, kw) && AllSound(es[1..], form, kw || Later(es[0]))
  }

  // ---- binding strength: twice the precedence, so that `not` fits between ----

  const UNARY := 20
  const POWER := 22
  const POSTFIX := 24

  function Level(e: Expr): nat {
    match e
    case Binary(op, _, _) => if op == DSTAR then POWER else 2 * Prec(op)
    case Member(_, _, _) => 6
    case Unary(op, _) => if op == NOT then 5 else UNARY
    case Lambda(_, _) => 0
    case _ => POSTFIX
  }

  function Tok(k: Kind): Token { Token(k, "") }

  /** The text of `e` where at least strength `c` is needed. */
  function Print(e: Expr, c: nat): seq<Token>
    decreases e, 1
  {
    if Level(e) < c then [Tok(LPAREN)] + Body(e) + [Tok(RPAREN)] else Body(e)
  }

  function Body(e: Expr): seq<Token>
    decreases e, 0
  {
    match e
    case Lit(x) => [Token(LITERAL, x)]
    case Name(x) => [NameTok(x)]
    case Super => [Token(IDENT, "super"), Tok(LPAREN), Tok(RPAREN)]
    case Unary(op, x) => [Tok(op)] + Print(x, if op == NOT then 5 else UNARY)
    case Binary(op, l, r) =>
      if op == DSTAR then Print(l, POSTFIX) + [Tok(DSTAR)] + Print(r, UNARY)
      else Print(l, 2 * Prec(op)) + [Tok(op)] + Print(r, 2 * Prec(op) + 1)
    case Member(neg, l, r) => Print(l, 6) + MemberOp(neg) + Print(r, 7)
    case Call(f, args) => Print(f, POSTFIX) + [Tok(LPAREN)] + (Items(args) + [Tok(RPAREN)])
    case Index(o, at) => Print(o, POSTFIX) + [Tok(LBRACK)] + (Print(at, 0) + [Tok(RBRACK)])
    case Slice(o, low, high, step) =>
      Print(o, POSTFIX) + [Tok(LBRACK)] + (Part(low) + [Tok(COLON)] + (Part(high) + StepText(step) + [Tok(RBRACK)]))
    case Attr(o, name) => Print(o, POSTFIX) + [Tok(DOT), Token(IDENT, name)]
    case Tuple(es) => [Tok(LPAREN)] + Items(es) + ((if |es| == 1 then [Tok(COMMA)] else []) + [Tok(RPAREN)])
    case List(es) => [Tok(LBRACK)] + Items(es) + [Tok(RBRACK)]
    case SetLit(es) => [Tok(LBRACE)] + Items(es) + [Tok(RBRACE)]
    case MapLit(es) => [Tok(LBRACE)] + Items(es) + [Tok(RBRACE)]
    case Lambda(params, body) => [Tok(LAMBDA)] + Params(params) + ([Tok(COLON)] + Print(body, 0))
  }

  function NameTok(x: string): Token { Token(if x == RANGE_NAME then RANGE else IDENT, x) }

  function MemberOp(neg: bool): seq<Token> { if neg then [Tok(NOT), Tok(IN)] else [Tok(IN)] }

  function Params(ps: seq<string>): seq<Token> {
    if ps == [] then [] else [Token(IDENT, ps[0])] + (if |ps| == 1 then [] else [Tok(COMMA)] + Params(ps[1..]))
  }

  function Part(p: Option<Expr>): seq<Token>
    decreases p
  {
    if p.Some? then Print(p.value, 0) else []
  }

  /** The second colon is written only before a step. */
  function StepText(p: Option<Expr>): seq<Token>
    decreases p
  {
    if p.Some? then [Tok(COLON)] + Print(p.value, 0) else []
  }

  function ItemText(it: Item): seq<Token>
    decreases it
  {
    match it
    case Plain(e) => Print(e, 0)
    case Star(e) => [Tok(STAR)] + Print(e, 0)
    case Keyword(name, e) => [Token(IDENT, name), Tok(ASSIGN)] + Print(e, 0)
    case DoubleStar(e) => [Tok(DSTAR)] + Print(e, 0)
    case Pair(k, e) => Print(k, 0) + [Tok(COLON)] + Print(e, 0)
  }

  function Items(es: seq<Item>): seq<Token>
    decreases es
  {
    if es == [] then []
    else ItemText(es[0]) + (if |es| == 1 then [] else [Tok(COMMA)] + Items(es[1..]))
  }
}
