/**
 The statements that the code generator lowers with labels and branches, and
 the outside world they run in.

 Expressions are taken as arbitrary functions: the theorems hold whatever an
 expression computes, writes to the heap or raises.
 */
module StmtSyntax {
  import opened Common

  /** Values of the visible variables, by name. */
  type Env = map<string, int>

  /** The heap: everything that lives outside the function's own variables. */
  type Mem = map<int, int>

  /** What evaluating an expression does. `caught` records that the evaluation
      caught an exception of its own somewhere, which leaves the runtime's only
      in-flight slot empty. */
  datatype Eval =
    | Val(v: int, mem: Mem, caught: bool)
    | Exc(obj: int, mem: Mem)

  type Expr = (Env, Mem) -> Eval

  /** What surrounds the function being compiled: whether it is a generator, and the
      calls out of it: the two iterator methods of an
      object, the class test on an exception object, the construction of a
      StopIteration, and what the caller of a generator does to the heap and
      to the in-flight slot between the `k`-th `__next__` and the following one. */
  datatype World = World(
    gen: bool,
    next: (int, Mem) -> Eval,
    iter: (int, Mem) -> Eval,
    isA: (int, int) -> bool,
    stopClass: int,
    newStop: Mem -> (int, Mem),
    between: (nat, Mem, int) -> (Mem, int))

  datatype Block = Nil | Cons(head: Stmt, tail: Block)

  datatype Stmt =
    | Eval(e: Expr)
    | Assign(x: string, e: Expr)
    | If(c: Expr, thn: Block, els: Elifs)
    | While(c: Expr, body: Block)
    | ForIter(x: string, e: Expr, body: Block)
    | Break
    | Continue
    | Return(value: Option<Expr>)
    | Raise(e: Expr)
    | Yield(e: Expr)
    | YieldFrom(e: Expr)
    | Try(body: Block, handlers: Handlers, fin: Option<Block>)

  /** The `elif` clauses of an `if`, ending in an optional `else`. */
  datatype Elifs = NoElse | Else(b: Block) | Elif(c: Expr, b: Block, rest: Elifs)

  datatype Pattern = Bare | Typed(cls: int) | TypedAs(cls: int, name: string)

  datatype Handlers = NoHandler | Handler(pat: Pattern, body: Block, rest: Handlers)

  function Append(a: Block, b: Block): Block {
    if a.Nil? then b else Cons(a.head, Append(a.tail, b))
  }

  // ---- sites ----

  /** Yield sites (`yield` and `yield from`), `yield from` sites, iterator loops. */
  datatype Sites = Sites(y: nat, yf: nat, fi: nat) {
    function Plus(o: Sites): Sites { Sites(y + o.y, yf + o.yf, fi + o.fi) }
  }

  const NONE := Sites(0, 0, 0)

  function SitesOf(b: Block): Sites {
    match b
    case Nil => NONE
    case Cons(s, rest) => SitesIn(s).Plus(SitesOf(rest))
  }

  function SitesIn(s: Stmt): Sites {
    match s
    case Yield(_) => Sites(1, 0, 0)
    case YieldFrom(_) => Sites(1, 1, 0)
    case If(_, thn, els) => SitesOf(thn).Plus(SitesOfElifs(els))
    case While(_, body) => SitesOf(body)
    case ForIter(_, _, body) => Sites(0, 0, 1).Plus(SitesOf(body))
    case Try(body, hs, fin) =>
      SitesOf(body).Plus(SitesOfHandlers(hs)).Plus(if fin.Some? then SitesOf(fin.value) else NONE)
    case _ => NONE
  }

  function SitesOfElifs(els: Elifs): Sites {
    match els
    case NoElse => NONE
    case Else(b) => SitesOf(b)
    case Elif(_, b, rest) => SitesOf(b).Plus(SitesOfElifs(rest))
  }

  function SitesOfHandlers(hs: Handlers): Sites {
    match hs
    case NoHandler => NONE
    case Handler(_, b, rest) => SitesOf(b).Plus(SitesOfHandlers(rest))
  }

  predicate Matches(w: World, p: Pattern, obj: int) {
    p.Bare? || w.isA(obj, p.cls)
  }

  /** Evaluates `e` and then asks the result for its iterator. */
  function EvalIter(w: World, e: Expr, env: Env, mem: Mem): Eval {
    match e(env, mem)
    case Exc(x, m) => Exc(x, m)
    case Val(v, m, c) =>
      match w.iter(v, m)
      case Exc(x, m2) => Exc(x, m2)
      case Val(v2, m2, c2) => Val(v2, m2, c || c2)
  }
}
