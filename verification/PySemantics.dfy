/**
 What the statements mean in the language: a structured evaluator with the five
 ways a statement can end. Nothing here knows about labels or handler stacks.
 Evaluation carries fuel so that programs that never end are covered too.
 */
module PySemantics {
  import opened Common
  import opened StmtSyntax

  datatype Outcome =
    | Normal
    | Broke
    | Continued
    | Returned(v: int)
    | Raised(obj: int)
    | OutOfFuel

  /** `inflight` is the runtime's one exception slot; `calls` counts the values
      yielded so far. */
  datatype State = State(env: Env, mem: Mem, inflight: int, calls: nat)

  /** `trace` lists the values yielded. `faithful` turns false when what is thrown is
      lost on the way out: a finally body overwrites the in-flight slot, or an except
      clause takes the StopIteration of a return. `site` is the last yield site passed,
      counted from 1 through the text of what is run, or -1 when a return in a generator
      came after it; 0 for neither. */
  datatype Run = Run(out: Outcome, st: State, trace: seq<int>, faithful: bool, site: int)

  function Flight(caught: bool, inflight: int): int {
    if caught then 0 else inflight
  }

  function Stop(out: Outcome, st: State): Run { Run(out, st, [], true, 0) }

  /** Runs `r` first and `r2` after it. */
  function After(r: Run, r2: Run): Run {
    Run(r2.out, r2.st, r.trace + r2.trace, r.faithful && r2.faithful, if r2.site != 0 then r2.site else r.site)
  }

  /** `r`, in a text with `k` sites before it. */
  function From(k: nat, r: Run): Run {
    r.(site := if r.site > 0 then k + r.site else r.site)
  }

  /** What leaves by a throw: an exception, or a return in a generator. */
  predicate Throws(gen: bool, out: Outcome) { out.Raised? || (gen && out.Returned?) }

  function Thrown(out: Outcome): int
    requires out.Raised? || out.Returned?
  {
    if out.Raised? then out.obj else out.v
  }

  /** Made by some return. */
  ghost predicate IsStop(w: World, obj: int) { exists mem :: w.newStop(mem).0 == obj }

  /** `return` without a value. In a generator it makes a StopIteration and throws it. */
  function Leave(w: World, st: State): Run {
    if !w.gen then Stop(Returned(0), st)
    else
      var stop := w.newStop(st.mem);
      Run(Returned(stop.0), st.(mem := stop.1, inflight := stop.0), [], true, -1)
  }

  /** The state after an evaluation that produced `ev`. */
  function Land(st: State, ev: Eval): State {
    match ev
    case Val(_, m, c) => st.(mem := m, inflight := Flight(c, st.inflight))
    case Exc(x, m) => st.(mem := m, inflight := x)
  }

  /** Hands `v` to the caller and continues after the caller's next request. */
  function Emit(w: World, st: State): State {
    var r := w.between(st.calls, st.mem, st.inflight);
    st.(mem := r.0, inflight := r.1, calls := st.calls + 1)
  }

  function ExecBlock(w: World, b: Block, st: State, fuel: nat): Run
    decreases fuel, b, 0
  {
    match b
    case Nil => Stop(Normal, st)
    case Cons(s, rest) =>
      var r := Exec(w, s, st, fuel);
      if r.out.Normal? then After(r, From(SitesIn(s).y, ExecBlock(w, rest, r.st, fuel))) else r
  }

  function Exec(w: World, s: Stmt, st: State, fuel: nat): Run
    decreases fuel, s, 1
  {
    match s
    case Eval(e) =>
      var ev := e(st.env, st.mem);
      Stop(if ev.Exc? then Raised(ev.obj) else Normal, Land(st, ev))
    case Assign(x, e) =>
      var ev := e(st.env, st.mem);
      if ev.Exc? then Stop(Raised(ev.obj), Land(st, ev))
      else Stop(Normal, Land(st, ev).(env := st.env[x := ev.v]))
    case If(c, thn, els) =>
      var ev := c(st.env, st.mem);
      if ev.Exc? then Stop(Raised(ev.obj), Land(st, ev))
      else if ev.v != 0 then ExecBlock(w, thn, Land(st, ev), fuel)
      else From(SitesOf(thn).y, ExecElifs(w, els, Land(st, ev), fuel))
    case While(c, body) =>
      if fuel == 0 then Stop(OutOfFuel, st) else
      var ev := c(st.env, st.mem);
      if ev.Exc? then Stop(Raised(ev.obj), Land(st, ev))
      else if ev.v == 0 then Stop(Normal, Land(st, ev))
      else
        var r := ExecBlock(w, body, Land(st, ev), fuel);
        if r.out.Normal? || r.out.Continued? then After(r, Exec(w, s, r.st, fuel - 1))
        else if r.out.Broke? then r.(out := Normal)
        else r
    case ForIter(x, e, body) =>
      var ev := EvalIter(w, e, st.env, st.mem);
      if ev.Exc? then Stop(Raised(ev.obj), Land(st, ev))
      else ExecFor(w, x, body, ev.v, Land(st, ev), fuel)
    case Break => Stop(Broke, st)
    case Continue => Stop(Continued, st)
    case Return(None) => Leave(w, st)
    case Return(Some(e)) =>
      var ev := e(st.env, st.mem);
      Stop(if ev.Exc? then Raised(ev.obj) else Returned(ev.v), Land(st, ev))
    case Raise(e) =>
      var ev := e(st.env, st.mem);
      if ev.Exc? then Stop(Raised(ev.obj), Land(st, ev))
      else Stop(Raised(ev.v), Land(st, ev).(inflight := ev.v))
    case Yield(e) =>
      var ev := e(st.env, st.mem);
      if ev.Exc? then Stop(Raised(ev.obj), Land(st, ev))
      else Run(Normal, Emit(w, Land(st, ev)), [ev.v], true, 1)
    case YieldFrom(e) =>
      var ev := EvalIter(w, e, st.env, st.mem);
      if ev.Exc? then Stop(Raised(ev.obj), Land(st, ev))
      else ExecYieldFrom(w, ev.v, Land(st, ev), fuel)
    case Try(body, handlers, fin) =>
      var r := ExecCatch(w, s, st, fuel);
      if fin.None? then r
      else ExecFinally(w, r, SitesOf(body).y + SitesOfHandlers(handlers).y, fin.value, fuel)
  }

  function ExecElifs(w: World, els: Elifs, st: State, fuel: nat): Run
    decreases fuel, els, 0
  {
    match els
    case NoElse => Stop(Normal, st)
    case Else(b) => ExecBlock(w, b, st, fuel)
    case Elif(c, b, rest) =>
      var ev := c(st.env, st.mem);
      if ev.Exc? then Stop(Raised(ev.obj), Land(st, ev))
      else if ev.v != 0 then ExecBlock(w, b, Land(st, ev), fuel)
      else From(SitesOf(b).y, ExecElifs(w, rest, Land(st, ev), fuel))
  }

  /** `for x in it: body`, the iterator already in hand. */
  function ExecFor(w: World, x: string, body: Block, it: int, st: State, fuel: nat): Run
    decreases fuel, body, 1
  {
    if fuel == 0 then Stop(OutOfFuel, st) else
    var ev := w.next(it, st.mem);
    if ev.Exc? then IterEnd(w, ev, st)
    else
      var r := ExecBlock(w, body, Land(st, ev).(env := st.env[x := ev.v]), fuel);
      if r.out.Normal? || r.out.Continued? then
        After(r, ExecFor(w, x, body, it, r.st, fuel - 1))
      else if r.out.Broke? then r.(out := Normal)
      else r
  }

  /** `yield from it`, the iterator already in hand. */
  function ExecYieldFrom(w: World, it: int, st: State, fuel: nat): Run
    decreases fuel
  {
    if fuel == 0 then Stop(OutOfFuel, st) else
    var ev := w.next(it, st.mem);
    if ev.Exc? then IterEnd(w, ev, st)
    else
      After(Run(Normal, Emit(w, Land(st, ev)), [ev.v], true, 1),
            ExecYieldFrom(w, it, Emit(w, Land(st, ev)), fuel - 1))
  }

  /** An iterator raised: StopIteration ends the loop, anything else goes on up. */
  function IterEnd(w: World, ev: Eval, st: State): Run
    requires ev.Exc?
  {
    if w.isA(ev.obj, w.stopClass) then Stop(Normal, Land(st, ev).(inflight := 0))
    else Stop(Raised(ev.obj), Land(st, ev))
  }

  /** The body of a `try` and its handlers. */
  function ExecCatch(w: World, s: Stmt, st: State, fuel: nat): Run
    requires s.Try?
    decreases fuel, s, 0
  {
    var r := ExecBlock(w, s.body, st, fuel);
    if r.out.Raised? then After(r, From(SitesOf(s.body).y, ExecHandlers(w, s.handlers, r.out.obj, r.st, fuel)))
    else r.(faithful := r.faithful && !Taken(w, s.handlers, r.out))
  }

  /** The first handler that matches `obj` runs; the name it binds is local to it. */
  function ExecHandlers(w: World, hs: Handlers, obj: int, st: State, fuel: nat): Run
    decreases fuel, hs
  {
    match hs
    case NoHandler => Stop(Raised(obj), st)
    case Handler(p, body, rest) =>
      if !Matches(w, p, obj) then From(SitesOf(body).y, ExecHandlers(w, rest, obj, st, fuel))
      else
        var r := ExecBlock(w, body, st.(env := Bind(p, st.env, obj), inflight := 0), fuel);
        r.(st := r.st.(env := Unbind(p, st.env, r.st.env)))
  }

  /** A clause takes the StopIteration of a return, which in the language leaves the try
      for good. */
  predicate Taken(w: World, hs: Handlers, out: Outcome) {
    w.gen && out.Returned? && AnyMatch(w, hs, out.v)
  }

  /** Some clause takes `obj`. */
  predicate AnyMatch(w: World, hs: Handlers, obj: int) {
    hs.Handler? && (Matches(w, hs.pat, obj) || AnyMatch(w, hs.rest, obj))
  }

  function Bind(p: Pattern, env: Env, obj: int): Env {
    if p.TypedAs? then env[p.name := obj] else env
  }

  function Unbind(p: Pattern, before: Env, after: Env): Env {
    if !p.TypedAs? then after
    else if p.name in before then after[p.name := before[p.name]]
    else after - {p.name}
  }

  /** `finally: fin` after `r`, with `k` sites before it: what `r` did is resumed unless
      `fin` itself leaves. */
  function ExecFinally(w: World, r: Run, k: nat, fin: Block, fuel: nat): Run
    decreases fuel, fin, 2
  {
    if r.out.OutOfFuel? then r else
    var f := From(k, ExecBlock(w, fin, r.st, fuel));
    if !f.out.Normal? then After(r, f)
    else
      After(r, Run(r.out, f.st, f.trace,
                   f.faithful && (Throws(w.gen, r.out) ==> f.st.inflight == Thrown(r.out)), f.site))
  }
}
