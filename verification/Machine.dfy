/**
 The flat code the generator emits, and how it runs: labels, branches, slots and
 the runtime's handler stack with its single in-flight exception.
 */
module Machine {
  import opened Common
  import opened StmtSyntax
  import opened PySemantics

  /** `vars` on an instruction says which slot each visible name lives in. */
  type Vars = map<string, int>

  datatype Instr =
    | Lbl(l: int)
    | Br(l: int)
    | CondBr(vars: Vars, c: Expr, yes: int, no: int)
    | Set(slot: int, vars: Vars, e: Expr)
    | Do(vars: Vars, e: Expr)
    | SetConst(slot: int, k: int)
    | Move(slot: int, src: int)
    | GetIter(slot: int, vars: Vars, e: Expr)
    | Next(slot: int, iter: int)
    | Push(land: int, go: int)
    | Pop
    | Throw(vars: Vars, e: Expr)
    | Rethrow
    | IfExc(pat: Pattern, yes: int, no: int)
    | IfStop(yes: int, no: int)
    | BindExc(slot: int)
    | Clear
    | Switch(slot: int, cases: map<int, int>, other: int)
    | Ret(slot: int)
    | RetExpr(vars: Vars, e: Expr)
    | RetVoid
    | ThrowStop
    | Unreachable

  /** Slots below `fields` live in the generator object; the others live in the
      stack frame and are gone once the function returns. */
  datatype Program = Program(w: World, code: seq<Instr>, fields: int)

  /** `hs` holds the landing labels of the handlers pushed by this function,
      innermost first. */
  datatype Mach = Mach(pc: nat, store: map<int, int>, mem: Mem, inflight: int, calls: nat, hs: seq<int>)

  datatype Result = RetVal(v: int) | Escaped(obj: int) | Wedged

  datatype Config = Running(m: Mach) | Done(res: Result, m: Mach)

  function Get(store: map<int, int>, slot: int): int {
    if slot in store then store[slot] else 0
  }

  function EnvOf(vars: Vars, store: map<int, int>): Env {
    map x | x in vars :: Get(store, vars[x])
  }

  /** The position of label `l`, or the end of the code when it has none. */
  ghost function Find(code: seq<Instr>, l: int): nat {
    if code == [] then 0
    else if code[0] == Lbl(l) then 0
    else 1 + Find(code[1..], l)
  }

  ghost function Goto(p: Program, m: Mach, l: int): Mach {
    m.(pc := Find(p.code, l))
  }

  /** A longjmp to the top handler, or out of the function when it has none left. */
  ghost function Unwind(p: Program, m: Mach): Config {
    if m.hs == [] then Done(Escaped(m.inflight), m) else Running(Goto(p, m, m.hs[0]))
  }

  /** What an evaluation leaves behind; an exception unwinds. */
  ghost function Finish(p: Program, m: Mach, ev: Eval): Config {
    match ev
    case Val(_, mem, c) => Running(m.(pc := m.pc + 1, mem := mem, inflight := Flight(c, m.inflight)))
    case Exc(x, mem) => Unwind(p, m.(mem := mem, inflight := x))
  }

  ghost function FinishInto(p: Program, m: Mach, ev: Eval, slot: int): Config {
    if ev.Exc? then Finish(p, m, ev)
    else
      var c := Finish(p, m, ev);
      Running(c.m.(store := m.store[slot := ev.v]))
  }

  /** One instruction of one call. */
  ghost function Step(p: Program, m: Mach): Config {
    if m.pc >= |p.code| then Done(Wedged, m) else
    var next := m.(pc := m.pc + 1);
    match p.code[m.pc]
    case Lbl(_) => Running(next)
    case Br(l) => Running(Goto(p, m, l))
    case CondBr(vars, c, yes, no) =>
      var ev := c(EnvOf(vars, m.store), m.mem);
      if ev.Exc? then Finish(p, m, ev)
      else Running(Goto(p, Finish(p, m, ev).m, if ev.v != 0 then yes else no))
    case Set(slot, vars, e) => FinishInto(p, m, e(EnvOf(vars, m.store), m.mem), slot)
    case Do(vars, e) => Finish(p, m, e(EnvOf(vars, m.store), m.mem))
    case SetConst(slot, k) => Running(next.(store := m.store[slot := k]))
    case Move(slot, src) => Running(next.(store := m.store[slot := Get(m.store, src)]))
    case GetIter(slot, vars, e) =>
      var ev := e(EnvOf(vars, m.store), m.mem);
      if ev.Exc? then Finish(p, m, ev)
      else FinishInto(p, Finish(p, m, ev).m.(pc := m.pc), p.w.iter(ev.v, ev.mem), slot)
    case Next(slot, it) => FinishInto(p, m, p.w.next(Get(m.store, it), m.mem), slot)
    case Push(land, go) => Running(Goto(p, m.(hs := [land] + m.hs), go))
    case Pop => Running(next.(hs := if m.hs == [] then [] else m.hs[1..]))
    case Throw(vars, e) =>
      var ev := e(EnvOf(vars, m.store), m.mem);
      if ev.Exc? then Finish(p, m, ev)
      else Unwind(p, m.(mem := ev.mem, inflight := ev.v))
    case Rethrow => Unwind(p, m)
    case IfExc(pat, yes, no) =>
      Running(Goto(p, m, if pat == Bare || p.w.isA(m.inflight, pat.cls) then yes else no))
    case IfStop(yes, no) => Running(Goto(p, m, if p.w.isA(m.inflight, p.w.stopClass) then yes else no))
    case BindExc(slot) => Running(next.(store := m.store[slot := m.inflight]))
    case Clear => Running(next.(inflight := 0))
    case Switch(slot, cases, other) =>
      var k := Get(m.store, slot);
      Running(Goto(p, m, if k in cases then cases[k] else other))
    case Ret(slot) => Done(RetVal(Get(m.store, slot)), m)
    case RetExpr(vars, e) =>
      var ev := e(EnvOf(vars, m.store), m.mem);
      if ev.Exc? then Finish(p, m, ev)
      else Done(RetVal(ev.v), Finish(p, m, ev).m)
    case RetVoid => Done(RetVal(0), m)
    case ThrowStop =>
      var r := p.w.newStop(m.mem);
      Unwind(p, m.(mem := r.1, inflight := r.0))
    case Unreachable => Done(Wedged, m)
  }

  /** The slots that survive a return. */
  function Persist(p: Program, store: map<int, int>): map<int, int> {
    map s | s in store && s < p.fields :: store[s]
  }

  /** The machine at the start of the next call of a generator that has just
      returned in `m`: only the object and the outside world carry over. */
  function Resume(p: Program, m: Mach): Mach {
    var r := p.w.between(m.calls, m.mem, m.inflight);
    Mach(0, Persist(p, m.store), r.0, r.1, m.calls + 1, [])
  }

  /** True when `m` is about to hand a value to the caller of `__next__`. */
  ghost predicate Yields(p: Program, m: Mach) {
    p.w.gen && Step(p, m).Done? && Step(p, m).res.RetVal? && Step(p, m).m.hs == []
  }

  /** Runs `n` instructions. A generator that returns is called again at once, and
      what it returned goes to the trace. */
  ghost function RunFor(p: Program, m: Mach, n: nat): (Config, seq<int>)
    decreases n
  {
    if n == 0 then (Running(m), [])
    else if Yields(p, m) then
      var r := RunFor(p, Resume(p, Step(p, m).m), n - 1);
      (r.0, [Step(p, m).res.v] + r.1)
    else
      match Step(p, m)
      case Done(res, m2) => (Done(res, m2), [])
      case Running(m2) => RunFor(p, m2, n - 1)
  }

  ghost predicate Steps(p: Program, m: Mach, n: nat, trace: seq<int>, c: Config) {
    RunFor(p, m, n) == (c, trace)
  }

  lemma {:induction false} StepsTrans(p: Program, m: Mach, a: nat, t: seq<int>, m2: Mach, b: nat, t2: seq<int>,
                                      c: Config)
    requires Steps(p, m, a, t, Running(m2))
    requires Steps(p, m2, b, t2, c)
    ensures Steps(p, m, a + b, t + t2, c)
    decreases a
  {
    hide Step, Resume;
    if a == 0 {
      assert t + t2 == t2;
    } else if Yields(p, m) {
      StepsTrans(p, Resume(p, Step(p, m).m), a - 1, t[1..], m2, b, t2, c);
      assert t + t2 == [t[0]] + (t[1..] + t2);
    } else {
      StepsTrans(p, Step(p, m).m, a - 1, t, m2, b, t2, c);
    }
  }

  lemma StepsOne(p: Program, m: Mach)
    requires !Yields(p, m)
    ensures Steps(p, m, 1, [], Step(p, m))
  {
    if Step(p, m).Running? {
      assert RunFor(p, Step(p, m).m, 0) == (Running(Step(p, m).m), []);
    }
  }

  /** Running is deterministic: a longer run goes on from where a shorter one stood. */
  lemma {:induction false} StepsSplit(p: Program, m: Mach, a: nat, t: seq<int>, m1: Mach, b: nat, t2: seq<int>,
                                      c: Config)
    requires Steps(p, m, a, t, Running(m1)) && Steps(p, m, a + b, t2, c)
    ensures t <= t2 && Steps(p, m1, b, t2[|t|..], c)
    decreases a
  {
    hide Step, Resume;
    if a == 0 {
      assert t2[0..] == t2;
    } else if Yields(p, m) {
      StepsSplit(p, Resume(p, Step(p, m).m), a - 1, t[1..], m1, b, t2[1..], c);
      assert t2[1..][|t[1..]|..] == t2[|t|..];
      assert t == [t[0]] + t[1..] && t2 == [t2[0]] + t2[1..];
    } else {
      StepsSplit(p, Step(p, m).m, a - 1, t, m1, b, t2, c);
    }
  }

  /** A machine that has stopped stays stopped. */
  lemma {:induction false} StepsDone(p: Program, m: Mach, a: nat, t: seq<int>, c: Config, b: nat)
    requires Steps(p, m, a, t, c) && c.Done? && a <= b
    ensures Steps(p, m, b, t, c)
    decreases a
  {
    hide Step, Resume;
    if Yields(p, m) {
      StepsDone(p, Resume(p, Step(p, m).m), a - 1, t[1..], c, b - 1);
    } else if Step(p, m).Running? {
      StepsDone(p, Step(p, m).m, a - 1, t, c, b - 1);
    }
  }

  // ---- one call ----

  /** One call, for `n` instructions. */
  ghost function CallFor(p: Program, m: Mach, n: nat): Config
    decreases n
  {
    if n == 0 then Running(m)
    else
      match Step(p, m)
      case Done(res, m2) => Done(res, m2)
      case Running(m2) => CallFor(p, m2, n - 1)
  }

  /** The call running in `m` ends with `res`, leaving the machine in `m2`. */
  ghost predicate Answers(p: Program, m: Mach, res: Result, m2: Mach) {
    exists n: nat :: CallFor(p, m, n) == Done(res, m2)
  }

  lemma {:induction false} CallStable(p: Program, m: Mach, n: nat, k: nat)
    requires CallFor(p, m, n).Done? && n <= k
    ensures CallFor(p, m, k) == CallFor(p, m, n)
    decreases n
  {
    hide Step;
    if n > 0 && Step(p, m).Running? {
      CallStable(p, Step(p, m).m, n - 1, k - 1);
    }
  }

  /** What follows the first `k` instructions of a call. */
  lemma {:induction false} AnswersLater(p: Program, m: Mach, k: nat, m1: Mach, res: Result, m2: Mach)
    requires CallFor(p, m, k) == Running(m1) && Answers(p, m1, res, m2)
    ensures Answers(p, m, res, m2)
    decreases k
  {
    hide Step;
    if k > 0 {
      AnswersLater(p, Step(p, m).m, k - 1, m1, res, m2);
      var j: nat :| CallFor(p, Step(p, m).m, j) == Done(res, m2);
      assert CallFor(p, m, j + 1) == Done(res, m2);
    }
  }

  /** A call has one answer. */
  lemma AnswersUnique(p: Program, m: Mach, res: Result, m1: Mach, res2: Result, m2: Mach)
    requires Answers(p, m, res, m1) && Answers(p, m, res2, m2)
    ensures res == res2 && m1 == m2
  {
    var a: nat :| CallFor(p, m, a) == Done(res, m1);
    var b: nat :| CallFor(p, m, b) == Done(res2, m2);
    CallStable(p, m, a, if a < b then b else a);
    CallStable(p, m, b, if a < b then b else a);
  }

  /** No value handed out: a stretch of a single call. */
  lemma {:induction false} OneCall(p: Program, m: Mach, n: nat, c: Config)
    requires Steps(p, m, n, [], c)
    ensures CallFor(p, m, n) == c
    decreases n
  {
    hide Step;
    if n > 0 {
      assert !Yields(p, m);
      if Step(p, m).Running? { OneCall(p, Step(p, m).m, n - 1, c); }
    }
  }
}
