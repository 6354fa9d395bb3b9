# What spython computes, stated and proved

spython compiles a typed subset of Python to LLVM IR, with a C runtime and a
standard library partly written in its own language. This project is a Dafny
model of the parts of it whose correctness is least obvious from reading them,
with proofs. `dafny verify dfyconfig.toml` checks everything.

## What is modelled

**Generators and exceptions** (`codegen/generators.go`, `codegen/exceptions.go`,
the control flow of `codegen/codegen.go`, the handler stack of
`runtime/runtime.c`). `StmtSyntax` and `PySemantics` say what statements mean: a
structured evaluator with the five ways a statement can end. `Machine` is the
emitted code: labels, branches, slots, a stack of handlers and the runtime's
single in-flight exception; re-entering `__next__` keeps the fields of the object
and nothing else. `Lowering` is the translation, and `Emitter` and
`GeneratorLayout` are the code generator itself, as objects that append lines,
draw numbers and push and pop stacks, proved to produce exactly that translation.
`Simulation`, `LoweringSteps`, `TrySteps` and `LoweringCorrect` prove that the
code does what the statements mean; `GeneratorCorrect` and `FunctionCorrect` state
it for whole generators and functions, in both directions; `Clauses` says which
except clause is entered; `Compiled` closes the chain from a text to what the calls on
its code answer; `LabelDiscipline` proves that labels are unique.

Expressions are arbitrary functions of the variables and the heap: they may
compute, write and raise anything, and may catch exceptions of their own. So are
the iterators, and what the callers of a generator do between two `__next__`
calls. Two things are taken for granted of all of them: they leave the handler
stack as they found it, and they do not call `__next__` on the generator that is
running. Programs that never end are included: both sides run on any amount of
fuel.

Two conditions delimit what holds. *Covered* bodies (`Covered.OkBlock`, a check on
the text) have no break or continue that leaves the body of a try without a
finally, nor a return that does in an ordinary function; none of these goes through
a finally with another finally open around it; and no yield stands where a handler
is pushed (in the body of a try, or anywhere in one with a finally) or where the name
of an except clause is bound. A return in a generator may leave any number of tries,
and a yield in an except clause without a name is covered. *Faithful* runs lose
nothing that is thrown: a finally that runs while an exception or the return of a
generator is pending does not empty the only in-flight slot, and no except clause
takes the StopIteration of a return. That StopIteration is made at the return, as in
the code, so the finallies on its way out see a heap in which it exists.

On the other side of each of these lines `LoweringLimits` and `GeneratorLimits` prove
what the code does, and `LimitExamples` and `GeneratorExamples` give a program: a
handler left behind (`EarlyReturnLeaks`), two finallies (`OuterSkipped`,
`EndlessLoop`), a yield in a try (`GuardGone`), a yield where a name is bound
(`NameGone`), a finally that catches (`ClumsyLoses`), a clause that takes a return
(`ReturnCaught`). `Catching` says exactly when a finally loses what is thrown, and
`Faithful` gives a check on the text under which every run is faithful.

**Containers, slices, strings** (`runtime/runtime.c`). The open-addressing map and
set as classes over arrays, refining a finite map and a finite set; removal
without tombstones rests on `OpenAddressing`. Hashes are an arbitrary function of
the key. Slice arithmetic is in 64 bits with wrap-around, against the indices that
`s[low:high:step]` selects. split, join, count and replace on bytes.

**Parsers and printers** (`parser/parser.go`, `stdlib/json.c`, `lexer/lexer.go`).
Each reader is an object that moves a position; the grammar function it follows is
proved to undo the printer, wherever the text stands. What is read is also stated
without the reader and the printer: `ExprPrecedence` gives the levels of the operators
by their tokens and the tree of any row of them; `JsonGrammar` is the grammar of RFC
8259 as trees of tokens, and `JsonReading` proves that loads accepts exactly its texts;
`StringRepr` does the same for string literals. `Unicode` is UTF-8 by its decoder.

**Algorithms** (`stdlib/heapq.spy`, `stdlib/itertools.spy`, `stdlib/ospath.spy`,
`stdlib/math.c`, `loader/loader.go`).

**Agreement between passes** (`types/checker.go` with `codegen/codegen.go` for
calls; `types/types.go` and `types/checker.go` with `codegen/classes.go` for
classes).

## Where the code does not do what one would expect

Each of these is a lemma here, most with the exact condition.

- A generator left by an exception is not exhausted: the next call starts again
  behind the last yield passed, or at the beginning
  (`GeneratorCorrect.LeftByException`, `GeneratorCorrect.RaisingBodyStartsOver`).
- A local named `__state` in a generator gets no field, yet it and the locals after
  it are addressed as if it had one: each later local one field too far, and the last
  of them all at the first inner iterator or at the value
  (`GeneratorLayout.FieldOfLocal`, `GeneratorLayout.StateShadowed`,
  `GeneratorLayout.Plan`).
- A break or continue out of the body of a try without a finally, and a return of
  an ordinary function, leaves its handler pushed
  (`LoweringLimits.HandlerLeftBehind`).
- A return in a generator raises StopIteration into the tries around it: it ends the
  generator if and only if no clause takes that and no finally catches or raises
  (`GeneratorLimits.GeneratorReturn`).
- A yield inside a try returns with the handler pushed and comes back without it
  (`GeneratorLimits.YieldForgets`). A yield in `except C as e` comes back with `e` at
  0 (`GeneratorLimits.BoundNameForgotten`).
- A return through two finallies runs only the inner one, and a break or continue
  through two is forgotten in the outer one
  (`LoweringLimits.OuterFinallySkipped`, `LoweringLimits.ExitForgotten`).
- A finally that catches something while an exception, or the return of a generator,
  is pending throws an empty slot instead (`LoweringLimits.RethrowsTheSlot`).
- The size of a slice is wrong when gap + |step| - 1 leaves 64 bits, and the slice
  comes out empty (`Slicing.SizeExact`, `Slicing.SizeAtMin`).
- A string literal with a raw byte above 127 is not read as written: the lexer
  encodes each such byte again (`StringRepr.ReadPlain`).
- isqrt is wrong for exactly one argument, 2^63 - 1 (`IntMath.Isqrt`).

One comment does not describe its code: the head of `stdlib/json.c` says that
integers out of range wrap, but the code saturates them, and reads tokens of 64
bytes and more as floats. The model follows the code.

## Model

| member | source | states |
|---|---|---|
| `GeneratorCorrect.GeneratorMeaning` | codegen/generators.go:388-478 | A generator whose body ends by itself or by a return, also from inside any number of tries, hands out, one per `__next__` call and in order, exactly the values the body yields when run straight through; from then on each of any number of further calls raises StopIteration. Holds for every covered body and faithful run, every world, and whatever the callers do to the heap and the in-flight slot between calls |
| `GeneratorCorrect.CallsFollowRun` | codegen/generators.go:388-478 | For any amount of the straight run: each value it yields is the answer of one call; the call after the last one raises StopIteration if the body ended (the one its return made, if it returned), or exactly what the body raised; once ended, no handler is pushed, and the state field is -1 if and only if the body did not raise or raised out of a finally that a return had entered, and otherwise the number of the last yield site passed |
| `GeneratorCorrect.RunFollowsCalls` | codegen/generators.go:388-478 | The converse: whatever values the calls return are a prefix of what the body yields |
| `GeneratorCorrect.SilentRunNeverAnswers` | codegen/generators.go:388-478 | A body that loops without yielding keeps the next call from ever answering |
| `GeneratorCorrect.WholeRun` | codegen/generators.go:388-478 | One uninterrupted run of the state machine, re-entered through the switch after every return, has the trace and the end of the straight run |
| `GeneratorCorrect.ExhaustedCall` | codegen/generators.go:472-476 | A call in state -1 raises StopIteration and leaves state -1 |
| `GeneratorCorrect.StopsForEver` | codegen/generators.go:472-476 | Once in state -1, every later call raises an instance of StopIteration |
| `GeneratorCorrect.LeftByException` | codegen/generators.go:388-478 | Where the code departs from the language, for every covered body: when the body raises, the call passes the exception on and leaves the state at the number of the last yield site passed (0 when none was); the next call comes back right behind that resume label, with every field as the exception left it. Only when a return came after that site is the object exhausted |
| `GeneratorCorrect.ReentersAt` | codegen/generators.go:445-461 | A call on an object in state k, for each k from 0 to the number of yield sites, gets right behind the k-th resume label |
| `GeneratorCorrect.RaisingBodyStartsOver` | codegen/generators.go:388-478 | A body that goes wrong so: it raises the same object at every call, where the language promises StopIteration after the first |
| `GeneratorCorrect.ServesAlike` | codegen/generators.go:388-478 | The values served are determined by the object and the world: of two sequences of answers from the same start one is a prefix of the other |
| `LoweringSteps.EmitSteps` | codegen/generators.go:521-537 | A yield hands out the value just stored, and the next call comes back right behind it with every field as it was, the state at that site, every stack slot at 0 and no handler pushed |
| `LoweringSteps.SimYield` | codegen/generators.go:521-537 | The code of `yield e` does what the statement means, across the return and the re-entry |
| `LoweringSteps.SimYieldFrom` | codegen/generators.go:542-616 | The code of `yield from e` re-yields what the inner iterator gives until its StopIteration; any other exception goes on up with the handler popped |
| `LoweringCorrect.SimFor` | codegen/generators.go:710-810 | The code of `for x in <Iterator>` in a generator runs the body once per value, survives yields inside it, and ends at StopIteration with the in-flight slot cleared |
| `LabelDiscipline.SitesUsed` | codegen/generators.go:185-265 | The emitter uses exactly as many resume labels, `yield from` slots and iterator slots as the walk over the body counted |
| `LabelDiscipline.NextLabels` | codegen/generators.go:388-478 | No label is defined twice in `__next__`, and each resume label the switch mentions is defined exactly once |
| `GeneratorLayout.Walker.Walk` | codegen/generators.go:185-265 | The walk finds exactly the names assigned anywhere in the body, each once, and counts every yield, `yield from` and iterator loop |
| `GeneratorLayout.Register` | codegen/generators.go:90-125 | The field list is state, parameters, locals, inner iterators and value, in that order; a local named like the state field gets no field |
| `GeneratorLayout.FieldOfLocal` | codegen/generators.go:426-433 | Each local is addressed at its own field, unless a local named `__state` comes before it: then at the field behind its own; with such a local the last one is addressed at the first field behind all locals |
| `GeneratorLayout.StateShadowed` | codegen/generators.go:104-125 | A case of that: with locals `__state` and `a` and one iterator loop, `a` is addressed where the iterator is kept |
| `GeneratorLayout.Address` | codegen/generators.go:426-433 | Where the emitted code addresses each parameter and local |
| `GeneratorLayout.Plan` | codegen/generators.go:54-165 | The layout the emitted code uses gives every variable, iterator and the value a field of its own if and only if no local is named `__state` |
| `Emitter.CompileFunction` | codegen/codegen.go:658-714 | The same for an ordinary function: accepted exactly when no break or continue stands outside a loop and nothing yields, and then the emitted code is the program FunctionCorrect describes. A call of the code of a covered body whose finallies catch nothing ends as the body does |
| `Emitter.CompileGenerator` | codegen/generators.go:54-478 | From source text to what the calls answer. Accepted exactly when no break or continue stands outside a loop, and then the emitted code is the translation that the theorems are about; a body covered with any set of names is accepted and is covered with the names that have fields. So, for every covered body whose finallies catch nothing and none of whose new names is `__state`: the calls on a new object hand out what the body yields, one each, the next one ends as the body does, and once it ended by itself or by a return any number of further calls raise StopIteration |
| `Emitter.CoveredAccepted` | codegen/codegen.go:1059-1097 | Every covered block is accepted by the emitter |
| `Compiled.GeneratorDelivers` | codegen/generators.go:54-478 | The chain from code to answers, with conditions on the text alone |
| `Compiled.FunctionComputes` | codegen/codegen.go:658-714 | Same for an ordinary function: calls end as the body does, and conversely |
| `Compiled.FoundNames` | codegen/generators.go:185-265 | The walk over a body finds every name whose field the body needs: covered with some names, it is covered with the ones found |
| `Emitter.Generator.EmitNext` | codegen/generators.go:388-478 | Emits the whole `__next__`, with the prepared labels and slots used up in range |
| `Emitter.Generator.EmitBlock` | codegen/codegen.go:1033-1097 | Appends exactly the translation of the block, moves the counters accordingly and leaves the stacks and the variable table as they were; fails exactly on a misplaced break, continue or yield |
| `Emitter.Generator.EmitIf` | codegen/codegen.go:1838-1913 | Same for if, with labels drawn in the order the code draws them |
| `Emitter.Generator.EmitElifs` | codegen/codegen.go:1866-1900 | Same for the elif clauses, including the label drawn and not used from the second one on |
| `Emitter.Generator.EmitWhile` | codegen/codegen.go:1915-1945 | Same for while; the loop labels are on the stacks only while the body is emitted |
| `Emitter.Generator.EmitFor` | codegen/generators.go:710-810 | Same for a loop over an iterator |
| `Emitter.Generator.EmitYieldFrom` | codegen/generators.go:542-616 | Same for `yield from` |
| `Emitter.Generator.EmitReturn` | codegen/codegen.go:2305-2338 | Same for return: to exhaustion in a generator, through the innermost finally, or out |
| `Emitter.Generator.EmitBreak` | codegen/codegen.go:1059-1070 | Same for break: through the innermost finally exactly when the loop was there before it |
| `Emitter.Generator.EmitTry` | codegen/exceptions.go:204-442 | Same for try without finally |
| `Emitter.Generator.EmitTryFinally` | codegen/exceptions.go:204-507 | Same for try with finally; the frame is on the finally stack exactly while the body and the clauses are emitted |
| `Emitter.Generator.EmitHandler` | codegen/exceptions.go:349-433 | Same for one except clause; its name has a slot of its own inside and means afterwards what it meant before |
| `Emitter.Generator.ResolveExitTarget` | codegen/exceptions.go:528-552 | The target is the entry of the innermost enclosing finally whenever there is one |
| `LoweringCorrect.SimBlock` | codegen/codegen.go:1033-1097 | For every covered block and every faithful run: the code ends as the block does (normal, break, continue, return, raise), with the same variables, heap, in-flight exception and yielded values, on the handler stack it started with, and writes no slot outside its own; a run cut off after `fuel` rounds takes at least `fuel` instructions |
| `LoweringCorrect.SimIf` | codegen/codegen.go:1838-1913 | The code of if/elif/else takes the branch the conditions say, also when a condition raises |
| `LoweringCorrect.SimWhile` | codegen/codegen.go:1915-1945 | The code of while repeats the body as the language does, with break and continue, for any number of rounds |
| `LoweringCorrect.SimTry` | codegen/exceptions.go:204-442 | try/except: the first matching clause runs (see ClauseEntered for which one that is), otherwise the exception goes on, and so does a return in a generator that no clause takes; the handler is popped on every way out |
| `LoweringCorrect.SimHandlers` | codegen/exceptions.go:349-442 | The clauses are tried in order against the class of the exception; one that matches binds, clears the slot and runs |
| `Clauses.ClauseEntered` | codegen/exceptions.go:353-364 | Which clause the code enters: the first one that is bare or names a class, with or without `as`, of which the exception in flight is an instance; with nothing in flight, the exception in the slot of its name. Without one control falls through, the exception still in flight |
| `Clauses.ClauseRuns` | codegen/exceptions.go:353-364 | Which clause runs in the language: that same one, with its name bound to the exception inside and as before afterwards; without one the exception goes on |
| `LoweringCorrect.SimCatch` | codegen/exceptions.go:286-442 | In a try with finally every end of the body and of the clauses, raising ones included, gets to the finally with its handler still pushed and the pending slot telling how it ended |
| `LoweringCorrect.SimTryFinally` | codegen/exceptions.go:204-507 | try/except/finally: the finally runs exactly once whatever came before, a return in a generator included, then the pending end is resumed unless the finally itself raises |
| `TrySteps.DispatchSteps` | codegen/exceptions.go:462-505 | The switch after a finally does the end that was pending and no other |
| `FunctionCorrect.FunctionMeaning` | codegen/codegen.go:658-714 | A call of an ordinary function with a covered body and a faithful run ends as its body does, with the heap and the in-flight exception the body leaves and no handler of its own left on the stack |
| `FunctionCorrect.CallFollowsBody` | codegen/codegen.go:658-714 | Conversely, a call that ends does so because the body ends, and in the same way |
| `LabelDiscipline.FuncLabels` | codegen/codegen.go:4084-4087 | No label is defined twice in a function |
| `Covered.ConfinedBlock` | codegen/exceptions.go:560-599 | A covered block only ends in ways that are allowed where it stands |
| `Catching.SlotAfter` | runtime/runtime.c:112-155 | A covered run that throws nothing leaves the in-flight slot empty if something was caught on the way (inside an expression, by an except clause, or the StopIteration that ends a loop), and otherwise untouched |
| `Catching.LostExactly` | codegen/exceptions.go:480-483 | A finally that ends normally loses what was thrown through it (an exception, or the return of a generator) if and only if its body catches something |
| `Faithful.NothingLost` | runtime/runtime.c:112-155 | Nothing thrown is ever overwritten in a body none of whose finally bodies catches anything and none of whose clauses can take the StopIteration of a return; what such a body throws is in flight when it ends |
| `LoweringLimits.RethrowsTheSlot` | codegen/exceptions.go:480-483 | A finally that ends normally with something thrown through it throws that again if and only if its body caught nothing; otherwise it throws an empty slot |
| `LoweringLimits.ReturnThroughFinally` | codegen/exceptions.go:485-502 | In an ordinary function a return routed through a finally leaves the function at once, with the value it was to return, the heap as that finally left it, and the handler stack as it stood |
| `LoweringLimits.OuterFinallySkipped` | codegen/exceptions.go:485-502 | With another finally open around it, wherever in its try, that one never runs: the function is left with the heap from before it and its handler still pushed, where the language runs it and takes over what it does |
| `LoweringLimits.LoopExitThroughFinally` | codegen/exceptions.go:528-552 | A break or continue routed through a finally reaches its loop exactly when no other finally is open; otherwise it enters the enclosing finally with that one's pending slot untouched |
| `LoweringLimits.ExitForgotten` | codegen/exceptions.go:528-552 | A break or continue through two finallies, from wherever in the outer try, is forgotten in the outer one: its body runs and control goes on behind the outer try, still inside the loop |
| `LoweringLimits.HandlerLeftBehind` | codegen/codegen.go:2305-2338 | A try without finally leaves the handler stack as it found it if and only if its body does not leave by break or continue, nor by a return of an ordinary function; otherwise its handler stays pushed |
| `GeneratorLimits.GeneratorReturn` | codegen/codegen.go:2305-2313 | A return in a generator from inside a try: the call ends with the StopIteration that return made if and only if no clause takes it and the finally ends normally and catches nothing (or the finally raises that very object); a clause that takes it runs, with the object marked as exhausted; a finally that catches throws an empty slot, one that raises replaces it. Ended or not, the state is -1 |
| `GeneratorLimits.ReturnKept` | codegen/exceptions.go:204-507 | A try whose body returns in a generator means what the language says if and only if that return gets out so, or its finally raises |
| `GeneratorLimits.YieldForgets` | codegen/generators.go:521-537 | At a yield anywhere `__next__` returns with whatever handlers it has pushed still on the stack; the next call comes back behind the yield with none, every field kept and every stack slot (the pending and phase slots and the names of except clauses among them) at 0 |
| `GeneratorLimits.BoundNameForgotten` | codegen/exceptions.go:349-433 | An except clause that binds a name and yields, with no handler pushed: it runs as the language says except that behind each of its yields the name reads 0; it does what it means when the name is not read behind a yield before it is assigned there |
| `LimitExamples.EarlyReturnLeaks` | codegen/codegen.go:2305-2338 | `try: return` returns with its handler still pushed |
| `LimitExamples.ClumsyLoses` | codegen/exceptions.go:480-483 | `try: raise x finally: f()`, where f catches an exception of its own, throws an empty slot where the language raises x |
| `LimitExamples.OuterSkipped` | codegen/exceptions.go:485-502 | `try: try: return finally: pass finally: f()` returns without running f, the outer handler still pushed |
| `LimitExamples.EndlessLoop` | codegen/exceptions.go:528-552 | `while 1: try: try: break finally: pass finally: pass` never ends, where the language ends it at once |
| `GeneratorExamples.GuardGone` | codegen/generators.go:521-537 | `try: yield v except: pass` in a generator hands out v with the handler still pushed; the next call comes back into the try without it |
| `GeneratorExamples.ReturnCaught` | codegen/codegen.go:2305-2313 | `try: return except: pass` and then `yield v` in a generator hands out v, where the language ends it without a value |
| `GeneratorExamples.FinallyReturns` | codegen/codegen.go:2305-2313 | `try: return finally: pass` in a generator is in order: the first call raises StopIteration, with the object exhausted and no handler left |
| `GeneratorExamples.NameGone` | codegen/exceptions.go:349-433 | `try: raise x except C as e: yield v; yield e` in a generator hands out v and 0, where the language yields v and x |
| `OpenAddressing.KeepRelinking` | runtime/runtime.c:1206-1272 | Putting one entry of the run back keeps every key that is not waiting reachable from its home slot, keys unique, and the rest of the run where it was |
| `OpenAddressing.Avoids` | runtime/runtime.c:1246-1272 | Going round the table, the way to a key outside the waiting part of a run never uses the slot just emptied |
| `OpenAddressing.NotThere` | runtime/runtime.c:1230-1240 | A probe that reaches a free slot proves the key absent |
| `OpenAddressing.CountKeys` | runtime/runtime.c:1274-1277 | The number of used slots is the number of keys |
| `HashTables.HashMap.Set` | runtime/runtime.c:1016-1041 | The map refines a finite map: `m[k] = v`, never dropping an entry, whether or not the table grows, and whether or not the key was there |
| `HashTables.HashMap.Resize` | runtime/runtime.c:1149-1162 | Growing keeps every binding and doubles the capacity |
| `HashTables.HashMap.Get` | runtime/runtime.c:1043-1059 | The value bound to the key, or the error for an absent key |
| `HashTables.HashMap.GetOr` | runtime/runtime.c:1131-1141 | The value bound to the key, or the default |
| `HashTables.HashMap.Contains` | runtime/runtime.c:1061-1071 | Whether the key is bound |
| `HashTables.HashMap.Walk` | runtime/runtime.c:1084-1100 | The walk with next/key_at/val_at visits every key exactly once, with its value |
| `HashTables.HashMap.Extend` | runtime/runtime.c:1102-1109 | The bindings of the other map override and that map is unchanged; a map extended with itself keeps its bindings, also when the table grows under the walk |
| `HashTables.HashMap.Clear` | runtime/runtime.c:1143-1147 | An empty map of the same capacity |
| `HashTables.HashSet.Discard` | runtime/runtime.c:1246-1272 | Removes exactly that key, keeps all others findable and unique, leaves the table its size, and ends |
| `HashTables.HashSet.Add` | runtime/runtime.c:1206-1228 | Adds exactly that key; in the middle of a removal, where keys may be unreachable, it takes the first free slot from home and does not grow |
| `HashTables.HashSet.Contains` | runtime/runtime.c:1230-1240 | Whether the key is in the set |
| `HashTables.HashSet.Walk` | runtime/runtime.c:1282-1293 | The walk with next/key visits every key exactly once |
| `Slicing.SliceSelects` | runtime/runtime.c:579-627 | For every length, bounds and non-zero step, the resolved progression consists of exactly the indices the slice selects |
| `Slicing.SizeExact` | runtime/runtime.c:615-623 | The computed length is the true one if and only if gap + \|step\| - 1 stays within 64 bits; otherwise it is not positive |
| `Slicing.SizeAtMin` | runtime/runtime.c:615-623 | For the one step without a 64-bit opposite it is right if and only if the gap is at most one |
| `Slicing.Slice` | runtime/runtime.c:629-650 | The elements of the progression, by the contiguous copy and by the general loop alike, every index read in range, if and only if the computed length is right; otherwise the empty slice. Without a step it is one stretch, from the lower bound to the upper one, each counted from the end when negative and never outside. An error exactly for step zero |
| `Slicing.LastOnes` | runtime/runtime.c:579-612 | `s[-k:]` is the last k elements and `s[:-k]` the others |
| `Slicing.ReverseTwice` | runtime/runtime.c:709-732 | `[::-1]` takes every element and is its own inverse |
| `Strings.JoinPieces` | runtime/runtime.c:455-488 | join(sep, split(s, sep)) is s |
| `Strings.PiecesFree` | runtime/runtime.c:455-488 | No piece contains the separator |
| `Strings.CutUnique` | runtime/runtime.c:455-488 | There is only one way to cut a string so that each piece ends where the separator first occurs, and split finds it |
| `Strings.PiecesCut` | runtime/runtime.c:455-488 | The pieces are cut that way |
| `Strings.Split` | runtime/runtime.c:455-488 | split returns those pieces |
| `Strings.JoinParts` | runtime/runtime.c:491-513 | join fills exactly the length it computed up front |
| `Strings.Count` | runtime/runtime.c:396-408 | count is one less than the number of pieces (length + 1 for an empty argument) |
| `Strings.Replace` | runtime/runtime.c:410-432 | replace(s, a, b) is join(b, split(s, a)), written into exactly the length computed from the count |
| `Strings.SplitSpaces` | runtime/runtime.c:462-472 | Splitting at white space gives the words of the string |
| `Strings.Space` | runtime/runtime.c:286-288 | White space is the six bytes 9 to 13 and 32 |
| `Strings.WordsSpread` | runtime/runtime.c:462-472 | Those words stand in the string in order: maximal runs without white space, with nothing but white space around them |
| `Strings.SpreadUnique` | runtime/runtime.c:462-472 | and no other list of words stands in it so |
| `ExprRoundTrip.RoundTrip` | parser/parser.go:371-502 | Any expression tree, written with parentheses only where binding strength asks for them, anywhere in a token list, is parsed back to the same tree, stopping at the first token that cannot continue it under the given bound |
| `ExprRoundTrip.Unambiguous` | parser/parser.go:371-502 | Two trees with the same text are the same tree |
| `ExprPrecedence.Grouping` | parser/parser.go:371-449 | Any row of operands and binary operators, `in` and `not in` among them, is read as the tree split at the last of its loosest operators, and so on in both halves, where the nine levels are given by token kinds: or, and, comparisons and membership, bitwise or, xor and and, shifts, + and -, * / // and % |
| `ExprPrecedence.TwoOperators` | parser/parser.go:425-449 | `a op1 b op2 c` is read as `a op1 (b op2 c)` if op2 is on a tighter level, and as `(a op1 b) op2 c` otherwise |
| `ExprPrecedence.NotTakes` | parser/parser.go:452-468 | `not` takes everything up to the next `and` or `or` |
| `ExprPrecedence.PowerTakes` | parser/parser.go:487-502 | `a ** b` is one operand, also when b is a power or has a sign in front |
| `ExprPrecedence.PlainOperand` | parser/parser.go:487-493 | What a primary and its suffixes make is an operand of its own when no `**` follows |
| `ExprPrecedence.MinusTakes` | parser/parser.go:469-484 | `-` and `~` take one operand, and the result is one |
| `ExprRoundTrip.BinaryOk` | parser/parser.go:401-419 | Binary operators at each level group to the left |
| `ExprRoundTrip.MemberOk` | parser/parser.go:380-399 | `in` and `not in` bind like comparisons |
| `ExprRoundTrip.NotOk` | parser/parser.go:452-468 | `not` takes everything that binds tighter than `and` |
| `ExprRoundTrip.PowerOk` | parser/parser.go:487-502 | `**` groups to the right, tighter than a unary operator on its left and looser on its right |
| `ExprRoundTrip.LambdaOk` | parser/parser.go:685-709 | A lambda takes everything up to the first token that ends an expression |
| `ExprRoundTrip.ItemOk` | parser/parser.go:513-577 | Positional, starred, keyword and doubly starred arguments, and the pairs of a map |
| `ExprRoundTrip.NoAssign` | parser/parser.go:548-565 | No expression starts with a name and an equals sign, so a positional argument is never taken for a keyword argument |
| `ExprRoundTrip.ItemsOk` | parser/parser.go:519-585 | Lists of items, with or without a trailing comma |
| `ExprRoundTrip.SliceOk` | parser/parser.go:603-648 | Slices with any of their three parts missing |
| `ExprRoundTrip.TupleOk` | parser/parser.go:751-785 | Tuples, the one-element form with its comma included |
| `ExprRoundTrip.SetOk` | parser/parser.go:823-850 | A set, told from a map by the missing colon |
| `ExprRoundTrip.MapOk` | parser/parser.go:823-887 | A map; empty braces are one |
| `ExprParser.Parser.ParseExpr` | parser/parser.go:371-423 | The method reads what the grammar says and leaves the position behind it |
| `ExprParser.Parser.ParsePostfix` | parser/parser.go:504-678 | Same for calls, subscripts and attributes |
| `ExprParser.Parser.ParseCallArgs` | parser/parser.go:513-588 | Same for the arguments of a call; behind a keyword argument or `**expr` there are only such |
| `ExprParser.Parser.ParseSubscript` | parser/parser.go:603-661 | Same for an index or a slice; empty brackets are an error |
| `ExprParser.Parser.ParseParenthesised` | parser/parser.go:751-785 | Same for groupings and tuples |
| `ExprParser.Parser.ParseMapLit` | parser/parser.go:823-887 | Same for sets and maps |
| `ExprParser.ReadBack` | parser/parser.go:371-502 | Writing a tree and running the parser on the text gives the tree |
| `ExprSound.TreeSound` | parser/parser.go:371-423 | Every tree the parser returns, on any tokens the lexer can give, is one that has a text |
| `ExprSound.ReadAgain` | parser/parser.go:371-423 | So whatever is accepted can be written out again and is then read as the same tree |
| `ExprSound.CallAllowed` | parser/parser.go:513-588 | Any arguments with the positionals in front of the keywords make a call that is read back, starred ones in any order with the others of their kind |
| `JsonRoundTrip.LoadsDumps` | stdlib/json.c:287-301 | loads(dumps(d)) is the value of d for every tree of null, bools, 64-bit integers, floats as they print, arbitrary byte strings, lists and string-keyed dicts, each dict written in the order of its own walk, also when equal dicts are walked differently |
| `JsonReading.LoadsExactly` | stdlib/json.c:22-301 | loads accepts exactly the texts of the JSON grammar (RFC 8259, written here as trees of tokens with the bytes of each spelled out) and returns what the text means, for every text: white space anywhere between tokens, every escape, any number, repeated keys |
| `JsonReading.WhiteSpaceFree` | stdlib/json.c:43-49 | Two texts with the same tokens give the same value: any number of the bytes 9, 10, 13 and 32 between tokens changes nothing |
| `JsonReading.CodePointRead` | stdlib/json.c:69-163 | `\u` and four hexadecimal digits in either case, outside the surrogates, are read as the one sequence that a UTF-8 decoder takes for that code point |
| `JsonReading.PairRead` | stdlib/json.c:139-157 | A code point above 0xffff is read from its high and then its low surrogate as the one sequence that decodes to it |
| `JsonReading.ShortRead` | stdlib/json.c:129-137 | The eight short escapes, `\/` among them |
| `JsonReading.NodeOk` | stdlib/json.c:271-285 | A value of the grammar, wherever it stands, is read as what it means, and no further |
| `JsonReading.NodeSound` | stdlib/json.c:271-285 | Whatever is read as a value is one of the grammar |
| `JsonReading.NumberOk` | stdlib/json.c:184-226 | Every number of the grammar is read whole: an integer of fewer than 64 bytes as its value, held in 64 bits, any other number as a float |
| `JsonReading.CharsOk` | stdlib/json.c:118-180 | Every string of the grammar is read as the bytes it means |
| `JsonReading.EntriesOk` | stdlib/json.c:247-269 | The members of an object are set one after the other in what has been read before them |
| `JsonRoundTrip.DumpsWrites` | stdlib/json.c:400-461 | What dumps writes is a text of the grammar that means what was written |
| `JsonRoundTrip.LayoutOk` | stdlib/json.c:341-461 | Token by token: no white space, a quote and a backslash escaped, control characters by a letter or four digits, every other byte as it is |
| `Unicode.OneCode` | stdlib/json.c:69-95 | No two sequences decode to the same code point |
| `JsonRoundTrip.AnyOrder` | stdlib/json.c:382-398 | Two dicts with the same members have the same value in whatever orders their tables are walked |
| `JsonCodec.Buf.WriteValue` | stdlib/json.c:400-461 | The buffer grows by exactly the text of the value |
| `JsonCodec.Buf.WriteString` | stdlib/json.c:341-366 | Same for a string with its escapes |
| `JsonCodec.Buf.WriteDict` | stdlib/json.c:382-398 | Same for a dict, member by member in the order of its walk |
| `JsonCodec.Buf.Grow` | stdlib/json.c:317-321 | Growing keeps what is written and makes room |
| `JsonCodec.Reader.ParseValue` | stdlib/json.c:271-285 | Reads what the grammar says, strictly forward and never past the end |
| `JsonCodec.Reader.ParseObject` | stdlib/json.c:247-269 | Same for an object; a repeated key is overwritten |
| `JsonCodec.Reader.ParseString` | stdlib/json.c:118-180 | Same for a string, surrogate pairs and escapes included |
| `JsonCodec.Reader.ParseNumber` | stdlib/json.c:184-226 | Same for a number |
| `JsonCodec.ThereAndBack` | stdlib/json.c:287-301 | Running the writer on a document and then the reader gives its value back |
| `JsonCodec.LoadsText` | stdlib/json.c:287-301 | The whole reader returns a value if and only if the text is JSON that means it |
| `JsonCodec.Dumps` | stdlib/json.c:463-470 | The whole writer: a text of the grammar that means what was given |
| `StringRepr.ReadRepr` | lexer/lexer.go:166-227 | Lexing a repr, wherever it stands, gives the original bytes and stops right behind the closing quote |
| `StringRepr.ReprInto` | runtime/runtime.c:218-246 | repr never writes past 4 * len + 2 bytes |
| `StringRepr.Lexer.ReadString` | lexer/lexer.go:166-227 | The reader of literals: it returns the value of the literal at its position and stops behind it, and an error exactly when no literal stands there |
| `StringRepr.LiteralExactly` | lexer/lexer.go:166-227 | What a literal is and means, byte for byte: `\n`, `\t`, `\r`, `\0`, a backslash and both quotes; `\x` with two digits in either case; any other escape keeps its backslash; a raw byte is encoded as a code point; a line break ends it in error |
| `StringRepr.ReprLooks` | runtime/runtime.c:218-246 | A repr is printable, between double quotes if and only if there is a single quote in the string and no double one, with those bytes escaped that are not printable, and the quote and the backslash |
| `StringRepr.ReadPlain` | lexer/lexer.go:219-222 | A literal written without escapes is read as written if and only if it is ASCII: each other byte is encoded a second time |
| `StringRepr.ReadBack` | lexer/lexer.go:166-227 | Writing a repr and lexing it gives the bytes back |
| `Heapq.Heap.SiftUp` | stdlib/heapq.spy:33-48 | From any root whose child subtrees are heaps: the subtree becomes a heap, nothing outside it moves, the elements are the same |
| `Heapq.Heap.SiftDown` | stdlib/heapq.spy:18-29 | Restores order above a hole |
| `Heapq.Heap.HeapPush` | stdlib/heapq.spy:51-53 | Keeps heap order and adds exactly the item |
| `Heapq.Heap.HeapPop` | stdlib/heapq.spy:57-66 | Returns a minimum, removes exactly it, keeps heap order; an error exactly on the empty heap |
| `Heapq.Heap.HeapReplace` | stdlib/heapq.spy:71-77 | Returns a minimum of the old elements and puts the item in |
| `Heapq.Heap.HeapPushPop` | stdlib/heapq.spy:81-88 | Returns a minimum of the elements and the item |
| `Heapq.Heap.Heapify` | stdlib/heapq.spy:91-96 | Any list becomes a heap of the same elements |
| `Heapq.RootIsMinimum` | stdlib/heapq.spy:57-66 | The root of a heap is a minimum |
| `Combinations.Run` | stdlib/itertools.spy:227-268 | Every strictly increasing choice of indices is yielded, in lexicographic order; an error exactly for a negative r, nothing for r greater than the length |
| `Combinations.Successor` | stdlib/itertools.spy:250-262 | One step leads to the immediate lexicographic successor |
| `Combinations.NoneAfter` | stdlib/itertools.spy:252-258 | The loop ends only at the last choice |
| `Combinations.Ascending` | stdlib/itertools.spy:227-268 | Nothing is yielded twice |
| `NormPath.SamePlace` | stdlib/ospath.spy:97-154 | normpath names the same place as its input, from every working directory: followed byte by byte without cutting the path first, and without symlinks, both end in the same directory, under the same root |
| `NormPath.WhereOpened` | stdlib/ospath.spy:97-154 | Following a path byte by byte is cutting it at its slashes and walking the components that are not empty and not `.`; two leading slashes, and not three, are a root of their own |
| `NormPath.Idempotent` | stdlib/ospath.spy:97-154 | normpath is idempotent |
| `NormPath.NormalParts` | stdlib/ospath.spy:97-154 | The text of the result: `.`, or the leading slashes POSIX asks for followed by the reduced components with single slashes between them; cut at its slashes it has no empty and no `.` component, and `..` only as a leading run of a relative path |
| `NormPath.Normpath` | stdlib/ospath.spy:97-154 | The routine with its reused buffer computes that result |
| `NormPath.PushOne` | stdlib/ospath.spy:114-138 | What is left in the buffer above the top never shows |
| `IntMath.Isqrt` | stdlib/math.c:67-77 | For 0 <= n the result x has x*x <= n < (x+1)*(x+1) if and only if n is not 2^63 - 1 |
| `IntMath.Comb` | stdlib/math.c:84-92 | The binomial coefficient, whenever the largest intermediate product fits in 64 bits |
| `IntMath.NextBinom` | stdlib/math.c:88-90 | The division in each step is exact |
| `IntMath.ProductsGrow` | stdlib/math.c:88-90 | The last product is the largest, so it decides whether any leaves 64 bits |
| `ModuleLoader.Load` | loader/loader.go:120-234 | Every finite import graph. It fails if and only if something reachable is at fault by itself or needs itself. A failure names a reachable file and the condition that holds of it (missing, not parsing, not to be imported, without its C file, or with an import that does not resolve), or a walk from the entry through distinct modules back to one of them. On success every reachable module is there, parses, may be imported (the entry need not), has its C file and its imports, and is listed exactly once, after everything it imports, the entry last |
| `ModuleLoader.Loader.LoadPath` | loader/loader.go:120-234 | One step of the depth-first walk with cache, grey set, stack and order; it ends, what it lists is without fault, and every failure gives the first thing that is wrong with a reachable file, or a cycle |
| `ModuleLoader.SortedClosed` | loader/loader.go:120-234 | A list in which imports come first contains everything its modules need |
| `ModuleLoader.SortedAcyclic` | loader/loader.go:120-234 | and no cycle can be reached from it |
| `ModuleLoader.DepsChecked` | loader/loader.go:83-118 | With distinct ids each dependency that is looked up by id is found, is an import of that module, and was checked before it |
| `ModuleLoader.DepFound` | loader/loader.go:83-118 | Whatever the ids are, each dependency is found and was checked before; it is looked up as the import of that name if and only if no module listed before that import has the same id |
| `CallMatching.MatchCallArgs` | types/checker.go:2200-2385 | The checker accepts exactly the calls whose every argument fits one place and whose every parameter is filled once; with nothing unpacked, the first positionals fit the parameters in order up to the keyword-only ones, and the others fit `*args` |
| `CallMatching.MatchKeywords` | types/checker.go:2290-2366 | The keyword half of that |
| `CallMatching.PrepareCallArgs` | codegen/codegen.go:2946-3085 | Every accepted call is placed without the "not statically filled" error: each parameter gets its positional, keyword or default value, leftovers keep source order, and the list has the callee's order and length |
| `CallMatching.PositionalsConserved` | codegen/codegen.go:2984-3002 | Each positional goes to a parameter or to the rest, exactly once |
| `CallMatching.KeywordsConserved` | codegen/codegen.go:3004-3026 | An accepted keyword is the only value of its parameter |
| `CallMatching.PlacedFits` | types/checker.go:2259-2272 | Every value placed has a type its place takes: a parameter's, or the element type of the list or map that collects the rest |
| `CallMatching.PlainPositionals` | types/checker.go:2216-2288 | With nothing unpacked, positional i is the value of parameter i, up to the parameters behind `*args` or the end, and the others are the list of the rest in order |
| `CallMatching.LeftoverOrder` | codegen/codegen.go:3004-3026 | The keywords that no parameter takes keep their order: what is left over of a list is what is left over of its parts, and of one keyword it is that one if it is unpacked or no parameter has its name |
| `CallMatching.KeywordOnly` | codegen/codegen.go:2946-3085 | Behind `*args` a parameter receives the keyword of its name or its default, never a positional |
| `ClassLayout.Layout.ComputeSlots` | codegen/classes.go:46-101 | One slot for each callable method, base slots first and unmoved, each filled with what a call runs |
| `ClassLayout.LayOutAll` | codegen/classes.go:14-40 | Every class of a base-first forest is laid out so |
| `ClassLayout.Dispatch` | codegen/classes.go:356-401 | A call through the slot of the static class runs the nearest definition at or above the dynamic class (for an undefined `__str__` or `__repr__`, the root's) |
| `ClassLayout.SubclassExtends` | codegen/classes.go:46-101 | A subclass's slot list extends its base's |
| `ClassLayout.Layout.InferFields` | types/checker.go:552-564 | The fields of a class extend those of its base, each name once |
| `ClassLayout.FieldIndexAgrees` | types/checker.go:552-564 | A field keeps its index across upcasts |
| `ClassLayout.IsInstance` | codegen/classes.go:533-587 | The walk over class ids ends, and finds exactly the ids of the ancestors |
| `ClassLayout.WalkIsSubclass` | types/types.go:287-294 | The walk for a class equals IsSubclassOf on all classes if and only if every class with that id is below it, as when ids are distinct |

## Left out

Contracts stated weaker than one might ask:

- IntMath.Comb: says nothing once a product leaves 64 bits, where the C code
  overflows a signed integer and C itself says nothing.
- GeneratorCorrect.GeneratorMeaning: for covered bodies and faithful runs, see
  above; of a try that spans a yield only the yield itself is described
  (GeneratorLimits.YieldForgets).
- GeneratorLimits.BoundNameForgotten: that the name is not read is enough for the two
  runs to agree, not necessary: a value that is read may not matter. Yields inside a
  loop or a branch of the clause are not described.
- GeneratorLimits.GeneratorReturn: for the try around which no handler is pushed; a
  return that gets out of an inner try is thrown into the one around it.
- Emitter.CompileFunction: for functions without a loop over an iterator, see
  LoweringCorrect.SimFor.
- GeneratorLayout.Register: the names of the inner iterators are given without their
  numbers.
- LoweringCorrect.SimFor: iterator loops in generators only. An ordinary function
  gives the loop variable a new stack slot for the loop (codegen/codegen.go), which
  is not modelled.
- ModuleLoader.Loader.LoadPath: says nothing of cache, stack and grey set after a
  failure, which the source leaves as they were at that moment and never reads again.
- Emitter.Generator.EmitBlock: after a failure nothing is said of the stacks; the
  source stops compiling there.
- CallMatching.MatchCallArgs: type hints passed down to arguments and the text of
  the errors are not modelled.
- StringRepr.ReprInto: the trailing zero byte is not modelled.

The lowering:

- Loops over range, list, set, dict and str; closures; evaluation of expressions
  themselves, which are functions here.
- Labels and stack slots are drawn from one counter and slots are numbers; LLVM
  names, types, casts and the text of the output are left out. The locals of an
  ordinary function have their slots from the start (the source hoists every
  alloca to the entry block). A local without a resolved type is not modelled.
- setjmp and longjmp are a push and a jump to the top handler with the slots as
  they are; registers, `volatile` and the roots of the collector are left out.
- The name in `except C as name` has its own slot and means afterwards what it
  meant before, as in the code; in Python it would be unbound.
- A break or continue of a loop inside a finally body is covered here although the
  checker refuses it.
- Module-level code and the generator's factory and constructor call, beyond the
  layout of the object.

The rest:

- Floats everywhere: values, formatting and parsing. A JSON float is known by its
  token only; NaN keys and hashes of floats are left out.
- Keys of maps and sets are values compared by equality; boxed keys, `__hash__` and
  `__eq__` of user classes, and an `int` length that overflows are left out.
- Lexing apart from string literals, statements, and errors in converting a literal
  (an integer that does not fit in 64 bits).
- Unicode: strings are bytes, as in the runtime. Byte literals.
- The depth of the C stack in the JSON reader.
- `nlargest`, `nsmallest` and `merge` of heapq, and the generators of itertools other
  than combinations.
- Reading files, search paths and sibling C compilation: a file is whether it
  parses, whether it may be imported, whether its C file is there, and its imports.
  Module objects are paths; the cache is a set of them.
- Evaluation order of call arguments and the casts put on them. Types of fields,
  which class's `__init__` runs, and `super()` calls.
- Sockets, time, OS, regular expressions, random numbers, sorting, hashing, hex,
  base64 and struct codecs, error texts, source positions and the command line.
- Termination of compiled programs, memory use and running time.
