/**
 How operators bind, said of token kinds and without the parser's own table: operands and
 operators in a row are grouped at the last of the loosest operators, again and again.
 */
module ExprPrecedence {
  import opened Common
  import opened ExprSyntax
  import opened ExprGrammar

  /** A binary operator other than `**`; `not in` is two tokens. */
  datatype Op = Sign(k: Kind) | In | NotIn

  /** The operators from the loosest, `or`, to the tightest. */
  predicate AtLevel(op: Op, l: nat) {
    match op
    case Sign(k) =>
      || (l == 1 && k == OR)
      || (l == 2 && k == AND)
      || (l == 3 && k in {EQ, NEQ, LT, GT, LTE, GTE})
      || (l == 4 && k == PIPE)
      || (l == 5 && k == CARET)
      || (l == 6 && k == AMP)
      || (l == 7 && k in {LSHIFT, RSHIFT})
      || (l == 8 && k in {PLUS, MINUS})
      || (l == 9 && k in {STAR, SLASH, DSLASH, PERCENT})
    case In => l == 3
    case NotIn => l == 3
  }

  function Width(op: Op): nat { if op == NotIn then 2 else 1 }

  predicate OpAt(t: seq<Token>, i: nat, op: Op) {
    match op
    case Sign(k) => Peek(t, i) == k
    case In => Peek(t, i) == IN
    case NotIn => Peek(t, i) == NOT && Peek(t, i + 1) == IN
  }

  function Made(op: Op, l: Expr, r: Expr): Expr {
    match op
    case Sign(k) => Binary(k, l, r)
    case In => Member(false, l, r)
    case NotIn => Member(true, l, r)
  }

  /** No operator follows. */
  predicate NoOp(t: seq<Token>, i: nat) {
    && Peek(t, i) != IN && !(Peek(t, i) == NOT && Peek(t, i + 1) == IN)
    && forall l :: 1 <= l <= 9 ==> !AtLevel(Sign(Peek(t, i)), l)
  }

  // ---- a row of operands and operators ----

  /** An operator with its level, the operand behind it, and where that ends. */
  datatype Step = Step(op: Op, level: nat, e: Expr, end: nat)

  /** `e` stands at `i`: a name, a literal, a call, something in brackets, a power, or one
      of these under `-` or `~`. */
  ghost predicate Operand(t: seq<Token>, i: nat, e: Expr, end: nat) {
    Peek(t, i) != NOT && ParseUnary(t, i) == Some(Parsed(e, end))
  }

  /** From `i` on, the operators and operands of `row`, and no operator behind them. */
  ghost predicate Row(t: seq<Token>, i: nat, row: seq<Step>)
    decreases |row|
  {
    if row == [] then NoOp(t, i)
    else
      var s := row[0];
      AtLevel(s.op, s.level) && OpAt(t, i, s.op) && Operand(t, i + Width(s.op), s.e, s.end) && Row(t, s.end, row[1..])
  }

  function EndOf(i: nat, row: seq<Step>): nat { if row == [] then i else row[|row| - 1].end }

  /** The position of the last of the loosest operators. */
  ghost predicate LastLoosest(row: seq<Step>, q: nat) {
    && q < |row|
    && (forall k :: 0 <= k < q ==> row[k].level >= row[q].level)
    && (forall k :: q < k < |row| ==> row[k].level > row[q].level)
  }

  lemma {:induction false} SomeLoosest(row: seq<Step>) returns (q: nat)
    requires row != []
    ensures LastLoosest(row, q)
    decreases |row|
  {
    if |row| == 1 {
      q := 0;
    } else {
      var front, last := row[..|row| - 1], row[|row| - 1];
      q := SomeLoosest(front);
      if last.level <= row[q].level { q := |row| - 1; }
    }
  }

  /** The tree: split at the last of the loosest operators. */
  ghost function Grouped(first: Expr, row: seq<Step>): Expr
    decreases |row|
  {
    if row == [] then first
    else
      var q := Split(row);
      Made(row[q].op, Grouped(first, row[..q]), Grouped(row[q].e, row[q + 1..]))
  }

  ghost function Split(row: seq<Step>): (q: nat)
    requires row != []
    ensures LastLoosest(row, q)
  {
    assert exists q: nat :: LastLoosest(row, q) by { var x := SomeLoosest(row); }
    var q: nat :| LastLoosest(row, q);
    q
  }

  lemma SplitIs(row: seq<Step>, q: nat)
    requires LastLoosest(row, q)
    ensures Split(row) == q
  {
    var x := Split(row);
    assert row[x].level >= row[q].level >= row[x].level;
  }

  // ---- grouping from the left ----

  /** The first `f` steps behind the first one are tighter than it. */
  ghost predicate Tighter(row: seq<Step>, f: nat) {
    0 < f <= |row| && forall k :: 0 < k < f ==> row[k].level > row[0].level
  }

  /** The climbing parser takes the first operator with everything tighter behind it, and
      goes on with that as its left operand: that makes the same tree. */
  lemma {:induction false} Regroup(first: Expr, row: seq<Step>, f: nat)
    requires row != [] && Tighter(row, f) && (f < |row| ==> row[f].level <= row[0].level)
    ensures Grouped(first, row) == Grouped(Made(row[0].op, first, Grouped(row[0].e, row[1..f])), row[f..])
    decreases |row|
  {
    hide Grouped, Split;
    if f == |row| {
      SplitIs(row, 0);
      GroupedAt(first, row, 0);
      assert row[..0] == [] && row[f..] == [] && row[1..f] == row[1..];
      GroupedNone(first);
      GroupedNone(Made(row[0].op, first, Grouped(row[0].e, row[1..f])));
    } else {
      var q, rest, x := Split(row), row[f..], Made(row[0].op, first, Grouped(row[0].e, row[1..f]));
      SplitBehind(row, f, q);
      GroupedAt(first, row, q);
      LoosestLater(row, f, q);
      SplitIs(rest, q - f);
      GroupedAt(x, rest, q - f);
      SplitLater(row, f, q);
      Regroup(first, row[..q], f);
    }
  }

  lemma SplitBehind(row: seq<Step>, f: nat, q: nat)
    requires Tighter(row, f) && f < |row| && row[f].level <= row[0].level && LastLoosest(row, q)
    ensures f <= q
  {
    assert row[f].level >= row[q].level;
  }

  lemma SplitLater(row: seq<Step>, f: nat, q: nat)
    requires 0 < f <= q < |row|
    ensures row[f..][..q - f] == row[..q][f..] && row[..q][1..f] == row[1..f]
    ensures row[f..][q - f] == row[q] && row[f..][q - f + 1..] == row[q + 1..]
  {
    assert row[f..][..q - f] == row[f..q] == row[..q][f..];
  }

  lemma GroupedNone(first: Expr)
    ensures Grouped(first, []) == first
  {
  }

  lemma GroupedAt(first: Expr, row: seq<Step>, q: nat)
    requires row != [] && q == Split(row)
    ensures Grouped(first, row) == Made(row[q].op, Grouped(first, row[..q]), Grouped(row[q].e, row[q + 1..]))
  {
  }

  lemma LoosestLater(row: seq<Step>, f: nat, q: nat)
    requires LastLoosest(row, q) && f <= q
    ensures LastLoosest(row[f..], q - f)
  {
  }

  // ---- what the parser does ----

  /** The steps that are taken under the bound `m`: up to the first that is looser. */
  ghost function Taken(row: seq<Step>, m: nat): (f: nat)
    ensures f <= |row| && (forall k :: 0 <= k < f ==> row[k].level >= m) && (f < |row| ==> row[f].level < m)
    decreases |row|
  {
    if row == [] || row[0].level < m then 0 else 1 + Taken(row[1..], m)
  }

  lemma ClimbStops(t: seq<Token>, left: Expr, i: nat, m: nat)
    requires i <= |t| && NoOp(t, i)
    ensures Climb(t, left, i, m) == Some(Parsed(left, i))
  {
    hide ParseExpr;
    assert forall l :: 1 <= l <= 9 ==> !AtLevel(Sign(Peek(t, i)), l);
    assert !AtLevel(Sign(Peek(t, i)), 1) && !AtLevel(Sign(Peek(t, i)), 2) && !AtLevel(Sign(Peek(t, i)), 3);
    assert !AtLevel(Sign(Peek(t, i)), 4) && !AtLevel(Sign(Peek(t, i)), 5) && !AtLevel(Sign(Peek(t, i)), 6);
    assert !AtLevel(Sign(Peek(t, i)), 7) && !AtLevel(Sign(Peek(t, i)), 8) && !AtLevel(Sign(Peek(t, i)), 9);
  }

  lemma PrecIs(k: Kind, l: nat)
    requires AtLevel(Sign(k), l)
    ensures Prec(k) == l > 0 && k != IN && k != NOT
  {
  }

  lemma ClimbOp(t: seq<Token>, left: Expr, i: nat, m: nat, op: Op, l: nat)
    requires i <= |t| && OpAt(t, i, op) && AtLevel(op, l)
    ensures l < m ==> Climb(t, left, i, m) == Some(Parsed(left, i))
    ensures l >= m ==>
      var right := ParseExpr(t, i + Width(op), l + 1);
      Climb(t, left, i, m)
      == if right.None? then None else Climb(t, Made(op, left, right.value.e), right.value.pos, m)
  {
    if op.Sign? { ClimbSign(t, left, i, m, op.k, l); } else { ClimbMember(t, left, i, m, op == NotIn); }
  }

  lemma ClimbSign(t: seq<Token>, left: Expr, i: nat, m: nat, k: Kind, l: nat)
    requires i <= |t| && Peek(t, i) == k && AtLevel(Sign(k), l)
    ensures l < m ==> Climb(t, left, i, m) == Some(Parsed(left, i))
    ensures l >= m ==>
      var right := ParseExpr(t, i + 1, l + 1);
      Climb(t, left, i, m)
      == if right.None? then None else Climb(t, Binary(k, left, right.value.e), right.value.pos, m)
  {
    hide ParseExpr, AtLevel, Prec, Peek;
    PrecIs(k, l);
  }

  lemma ClimbMember(t: seq<Token>, left: Expr, i: nat, m: nat, neg: bool)
    requires i <= |t| && (if neg then Peek(t, i) == NOT && Peek(t, i + 1) == IN else Peek(t, i) == IN)
    ensures 3 < m ==> Climb(t, left, i, m) == Some(Parsed(left, i))
    ensures 3 >= m ==>
      var right := ParseExpr(t, if neg then i + 2 else i + 1, 4);
      Climb(t, left, i, m)
      == if right.None? then None else Climb(t, Member(neg, left, right.value.e), right.value.pos, m)
  {
    hide ParseExpr, Prec, Peek;
  }

  lemma RowPart(t: seq<Token>, i: nat, row: seq<Step>)
    requires row != [] && Row(t, i, row)
    ensures row[0].end <= |t| && i <= |t| && Row(t, row[0].end, row[1..])
    ensures var s := row[0];
      AtLevel(s.op, s.level) && OpAt(t, i, s.op) && ParseUnary(t, i + Width(s.op)) == Some(Parsed(s.e, s.end))
  {
    hide Row, ParseUnary;
    RowOpen(t, i, row);
  }

  lemma RowOpen(t: seq<Token>, i: nat, row: seq<Step>)
    requires row != [] && Row(t, i, row)
    ensures i <= |t| && row[0].end <= |t|
    ensures var s := row[0];
      AtLevel(s.op, s.level) && OpAt(t, i, s.op) && Operand(t, i + Width(s.op), s.e, s.end) && Row(t, s.end, row[1..])
  {
    hide ParseUnary;
  }

  /** The loop, from `left` on: it takes what is tight enough, grouped. */
  lemma {:induction false} Climbs(t: seq<Token>, left: Expr, i: nat, row: seq<Step>, m: nat)
    requires i <= |t| && Row(t, i, row)
    ensures var f := Taken(row, m); Climb(t, left, i, m) == Some(Parsed(Grouped(left, row[..f]), EndOf(i, row[..f])))
    decreases |row|, 0
  {
    hide Row, Climb, ParseExpr, ParseUnary, Grouped, AtLevel, OpAt, NoOp, Taken, EndOf, Made, Tighter, Peek;
    if row == [] {
      RowNone(t, i, row);
      ClimbStops(t, left, i, m);
      NothingTaken(left, i, row, Taken(row, m));
    } else {
      var s := row[0];
      RowPart(t, i, row);
      ClimbOp(t, left, i, m, s.op, s.level);
      TakenFirst(row, m);
      if s.level < m {
        NothingTaken(left, i, row, 0);
      } else {
        ParsesRow(t, i + Width(s.op), s.e, s.end, row[1..], s.level + 1);
        var f := 1 + Taken(row[1..], s.level + 1);
        var mid, left2 := EndOf(i, row[..f]), Made(s.op, left, Grouped(s.e, row[1..f]));
        SameStart(i, row, f);
        RowLater(t, i, row, f);
        Climbs(t, left2, mid, row[f..], m);
        TakenLater(row, f, m);
        SameEnd(i, row, f, Taken(row, m));
        Regroup(left, row[..Taken(row, m)], f);
      }
    }
  }

  lemma SameStart(i: nat, row: seq<Step>, f: nat)
    requires 0 < f <= |row|
    ensures row[1..][..f - 1] == row[1..f] && EndOf(row[0].end, row[1..][..f - 1]) == EndOf(i, row[..f])
  {
  }

  lemma SameEnd(i: nat, row: seq<Step>, f: nat, g: nat)
    requires 0 < f <= g <= |row|
    ensures row[..g][f..] == row[f..][..g - f] && row[..g][1..f] == row[1..f]
    ensures EndOf(EndOf(i, row[..f]), row[f..][..g - f]) == EndOf(i, row[..g])
  {
    assert row[f..][..g - f] == row[f..g];
  }

  lemma NothingTaken(left: Expr, i: nat, row: seq<Step>, f: nat)
    requires f <= |row| && (row == [] || f == 0)
    ensures Grouped(left, row[..f]) == left && EndOf(i, row[..f]) == i
  {
    hide Grouped;
    GroupedNone(left);
    assert row[..f] == [];
  }

  lemma RowNone(t: seq<Token>, i: nat, row: seq<Step>)
    requires row == [] && Row(t, i, row)
    ensures NoOp(t, i)
  {
  }

  lemma TakenFirst(row: seq<Step>, m: nat)
    requires row != []
    ensures row[0].level < m ==> Taken(row, m) == 0
  {
  }

  /** What is taken under `m` ends no earlier than what the first operator takes. */
  lemma TakenLater(row: seq<Step>, f: nat, m: nat)
    requires row != [] && row[0].level >= m && f == 1 + Taken(row[1..], row[0].level + 1)
    ensures f <= |row| && Taken(row, m) == f + Taken(row[f..], m)
    ensures var g := Taken(row, m); Tighter(row[..g], f) && (f < g ==> row[f].level <= row[0].level)
  {
    hide Taken;
    var g, h := Taken(row, m), Taken(row[f..], m);
    assert forall k :: 1 <= k < f ==> row[k] == row[1..][k - 1];
    assert forall k :: f <= k < |row| ==> row[k] == row[f..][k - f];
    assert f < |row| ==> row[f] == row[1..][f - 1];
  }

  lemma {:induction false} RowLater(t: seq<Token>, i: nat, row: seq<Step>, f: nat)
    requires i <= |t| && Row(t, i, row) && f <= |row|
    ensures EndOf(i, row[..f]) <= |t| && Row(t, EndOf(i, row[..f]), row[f..])
    decreases f
  {
    hide Row, ParseUnary, AtLevel, OpAt;
    if f == 0 {
      assert row[0..] == row;
    } else {
      RowPart(t, i, row);
      RowLater(t, row[0].end, row[1..], f - 1);
      assert row[1..][f - 1..] == row[f..] && row[1..][..f - 1] == row[..f][1..];
      if f > 1 { assert row[..f][f - 1] == row[1..][..f - 1][f - 2]; }
    }
  }

  /** An expression that starts with the operand `e`. */
  lemma {:induction false} ParsesRow(t: seq<Token>, i: nat, e: Expr, end: nat, row: seq<Step>, m: nat)
    requires ParseUnary(t, i) == Some(Parsed(e, end)) && Row(t, end, row)
    ensures var f := Taken(row, m); ParseExpr(t, i, m) == Some(Parsed(Grouped(e, row[..f]), EndOf(end, row[..f])))
    decreases |row|, 1
  {
    hide Row, Climb, ParseUnary, Grouped, Taken;
    Climbs(t, e, end, row, m);
  }

  // ---- the theorems ----

  /** Operands between binary operators, however many: the parser splits at the last of
      the loosest operators, and each side in the same way. */
  lemma Grouping(t: seq<Token>, i: nat, e: Expr, end: nat, row: seq<Step>)
    requires Operand(t, i, e, end) && Row(t, end, row)
    ensures ParseExpr(t, i, 0) == Some(Parsed(Grouped(e, row), EndOf(end, row)))
  {
    hide Row, ParseUnary, ParseExpr, Grouped, Taken;
    ParsesRow(t, i, e, end, row, 0);
    assert row[..Taken(row, 0)] == row;
  }

  /** Two operators: the tighter one first, and of equally tight ones the left one. */
  lemma TwoOperators(t: seq<Token>, i: nat, a: Expr, end: nat, s1: Step, s2: Step)
    requires Operand(t, i, a, end) && Row(t, end, [s1, s2])
    ensures ParseExpr(t, i, 0)
      == Some(Parsed(if s1.level < s2.level then Made(s1.op, a, Made(s2.op, s1.e, s2.e))
                     else Made(s2.op, Made(s1.op, a, s1.e), s2.e), s2.end))
  {
    hide Row, ParseUnary, ParseExpr, Grouped;
    var row := [s1, s2];
    Grouping(t, i, a, end, row);
    var q := if s1.level < s2.level then 0 else 1;
    SplitIs(row, q);
    GroupedAt(a, row, q);
    assert row[..0] == [] && row[..1] == [s1] && row[1..] == [s2] && row[2..] == [];
    OneOperator(a, s1);
    OneOperator(s1.e, s2);
    GroupedNone(a);
    GroupedNone(s2.e);
  }

  lemma OneOperator(a: Expr, s: Step)
    ensures Grouped(a, [s]) == Made(s.op, a, s.e)
  {
    hide Grouped;
    SplitIs([s], 0);
    GroupedAt(a, [s], 0);
    assert [s][..0] == [] && [s][1..] == [];
    GroupedNone(a);
    GroupedNone(s.e);
  }

  /** `not` takes the operands behind it up to the first `and` or `or`. */
  lemma NotTakes(t: seq<Token>, i: nat, e: Expr, end: nat, row: seq<Step>, f: nat)
    requires Peek(t, i) == NOT && Operand(t, i + 1, e, end) && Row(t, end, row) && f <= |row|
    requires forall k :: 0 <= k < f ==> row[k].level >= 3
    requires f < |row| ==> row[f].op == Sign(AND) || row[f].op == Sign(OR)
    ensures ParseUnary(t, i) == Some(Parsed(Unary(NOT, Grouped(e, row[..f])), EndOf(end, row[..f])))
  {
    hide Row, ParseExpr, Grouped, Taken;
    ParsesRow(t, i + 1, e, end, row, 3);
    if f < |row| {
      RowLater(t, end, row, f);
      RowPart(t, EndOf(end, row[..f]), row[f..]);
    }
    assert Taken(row, 3) == f;
  }

  /** `-` and `~` take the power behind them. */
  lemma MinusTakes(t: seq<Token>, i: nat, e: Expr, end: nat)
    requires (Peek(t, i) == MINUS || Peek(t, i) == TILDE) && ParseUnary(t, i + 1) == Some(Parsed(e, end))
    ensures Operand(t, i, Unary(Peek(t, i), e), end)
  {
    hide ParsePower;
  }

  /** `a ** b`, where `a` has no operator outside brackets and `b` may again be a power or
      have `-` or `~` in front: `**` groups to the right, tighter than a sign on its left
      and looser than one on its right. */
  lemma PowerTakes(t: seq<Token>, i: nat, a: Expr, j: nat, b: Expr, end: nat)
    requires ParsePostfix(t, i) == Some(Parsed(a, j)) && Peek(t, j) == DSTAR
    requires ParseUnary(t, j + 1) == Some(Parsed(b, end))
    ensures Operand(t, i, Binary(DSTAR, a, b), end)
  {
    hide ParsePostfix, ParseUnary, ParsePower;
    StartsPlain(t, i);
    UnaryIsPower(t, i);
    PowerIs(t, i);
  }

  /** Without `**` behind it, such an operand stands alone. */
  lemma PlainOperand(t: seq<Token>, i: nat, a: Expr, j: nat)
    requires ParsePostfix(t, i) == Some(Parsed(a, j)) && Peek(t, j) != DSTAR
    ensures Operand(t, i, a, j)
  {
    hide ParsePostfix, ParseUnary, ParsePower;
    StartsPlain(t, i);
    UnaryIsPower(t, i);
    PowerIs(t, i);
  }

  lemma UnaryIsPower(t: seq<Token>, i: nat)
    requires Peek(t, i) != NOT && Peek(t, i) != MINUS && Peek(t, i) != TILDE
    ensures ParseUnary(t, i) == ParsePower(t, i)
  {
    hide ParsePower, ParseExpr;
  }

  lemma PowerIs(t: seq<Token>, i: nat)
    requires ParsePostfix(t, i).Some?
    ensures var base := ParsePostfix(t, i).value;
      ParsePower(t, i)
      == if Peek(t, base.pos) != DSTAR then Some(base)
         else
           var x := ParseUnary(t, base.pos + 1);
           if x.None? then None else Some(Parsed(Binary(DSTAR, base.e, x.value.e), x.value.pos))
  {
    hide ParsePostfix, ParseUnary;
  }

  lemma StartsPlain(t: seq<Token>, i: nat)
    requires ParsePostfix(t, i).Some?
    ensures Peek(t, i) != NOT && Peek(t, i) != MINUS && Peek(t, i) != TILDE
  {
    hide Suffixes, ParseParens, ParseList, ParseBraces, ParseLambda;
  }
}
