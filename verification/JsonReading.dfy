/** loads accepts the texts of the grammar and no others, and returns what they mean. */
module JsonReading {
  import opened Common
  import opened JsonText
  import opened JsonGrammar
  import opened Stretches
  import opened Unicode

  // ---- white space ----

  lemma {:induction false} SkipOver(t: Bytes, i: nat, j: nat, ws: Bytes)
    requires White(ws) && Spans(t, i, j, ws) && !Blank(Peek(t, j))
    ensures SkipBlank(t, i) == j
    decreases |ws|
  {
    hide Spans;
    SpanLength(t, i, j, ws);
    if ws != [] {
      SpanAt(t, i, j, ws, 0);
      assert ws == [ws[0]] + ws[1..];
      SpanSplit(t, i, j, [ws[0]], ws[1..]);
      SkipOver(t, i + 1, j, ws[1..]);
    }
  }

  lemma {:induction false} SkipSound(t: Bytes, i: nat)
    requires i <= |t|
    ensures var j := SkipBlank(t, i);
      White(t[i..j]) && Spans(t, i, j, t[i..j]) && !Blank(Peek(t, j)) && SkipBlank(t, j) == j
    decreases |t| - i
  {
    var j := SkipBlank(t, i);
    if i < |t| && Blank(t[i]) {
      SkipSound(t, i + 1);
      assert t[i..j] == [t[i]] + t[i + 1..j];
    }
  }

  // ---- strings ----

  lemma HexSame(t: Bytes, i: nat)
    requires i + 4 <= |t|
    ensures ReadHex4(t, i) == if FourHex(t[i..i + 4]) then Some(Unit(t[i..i + 4])) else None
  {
    hide HexOf, HexValue;
    OneHex(t[i]);
    OneHex(t[i + 1]);
    OneHex(t[i + 2]);
    OneHex(t[i + 3]);
    var h := t[i..i + 4];
    assert h[0] == t[i] && h[1] == t[i + 1] && h[2] == t[i + 2] && h[3] == t[i + 3];
  }

  lemma OneHex(b: Byte)
    ensures HexValue(b) == if IsHex(b) then Some(HexOf(b)) else None
  {
  }

  lemma HexOk(t: Bytes, i: nat, j: nat, h: Bytes)
    requires FourHex(h) && Spans(t, i, j, h)
    ensures ReadHex4(t, i) == Some(Unit(h)) && j == i + 4
  {
    hide ReadHex4, Unit;
    SpanLength(t, i, j, h);
    HexSame(t, i);
  }

  lemma Utf8Decodes(cp: nat)
    requires cp < 0x110000
    ensures Decode(Utf8(cp)) == Some(cp) && Utf8(cp) == CodeBytes(cp)
  {
    hide Then, Continues;
    var low, next, top := cp / 64, cp / 64 / 64, cp / 64 / 64 / 64;
    ThenOf(cp);
    ThenOf(low);
    ThenOf(next);
    Quotients(cp);
    assert Decode(Utf8(cp)) == Some(cp);
    OneCode(Utf8(cp), CodeBytes(cp));
  }

  lemma Quotients(cp: nat)
    ensures cp / 4096 == cp / 64 / 64 && cp / 262144 == cp / 64 / 64 / 64
  {
  }

  /** `\u` and four digits. */
  lemma UnitOk(t: Bytes, i: nat, j: nat, h: Bytes)
    requires FourHex(h) && Spans(t, i, j, [92, 117] + h)
    ensures j == i + 6 <= |t| && t[i] == 92 && t[i + 1] == 117 && ReadHex4(t, i + 2) == Some(Unit(h))
  {
    hide Spans, ReadHex4, FourHex, Unit;
    SpanAt(t, i, j, [92, 117] + h, 0);
    SpanAt(t, i, j, [92, 117] + h, 1);
    SpanSplit(t, i, j, [92, 117], h);
    HexOk(t, i + 2, j, h);
  }

  lemma SurrogatesRead(t: Bytes, i: nat, high: nat, low: nat)
    requires i + 12 <= |t| && t[i + 1] == 117 && t[i + 6] == 92 && t[i + 7] == 117
    requires ReadHex4(t, i + 2) == Some(high) && 0xD800 <= high < 0xDC00
    requires ReadHex4(t, i + 8) == Some(low) && 0xDC00 <= low < 0xE000
    ensures ReadEscape(t, i + 1) == Some(Read(Utf8(0x10000 + 1024 * (high - 0xD800) + (low - 0xDC00)), i + 12))
  {
    hide ReadHex4, Utf8;
  }

  lemma PairOk(t: Bytes, i: nat, j: nat, h: Bytes, l: Bytes)
    requires ValidChr(Pair(h, l)) && Spans(t, i, j, ChrText(Pair(h, l)))
    ensures i < j <= |t| && t[i] == 92 && ReadEscape(t, i + 1) == Some(Read(ChrMeans(Pair(h, l)), j))
  {
    hide Spans, ReadHex4, Utf8, FourHex, Unit, ReadEscape;
    SpanSplit(t, i, j, [92, 117] + h, [92, 117] + l);
    UnitOk(t, i, i + |[92, 117] + h|, h);
    UnitOk(t, i + 6, j, l);
    SurrogatesRead(t, i, Unit(h), Unit(l));
    Utf8Decodes(0x10000 + 1024 * (Unit(h) - 0xD800) + (Unit(l) - 0xDC00));
  }

  lemma EscapeOk(t: Bytes, i: nat, j: nat, c: Chr)
    requires ValidChr(c) && !c.Raw? && Spans(t, i, j, ChrText(c))
    ensures i < j <= |t| && t[i] == 92 && ReadEscape(t, i + 1) == Some(Read(ChrMeans(c), j))
  {
    hide Spans, ReadHex4, Utf8, FourHex, Unit;
    match c
    case Short(e) =>
      SpanAt(t, i, j, ChrText(c), 0);
      SpanAt(t, i, j, ChrText(c), 1);
    case Code(h) =>
      UnitOk(t, i, j, h);
      Utf8Decodes(Unit(h));
    case Pair(h, l) => PairOk(t, i, j, h, l);
  }

  lemma {:induction false} CharsOk(t: Bytes, i: nat, j: nat, cs: seq<Chr>, acc: Bytes)
    requires ValidChrs(cs) && Spans(t, i, j, ChrsText(cs) + [34])
    ensures ReadChars(t, i, acc) == Some(Read(acc + ChrsMean(cs), j))
    decreases |cs|
  {
    hide Spans, ValidChr, ChrText, ChrMeans, ReadEscape;
    if cs == [] {
      assert ChrsText(cs) + [34] == [34] && acc + ChrsMean(cs) == acc;
      SpanAt(t, i, j, [34], 0);
    } else {
      var a, z := ChrText(cs[0]), ChrsText(cs[1..]);
      assert ChrsText(cs) + [34] == a + (z + [34]);
      SpanSplit(t, i, j, a, z + [34]);
      CharOk(t, i, i + |a|, cs[0], acc);
      CharsOk(t, i + |a|, j, cs[1..], acc + ChrMeans(cs[0]));
      assert acc + ChrMeans(cs[0]) + ChrsMean(cs[1..]) == acc + ChrsMean(cs);
    }
  }

  lemma CharOk(t: Bytes, i: nat, j: nat, c: Chr, acc: Bytes)
    requires ValidChr(c) && Spans(t, i, j, ChrText(c))
    ensures j <= |t| && ReadChars(t, i, acc) == ReadChars(t, j, acc + ChrMeans(c))
  {
    hide Spans, ReadEscape;
    if c.Raw? { SpanAt(t, i, j, ChrText(c), 0); } else { EscapeOk(t, i, j, c); }
  }

  lemma StringOk(t: Bytes, i: nat, j: nat, cs: seq<Chr>)
    requires ValidChrs(cs) && Spans(t, i, j, QuotedText(cs))
    ensures ReadString(t, i) == Some(Read(ChrsMean(cs), j)) && i < |t| && t[i] == 34
  {
    hide Spans, ValidChrs, ChrsText, ChrsMean, ReadChars;
    SpanAt(t, i, j, QuotedText(cs), 0);
    SpanSplit(t, i, j, [34], ChrsText(cs) + [34]);
    CharsOk(t, i + 1, j, cs, []);
    assert [] + ChrsMean(cs) == ChrsMean(cs);
  }

  lemma EscapeSound(t: Bytes, i: nat) returns (c: Chr)
    requires i < |t| && t[i] == 92 && ReadEscape(t, i + 1).Some?
    ensures var r := ReadEscape(t, i + 1).value;
      ValidChr(c) && !c.Raw? && Spans(t, i, r.pos, ChrText(c)) && r.v == ChrMeans(c)
  {
    hide Utf8, FourHex, Unit, ReadHex4;
    var e := t[i + 1];
    if e != 117 { c := Short(e); }
    else {
      HexSame(t, i + 2);
      var h := t[i + 2..i + 6];
      assert t[i..i + 6] == [92, 117] + h;
      if 0xD800 <= Unit(h) < 0xDC00 {
        HexSame(t, i + 8);
        var l := t[i + 8..i + 12];
        assert t[i + 6..i + 12] == [92, 117] + l;
        assert t[i..i + 12] == t[i..i + 6] + t[i + 6..i + 12];
        c := Pair(h, l);
        Utf8Decodes(0x10000 + 1024 * (Unit(h) - 0xD800) + (Unit(l) - 0xDC00));
      } else {
        c := Code(h);
        Utf8Decodes(Unit(h));
      }
    }
  }

  lemma {:induction false} CharsSound(t: Bytes, i: nat, acc: Bytes) returns (cs: seq<Chr>)
    requires ReadChars(t, i, acc).Some?
    ensures var r := ReadChars(t, i, acc).value;
      ValidChrs(cs) && Spans(t, i, r.pos, ChrsText(cs) + [34]) && r.v == acc + ChrsMean(cs)
    decreases |t| - i
  {
    hide Spans, ValidChr, ChrText, ChrMeans, ReadEscape;
    if t[i] == 34 {
      cs := [];
      OneByte(t, i);
      assert ChrsText([]) + [34] == [34] && acc + ChrsMean([]) == acc;
    } else {
      var c, j := CharSound(t, i, acc);
      var rest := CharsSound(t, j, acc + ChrMeans(c));
      cs := [c] + rest;
      SpanJoin(t, i, j, ReadChars(t, i, acc).value.pos, ChrText(c), ChrsText(rest) + [34]);
      assert cs[1..] == rest;
      assert ChrText(c) + (ChrsText(rest) + [34]) == ChrsText(cs) + [34];
      assert acc + ChrMeans(c) + ChrsMean(rest) == acc + ChrsMean(cs);
    }
  }

  lemma CharSound(t: Bytes, i: nat, acc: Bytes) returns (c: Chr, j: nat)
    requires ReadChars(t, i, acc).Some? && t[i] != 34
    ensures i < j && ValidChr(c) && Spans(t, i, j, ChrText(c))
    ensures ReadChars(t, i, acc) == ReadChars(t, j, acc + ChrMeans(c))
  {
    hide ReadEscape, Spans;
    if t[i] == 92 {
      c := EscapeSound(t, i);
      j := ReadEscape(t, i + 1).value.pos;
    } else {
      c, j := Raw(t[i]), i + 1;
      OneByte(t, i);
    }
  }

  lemma StringSound(t: Bytes, i: nat) returns (cs: seq<Chr>)
    requires ReadString(t, i).Some?
    ensures var r := ReadString(t, i).value;
      ValidChrs(cs) && Spans(t, i, r.pos, QuotedText(cs)) && r.v == ChrsMean(cs)
  {
    hide Spans, ValidChrs, ChrsText, ChrsMean, ReadChars;
    cs := CharsSound(t, i + 1, []);
    OneByte(t, i);
    SpanJoin(t, i, i + 1, ReadString(t, i).value.pos, [34], ChrsText(cs) + [34]);
    assert [] + ChrsMean(cs) == ChrsMean(cs);
  }

  // ---- numbers ----

  /** What may follow a value: the end, white space, a comma or a closing bracket. */
  predicate Closes(c: int) { c in {-1, 32, 9, 10, 13, 44, 93, 125} }

  lemma {:induction false} DecimalMore(s: Bytes, d: Byte)
    ensures Decimal(s + [d]) == 10 * Decimal(s) + (d - 48)
  {
    if s == [] {
      assert s + [d] == [d];
    } else {
      DecimalMore(s[1..], d);
      assert (s + [d])[1..] == s[1..] + [d];
      TenTimes(s[0] as int - 48, TenTo(|s| - 1));
    }
  }

  lemma TenTimes(a: int, b: int)
    ensures a * (10 * b) == 10 * (a * b)
  {
  }

  lemma {:induction false} ValueSame(s: Bytes)
    ensures NatValue(s) == Decimal(s)
    decreases |s|
  {
    if s != [] {
      var k := |s| - 1;
      ValueSame(s[..k]);
      DecimalMore(s[..k], s[k]);
      assert s[..k] + [s[k]] == s;
    }
  }

  lemma {:induction false} DigitsOk(t: Bytes, i: nat, j: nat, ds: Bytes)
    requires AllDigits(ds) && Spans(t, i, j, ds) && !IsDigit(Peek(t, j))
    ensures Digits(t, i) == j && IsDigit(Peek(t, i))
    decreases |ds|
  {
    hide Spans;
    SpanAt(t, i, j, ds, 0);
    if |ds| > 1 {
      assert ds == [ds[0]] + ds[1..];
      SpanSplit(t, i, j, [ds[0]], ds[1..]);
      DigitsOk(t, i + 1, j, ds[1..]);
    }
  }

  lemma {:induction false} DigitsSound(t: Bytes, i: nat)
    requires i < |t| && IsDigit(t[i])
    ensures var j := Digits(t, i); i < j && AllDigits(t[i..j]) && Spans(t, i, j, t[i..j])
    decreases |t| - i
  {
    var j := Digits(t, i);
    if i + 1 < |t| && IsDigit(t[i + 1]) { DigitsSound(t, i + 1); }
    assert t[i..j] == [t[i]] + t[i + 1..j];
  }

  lemma FractionOk(t: Bytes, i: nat, j: nat, f: Option<Bytes>)
    requires (f.Some? ==> AllDigits(f.value)) && Spans(t, i, j, FracText(f))
    requires !IsDigit(Peek(t, j)) && Peek(t, j) != 46
    ensures Fraction(t, i) == Some(j) && !IsDigit(Peek(t, i))
  {
    hide Spans, Digits, AllDigits;
    SpanLength(t, i, j, FracText(f));
    if f.Some? {
      SpanAt(t, i, j, FracText(f), 0);
      SpanSplit(t, i, j, [46], f.value);
      DigitsOk(t, i + 1, j, f.value);
    }
  }

  lemma FractionSound(t: Bytes, i: nat) returns (f: Option<Bytes>)
    requires i <= |t| && Fraction(t, i).Some?
    ensures var j := Fraction(t, i).value;
      (f.Some? ==> AllDigits(f.value)) && Spans(t, i, j, FracText(f)) && (f.None? <==> i == j)
  {
    hide Digits, AllDigits;
    f := None;
    if Peek(t, i) == 46 {
      DigitsSound(t, i + 1);
      f := Some(t[i + 1..Digits(t, i + 1)]);
      assert t[i..Digits(t, i + 1)] == FracText(f);
    }
  }

  lemma ExponentOk(t: Bytes, i: nat, j: nat, e: Option<Exp>)
    requires e.Some? ==> ValidExp(e.value)
    requires Spans(t, i, j, ExpText(e)) && Closes(Peek(t, j))
    ensures Exponent(t, i) == Some(j) && !IsDigit(Peek(t, i)) && Peek(t, i) != 46
  {
    hide Spans, Digits, AllDigits;
    SpanLength(t, i, j, ExpText(e));
    if e.Some? {
      var x := e.value;
      SpanAt(t, i, j, ExpText(e), 0);
      assert ExpText(e) == [x.mark] + (x.sign + x.digits);
      SpanSplit(t, i, j, [x.mark], x.sign + x.digits);
      SpanSplit(t, i + 1, j, x.sign, x.digits);
      if x.sign != [] { SpanAt(t, i + 1, i + 1 + |x.sign|, x.sign, 0); }
      DigitsOk(t, i + 1 + |x.sign|, j, x.digits);
    }
  }

  lemma ExponentSound(t: Bytes, i: nat) returns (e: Option<Exp>)
    requires i <= |t| && Exponent(t, i).Some?
    ensures var j := Exponent(t, i).value;
      (e.Some? ==> ValidExp(e.value)) && Spans(t, i, j, ExpText(e)) && (e.None? <==> i == j)
  {
    hide Digits, AllDigits, Spans;
    e := None;
    if Peek(t, i) == 101 || Peek(t, i) == 69 {
      var signed := Peek(t, i + 1) == 43 || Peek(t, i + 1) == MINUS;
      var k := if signed then i + 2 else i + 1;
      var sign: Bytes := if signed then [t[i + 1]] else [];
      DigitsSound(t, k);
      e := Some(Exp(t[i], sign, t[k..Digits(t, k)]));
      OneByte(t, i);
      if signed { OneByte(t, i + 1); } else { NoBytes(t, i + 1); }
      SpanJoin(t, i, i + 1, k, [t[i]], sign);
      SpanJoin(t, i, k, Digits(t, k), [t[i]] + sign, t[k..Digits(t, k)]);
    } else {
      NoBytes(t, i);
    }
  }

  /** A number without its sign, fraction and exponent. */
  lemma WholeOk(t: Bytes, i: nat, j: nat, ds: Bytes)
    requires AllDigits(ds) && (|ds| > 1 ==> ds[0] != 48) && Spans(t, i, j, ds) && !IsDigit(Peek(t, j))
    ensures i < j <= |t| && IsDigit(t[i]) && (if t[i] == DIGIT_0 then i + 1 else Digits(t, i)) == j
  {
    hide Spans;
    SpanAt(t, i, j, ds, 0);
    DigitsOk(t, i, j, ds);
  }

  lemma WholeSound(t: Bytes, i: nat)
    requires i < |t| && IsDigit(t[i])
    ensures var j := if t[i] == DIGIT_0 then i + 1 else Digits(t, i);
      && i < j && AllDigits(t[i..j]) && Spans(t, i, j, t[i..j])
      && (|t[i..j]| > 1 ==> t[i..j][0] != 48)
  {
    DigitsSound(t, i);
  }

  lemma TokenMeans(n: Num)
    requires ValidNum(n)
    ensures n.frac.None? && n.exp.None? ==>
      IntValue(NumText(n)) == Clamped(if n.neg then -Decimal(n.whole) else Decimal(n.whole))
  {
    hide NatValue, Decimal;
    ValueSame(n.whole);
    var s := NumText(n);
    if n.frac.None? && n.exp.None? {
      assert s == Sign(n.neg) + n.whole;
      assert if n.neg then s[1..] == n.whole else s == n.whole;
    }
  }

  /** Where the parts of a number are. */
  lemma NumberParts(t: Bytes, i: nat, j: nat, n: Num) returns (a: nat, b: nat, c: nat)
    requires Spans(t, i, j, NumText(n))
    ensures if n.neg then a == i + 1 && Peek(t, i) == 45 else a == i
    ensures Spans(t, a, b, n.whole) && Spans(t, b, c, FracText(n.frac)) && Spans(t, c, j, ExpText(n.exp))
    ensures (n.frac.None? <==> b == c) && (n.exp.None? <==> c == j)
  {
    hide Spans, FracText, ExpText;
    var sign, f, e := Sign(n.neg), FracText(n.frac), ExpText(n.exp);
    a, b := i + |sign|, i + |sign| + |n.whole|;
    c := b + |f|;
    SpanSplit(t, i, j, sign + n.whole + f, e);
    SpanSplit(t, i, c, sign + n.whole, f);
    SpanSplit(t, i, b, sign, n.whole);
    if n.neg { SpanAt(t, i, a, sign, 0); }
    SpanLength(t, c, j, e);
    PartsThere(n);
  }

  /** A fraction or an exponent that is there has a text. */
  lemma PartsThere(n: Num)
    ensures (n.frac.None? <==> FracText(n.frac) == []) && (n.exp.None? <==> ExpText(n.exp) == [])
  {
  }

  lemma NumberOk(t: Bytes, i: nat, j: nat, n: Num)
    requires ValidNum(n) && Spans(t, i, j, NumText(n)) && Closes(Peek(t, j))
    ensures i < j <= |t| && ReadNumber(t, i) == Some(Read(NumMeans(n), j))
    ensures t[i] == 45 || 48 <= t[i] <= 57
  {
    hide Spans, Digits, AllDigits, IntValue, Fraction, Exponent, Decimal, NumText, FracText, ExpText, Closes;
    var a, b, c := NumberParts(t, i, j, n);
    ExponentOk(t, c, j, n.exp);
    FractionOk(t, b, c, n.frac);
    WholeOk(t, a, b, n.whole);
    TokenMeans(n);
    SpanIs(t, i, j, NumText(n));
    SpanIs(t, b, c, FracText(n.frac));
    SpanIs(t, c, j, ExpText(n.exp));
  }

  lemma NumberSound(t: Bytes, i: nat) returns (n: Num)
    requires ReadNumber(t, i).Some?
    ensures var r := ReadNumber(t, i).value; ValidNum(n) && Spans(t, i, r.pos, NumText(n)) && r.v == NumMeans(n)
  {
    hide Spans, Digits, AllDigits, IntValue, Fraction, Exponent, Decimal;
    var a := if Peek(t, i) == MINUS then i + 1 else i;
    var b := if t[a] == DIGIT_0 then a + 1 else Digits(t, a);
    WholeSound(t, a);
    var f := FractionSound(t, b);
    var c := Fraction(t, b).value;
    var e := ExponentSound(t, c);
    var j := Exponent(t, c).value;
    n := Num(Peek(t, i) == MINUS, t[a..b], f, e);
    var sign := Sign(n.neg);
    if n.neg { OneByte(t, i); } else { NoBytes(t, i); }
    SpanJoin(t, i, a, b, sign, n.whole);
    SpanJoin(t, i, b, c, sign + n.whole, FracText(f));
    SpanJoin(t, i, c, j, sign + n.whole + FracText(f), ExpText(e));
    SpanIs(t, i, j, NumText(n));
    SpanIs(t, i, b, sign + n.whole);
    TokenMeans(n);
  }

  // ---- values ----

  lemma NumberStart(n: Num)
    requires ValidNum(n)
    ensures NumText(n) != [] && var c := NumText(n)[0]; c == 45 || 48 <= c <= 57
  {
  }

  /** How a value starts. */
  lemma NodeStart(t: Bytes, i: nat, j: nat, n: Node)
    requires ValidNode(n) && Spans(t, i, j, NodeText(n))
    ensures i < j <= |t| && !Blank(t[i]) && t[i] != 93 && t[i] != 125
  {
    hide Spans, ValidItems, ValidEntries, ItemsText, EntriesText, ChrsText, ValidChrs, ValidNum, NumText;
    if n.Number? { NumberStart(n.n); }
    assert NodeText(n) != [];
    SpanLength(t, i, j, NodeText(n));
    SpanAt(t, i, j, NodeText(n), 0);
  }

  lemma LitOk(t: Bytes, i: nat, j: nat, lit: Bytes)
    requires Spans(t, i, j, lit)
    ensures LitAt(t, i, lit)
  {
    SpanLength(t, i, j, lit);
  }

  lemma {:induction false} NodeOk(t: Bytes, i: nat, j: nat, n: Node)
    requires ValidNode(n) && Spans(t, i, j, NodeText(n)) && Closes(Peek(t, j))
    ensures i < j && ReadValue(t, i) == Some(Read(NodeMeans(n), j))
    decreases n, 2
  {
    hide Spans, ValidItems, ValidEntries, ItemsText, EntriesText, QuotedText, ValidChrs, ValidNum, NumText,
      ItemsMean, EntriesMean, ReadValue, ChrsMean, NumMeans, White;
    match n
    case Array(its) => ArrayOk(t, i, j, its);
    case Object(es) => ObjectOk(t, i, j, es);
    case _ => SimpleOk(t, i, j, n);
  }

  lemma SimpleOk(t: Bytes, i: nat, j: nat, n: Node)
    requires ValidNode(n) && Spans(t, i, j, NodeText(n)) && Closes(Peek(t, j)) && !n.Array? && !n.Object?
    ensures i < j && ReadValue(t, i) == Some(Read(NodeMeans(n), j))
  {
    hide Spans, QuotedText, ValidChrs, ValidNum, NumText, ChrsMean, NumMeans, White, ReadElements, ReadMembers,
      ReadNumber, ReadString, SkipBlank, LitAt;
    NodeStart(t, i, j, n);
    SkipNone(t, i);
    SpanLength(t, i, j, NodeText(n));
    SpanAt(t, i, j, NodeText(n), 0);
    match n
    case NullWord => LitOk(t, i, j, NodeText(n));
    case TrueWord => LitOk(t, i, j, NodeText(n));
    case FalseWord => LitOk(t, i, j, NodeText(n));
    case Number(x) => NumberOk(t, i, j, x);
    case Quoted(cs) => StringOk(t, i, j, cs);
    case EmptyArray(ws) => EmptyOk(t, i, j, 91, ws, 93);
    case EmptyObject(ws) => EmptyOk(t, i, j, 123, ws, 125);
  }

  lemma SkipNone(t: Bytes, i: nat)
    requires i < |t| && !Blank(t[i])
    ensures SkipBlank(t, i) == i
  {
  }

  lemma EmptyOk(t: Bytes, i: nat, j: nat, open: Byte, ws: Bytes, close: Byte)
    requires White(ws) && Spans(t, i, j, [open] + (ws + [close])) && (close == 93 || close == 125)
    ensures i + 1 <= j - 1 < |t| && t[i] == open && t[j - 1] == close && SkipBlank(t, i + 1) == j - 1
  {
    hide Spans, White;
    var k := i + 1 + |ws|;
    SpanAt(t, i, j, [open] + (ws + [close]), 0);
    SpanSplit(t, i, j, [open], ws + [close]);
    SpanSplit(t, i + 1, j, ws, [close]);
    SpanAt(t, k, j, [close], 0);
    SkipOver(t, i + 1, k, ws);
  }

  /** The brackets around what is not empty. */
  lemma Inside(t: Bytes, i: nat, j: nat, open: Byte, s: Bytes, close: Byte)
    requires Spans(t, i, j, [open] + (s + [close]))
    ensures i + 1 <= j <= |t| && t[i] == open && Spans(t, i + 1, j, s + [close])
  {
    hide Spans;
    SpanAt(t, i, j, [open] + (s + [close]), 0);
    SpanSplit(t, i, j, [open], s + [close]);
    SpanLength(t, i, j, [open] + (s + [close]));
  }

  /** Skipping white space first makes no difference. */
  lemma SkipElements(t: Bytes, i: nat, acc: seq<Json>)
    requires i <= |t|
    ensures ReadElements(t, SkipBlank(t, i), acc) == ReadElements(t, i, acc)
  {
    hide SkipBlank, ReadValue;
    SkipSound(t, i);
  }

  lemma SkipMembers(t: Bytes, i: nat, acc: map<Bytes, Json>)
    requires i <= |t|
    ensures ReadMembers(t, SkipBlank(t, i), acc) == ReadMembers(t, i, acc)
  {
    hide SkipBlank, ReadValue, ReadString;
    SkipSound(t, i);
  }

  lemma {:induction false} ItemOk(t: Bytes, i: nat, j: nat, it: Item)
    requires ValidItem(it) && Spans(t, i, j, ItemText(it)) && Peek(t, j) in {-1, 44, 93, 125}
    ensures i < j <= |t|
    ensures var r := ReadValue(t, SkipBlank(t, i));
      r.Some? && r.value.v == NodeMeans(it.node) && SkipBlank(t, r.value.pos) == j
    ensures var c := Peek(t, SkipBlank(t, i)); c != 93 && c != 125
    decreases it.node, 3
  {
    hide Spans, White, ReadValue, ValidNode, NodeText, NodeMeans, SkipBlank, Blank;
    var s := NodeText(it.node);
    var a, b := i + |it.pre|, i + |it.pre| + |s|;
    SpanSplit(t, i, j, it.pre, s + it.post);
    SpanSplit(t, a, j, s, it.post);
    NodeStart(t, a, b, it.node);
    NotBlank(t, j);
    SkipOver(t, i, a, it.pre);
    SkipOver(t, b, j, it.post);
    PostCloses(t, b, j, it.post);
    NodeOk(t, a, b, it.node);
    SpanLength(t, b, j, it.post);
  }

  lemma NotBlank(t: Bytes, j: nat)
    requires Peek(t, j) in {-1, 44, 93, 125}
    ensures !Blank(Peek(t, j))
  {
  }

  lemma PostCloses(t: Bytes, i: nat, j: nat, ws: Bytes)
    requires White(ws) && Spans(t, i, j, ws) && Peek(t, j) in {-1, 44, 93, 125}
    ensures Closes(Peek(t, i))
  {
    hide Spans;
    SpanLength(t, i, j, ws);
    if ws != [] { SpanAt(t, i, j, ws, 0); }
  }

  lemma {:induction false} ArrayOk(t: Bytes, i: nat, j: nat, its: seq<Item>)
    requires its != [] && ValidItems(its) && Spans(t, i, j, [91] + (ItemsText(its) + [93]))
    ensures i < j && ReadValue(t, i) == Some(Read(Arr(ItemsMean(its)), j))
    decreases its, 3
  {
    hide Spans, ValidItems, ItemsText, ItemsMean, ReadElements, ReadMembers, ReadNumber, ReadString, SkipBlank;
    Inside(t, i, j, 91, ItemsText(its), 93);
    SkipNone(t, i);
    ItemsOk(t, i + 1, j, its, []);
    SkipElements(t, i + 1, []);
    assert [] + ItemsMean(its) == ItemsMean(its);
  }

  /** The first item, and what follows it. */
  lemma ItemsParts(its: seq<Item>)
    requires its != [] && ValidItems(its)
    ensures ValidItem(its[0]) && ValidItems(its[1..])
    ensures ItemsMean(its) == [NodeMeans(its[0].node)] + ItemsMean(its[1..])
    ensures |its| == 1 ==> ItemsText(its) == ItemText(its[0])
    ensures |its| > 1 ==> ItemsText(its) == ItemText(its[0]) + ([44] + ItemsText(its[1..]))
  {
    hide NodeText, NodeMeans, ValidNode, White, Around;
  }

  lemma {:induction false} ItemsOk(t: Bytes, i: nat, j: nat, its: seq<Item>, acc: seq<Json>)
    requires its != [] && ValidItems(its) && Spans(t, i, j, ItemsText(its) + [93])
    ensures i < j <= |t| && ReadElements(t, i, acc) == Some(Read(Arr(acc + ItemsMean(its)), j))
    ensures Peek(t, SkipBlank(t, i)) != 93
    decreases its, 1
  {
    hide Spans, ValidItems, ItemsText, ItemsMean, ReadElements, ReadValue, SkipBlank, NodeMeans, ItemText, ValidNode,
      White;
    ItemsParts(its);
    var v := NodeMeans(its[0].node);
    var a := i + |ItemText(its[0])|;
    if |its| == 1 {
      SpanSplit(t, i, j, ItemText(its[0]), [93]);
      SpanAt(t, a, j, [93], 0);
      ItemOk(t, i, a, its[0]);
      ElementStep(t, i, a, v, acc);
      NoItems(its[1..], acc, v);
    } else {
      var rest := ItemsText(its[1..]);
      assert ItemsText(its) + [93] == ItemText(its[0]) + ([44] + (rest + [93]));
      SpanSplit(t, i, j, ItemText(its[0]), [44] + (rest + [93]));
      SpanAt(t, a, j, [44] + (rest + [93]), 0);
      SpanSplit(t, a, j, [44], rest + [93]);
      ItemOk(t, i, a, its[0]);
      ItemsOk(t, a + 1, j, its[1..], acc + [v]);
      ElementStep(t, i, a, v, acc);
      assert acc + [v] + ItemsMean(its[1..]) == acc + ItemsMean(its);
    }
  }

  lemma NoItems(its: seq<Item>, acc: seq<Json>, v: Json)
    requires its == []
    ensures ItemsMean(its) == [] && acc + ([v] + ItemsMean(its)) == acc + [v]
  {
  }

  /** One element and the comma or bracket after it. */
  lemma ElementStep(t: Bytes, i: nat, j: nat, v: Json, acc: seq<Json>)
    requires i <= |t| && j < |t|
    requires var r := ReadValue(t, SkipBlank(t, i)); r.Some? && r.value.v == v && SkipBlank(t, r.value.pos) == j
    ensures t[j] == 44 ==> ReadElements(t, i, acc) == ReadElements(t, j + 1, acc + [v])
    ensures t[j] == 93 ==> ReadElements(t, i, acc) == Some(Read(Arr(acc + [v]), j + 1))
  {
    hide ReadValue, SkipBlank;
  }

  // ---- objects ----

  lemma {:induction false} ObjectOk(t: Bytes, i: nat, j: nat, es: seq<Entry>)
    requires es != [] && ValidEntries(es) && Spans(t, i, j, [123] + (EntriesText(es) + [125]))
    ensures i < j && ReadValue(t, i) == Some(Read(Obj(EntriesMean(es, map[])), j))
    decreases es, 3
  {
    hide Spans, ValidEntries, EntriesText, EntriesMean, ReadElements, ReadMembers, ReadNumber, ReadString, SkipBlank;
    Inside(t, i, j, 123, EntriesText(es), 125);
    SkipNone(t, i);
    EntriesOk(t, i + 1, j, es, map[]);
    SkipMembers(t, i + 1, map[]);
  }

  lemma EntriesParts(es: seq<Entry>, acc: map<Bytes, Json>)
    requires es != [] && ValidEntries(es)
    ensures White(es[0].pre) && ValidChrs(es[0].key) && White(es[0].mid) && ValidItem(es[0].val)
    ensures ValidEntries(es[1..])
    ensures EntriesMean(es, acc) == EntriesMean(es[1..], acc[ChrsMean(es[0].key) := NodeMeans(es[0].val.node)])
    ensures |es| == 1 ==> EntriesText(es) == KeyText(es[0]) + ItemText(es[0].val)
    ensures |es| > 1 ==> EntriesText(es) == KeyText(es[0]) + ItemText(es[0].val) + ([44] + EntriesText(es[1..]))
  {
    hide NodeText, NodeMeans, ValidNode, White, Around, KeyText, ChrsMean, ValidChrs;
  }

  lemma KeyOk(t: Bytes, i: nat, j: nat, e: Entry)
    requires White(e.pre) && ValidChrs(e.key) && White(e.mid) && Spans(t, i, j, KeyText(e))
    ensures i < j <= |t| && t[j - 1] == 58 && Peek(t, SkipBlank(t, i)) == 34
    ensures var key := ReadString(t, SkipBlank(t, i));
      key.Some? && key.value.v == ChrsMean(e.key) && SkipBlank(t, key.value.pos) == j - 1
  {
    hide Spans, White, ValidChrs, QuotedText, SkipBlank, ReadString, ChrsMean;
    var q := QuotedText(e.key);
    var a, b := i + |e.pre|, i + |e.pre| + |q|;
    SpanSplit(t, i, j, e.pre, q + (e.mid + [58]));
    SpanSplit(t, a, j, q, e.mid + [58]);
    SpanSplit(t, b, j, e.mid, [58]);
    SpanAt(t, b + |e.mid|, j, [58], 0);
    StringOk(t, a, b, e.key);
    SkipOver(t, i, a, e.pre);
    SkipOver(t, b, j - 1, e.mid);
  }

  /** What follows the first member. */
  function Tail(es: seq<Entry>): Bytes
    requires es != []
  {
    if |es| == 1 then [125] else [44] + (EntriesText(es[1..]) + [125])
  }

  lemma EntriesSplit(es: seq<Entry>)
    requires es != [] && ValidEntries(es)
    ensures EntriesText(es) + [125] == KeyText(es[0]) + (ItemText(es[0].val) + Tail(es))
    ensures Tail(es) != [] && Tail(es)[0] == if |es| == 1 then 125 else 44
  {
    hide EntriesText, EntriesMean, KeyText, ItemText, ValidEntries, ValidNode, NodeMeans, ChrsMean, ValidChrs, White;
    EntriesParts(es, map[]);
    var k, v := KeyText(es[0]), ItemText(es[0].val);
    if |es| == 1 { Assoc(k, v, [125]); } else { Assoc5(k, v, [44], EntriesText(es[1..]), [125]); }
  }

  lemma Assoc(a: Bytes, b: Bytes, c: Bytes)
    ensures a + b + c == a + (b + c)
  {
  }

  lemma Assoc5(a: Bytes, b: Bytes, c: Bytes, d: Bytes, e: Bytes)
    ensures a + b + (c + d) + e == a + (b + (c + (d + e)))
  {
  }

  lemma {:induction false} EntriesOk(t: Bytes, i: nat, j: nat, es: seq<Entry>, acc: map<Bytes, Json>)
    requires es != [] && ValidEntries(es) && Spans(t, i, j, EntriesText(es) + [125])
    ensures i < j <= |t| && ReadMembers(t, i, acc) == Some(Read(Obj(EntriesMean(es, acc)), j))
    ensures Peek(t, SkipBlank(t, i)) != 125
    decreases es, 1
  {
    hide Spans, ValidEntries, EntriesText, EntriesMean, ReadMembers, ReadValue, ReadString, SkipBlank, NodeMeans,
      ItemText, ValidNode, KeyText, ChrsMean, ValidChrs, White, Tail;
    EntriesParts(es, acc);
    EntriesSplit(es);
    var key, v := ChrsMean(es[0].key), NodeMeans(es[0].val.node);
    var k, s := KeyText(es[0]), ItemText(es[0].val);
    var a, b := i + |k|, i + |k| + |s|;
    SpanSplit(t, i, j, k, s + Tail(es));
    SpanSplit(t, a, j, s, Tail(es));
    SpanAt(t, b, j, Tail(es), 0);
    KeyOk(t, i, a, es[0]);
    ItemOk(t, a, b, es[0].val);
    MemberStep(t, i, a, b, key, v, acc);
    TailIs(t, b, j, es);
    if |es| == 1 { NoEntries(es[1..], acc[key := v]); } else { EntriesOk(t, b + 1, j, es[1..], acc[key := v]); }
  }

  lemma TailIs(t: Bytes, i: nat, j: nat, es: seq<Entry>)
    requires es != [] && Spans(t, i, j, Tail(es))
    ensures if |es| == 1 then j == i + 1 else Spans(t, i + 1, j, EntriesText(es[1..]) + [125])
  {
    hide Spans, EntriesText;
    if |es| == 1 { SpanLength(t, i, j, [125]); } else { SpanSplit(t, i, j, [44], EntriesText(es[1..]) + [125]); }
  }

  lemma NoEntries(es: seq<Entry>, acc: map<Bytes, Json>)
    requires es == []
    ensures EntriesMean(es, acc) == acc
  {
  }

  /** One member and the comma or brace after it. */
  lemma MemberStep(t: Bytes, i: nat, a: nat, j: nat, key: Bytes, v: Json, acc: map<Bytes, Json>)
    requires i < a <= |t| && j < |t| && t[a - 1] == 58
    requires var k := ReadString(t, SkipBlank(t, i)); k.Some? && k.value.v == key && SkipBlank(t, k.value.pos) == a - 1
    requires var r := ReadValue(t, SkipBlank(t, a)); r.Some? && r.value.v == v && SkipBlank(t, r.value.pos) == j
    ensures t[j] == 44 ==> ReadMembers(t, i, acc) == ReadMembers(t, j + 1, acc[key := v])
    ensures t[j] == 125 ==> ReadMembers(t, i, acc) == Some(Read(Obj(acc[key := v]), j + 1))
  {
    hide ReadValue, ReadString, SkipBlank;
  }

  // ---- nothing else is read ----

  lemma {:induction false} NodeSound(t: Bytes, i: nat) returns (n: Node)
    requires i <= |t| && ReadValue(t, i).Some?
    ensures var r := ReadValue(t, i).value;
      ValidNode(n) && Spans(t, SkipBlank(t, i), r.pos, NodeText(n)) && r.v == NodeMeans(n)
    decreases |t| - i, 1
  {
    hide Spans, ValidItems, ValidEntries, ItemsText, EntriesText, QuotedText, ValidChrs, ValidNum, NumText,
      ItemsMean, EntriesMean, ReadElements, ReadMembers, ReadNumber, ReadString, ChrsMean, NumMeans, SkipBlank, White,
      LitAt;
    var k, j := SkipBlank(t, i), ReadValue(t, i).value.pos;
    match Peek(t, k)
    case 123 => n := ObjectSound(t, i);
    case 91 => n := ArraySound(t, i);
    case 34 =>
      var cs := StringSound(t, k);
      n := Quoted(cs);
    case 116 =>
      n := TrueWord;
      LitSound(t, k, NodeText(n));
    case 102 =>
      n := FalseWord;
      LitSound(t, k, NodeText(n));
    case 110 =>
      n := NullWord;
      LitSound(t, k, NodeText(n));
    case _ =>
      var x := NumberSound(t, k);
      n := Number(x);
  }

  lemma LitSound(t: Bytes, i: nat, lit: Bytes)
    requires LitAt(t, i, lit)
    ensures Spans(t, i, i + |lit|, lit)
  {
  }

  /** Brackets with nothing but white space in them. */
  lemma EmptySound(t: Bytes, i: nat, open: Byte, close: Byte) returns (ws: Bytes)
    requires i < |t| && t[i] == open && Peek(t, SkipBlank(t, i + 1)) == close
    ensures White(ws) && Spans(t, i, SkipBlank(t, i + 1) + 1, [open] + (ws + [close]))
  {
    hide Spans, SkipBlank, White;
    var j := SkipBlank(t, i + 1);
    SkipSound(t, i + 1);
    ws := t[i + 1..j];
    OneByte(t, i);
    OneByte(t, j);
    SpanJoin(t, i + 1, j, j + 1, ws, [close]);
    SpanJoin(t, i, i + 1, j + 1, [open], ws + [close]);
  }

  lemma {:induction false} ArraySound(t: Bytes, i: nat) returns (n: Node)
    requires i <= |t| && ReadValue(t, i).Some? && Peek(t, SkipBlank(t, i)) == 91
    ensures var r := ReadValue(t, i).value;
      ValidNode(n) && Spans(t, SkipBlank(t, i), r.pos, NodeText(n)) && r.v == NodeMeans(n)
    decreases |t| - i, 0
  {
    hide Spans, ValidItems, ItemsText, ItemsMean, ReadElements, ReadMembers, ReadNumber, ReadString, SkipBlank, White;
    var k, j := SkipBlank(t, i), ReadValue(t, i).value.pos;
    if Peek(t, SkipBlank(t, k + 1)) == 93 {
      var ws := EmptySound(t, k, 91, 93);
      n := EmptyArray(ws);
    } else {
      SkipElements(t, k + 1, []);
      var its := ItemsSound(t, k + 1, []);
      n := Array(its);
      OneByte(t, k);
      SpanJoin(t, k, k + 1, j, [91], ItemsText(its) + [93]);
      assert [] + ItemsMean(its) == ItemsMean(its);
    }
  }

  lemma {:induction false} ItemSound(t: Bytes, i: nat) returns (it: Item)
    requires i <= |t| && ReadValue(t, SkipBlank(t, i)).Some?
    ensures var r := ReadValue(t, SkipBlank(t, i)).value;
      ValidItem(it) && Spans(t, i, SkipBlank(t, r.pos), ItemText(it)) && r.v == NodeMeans(it.node)
    decreases |t| - i, 2
  {
    hide Spans, ValidNode, NodeText, NodeMeans, ReadValue, SkipBlank, White;
    SkipSound(t, i);
    var k := SkipBlank(t, i);
    var b := ReadValue(t, k).value.pos;
    var n := NodeSound(t, k);
    SkipSound(t, b);
    var j := SkipBlank(t, b);
    it := Item(t[i..k], n, t[b..j]);
    SpanJoin(t, k, b, j, NodeText(n), it.post);
    SpanJoin(t, i, k, j, it.pre, NodeText(n) + it.post);
  }

  lemma {:induction false} ItemsSound(t: Bytes, i: nat, acc: seq<Json>) returns (its: seq<Item>)
    requires i <= |t| && ReadElements(t, i, acc).Some?
    ensures var r := ReadElements(t, i, acc).value;
      && its != [] && ValidItems(its) && Spans(t, i, r.pos, ItemsText(its) + [93])
      && r.v == Arr(acc + ItemsMean(its))
    decreases |t| - i, 3
  {
    hide Spans, ValidItems, ItemsText, ItemsMean, ReadElements, ReadValue, SkipBlank, NodeMeans, ItemText, ValidNode,
      White;
    var v, j := ElementRead(t, i, acc);
    var it := ItemSound(t, i);
    var rest: seq<Item> := [];
    if t[j] == 93 {
      OneByte(t, j);
      SpanJoin(t, i, j, j + 1, ItemText(it), [93]);
    } else {
      rest := ItemsSound(t, j + 1, acc + [v]);
      OneByte(t, j);
      var end := ReadElements(t, i, acc).value.pos;
      SpanJoin(t, j, j + 1, end, [44], ItemsText(rest) + [93]);
      SpanJoin(t, i, j, end, ItemText(it), [44] + (ItemsText(rest) + [93]));
    }
    its := [it] + rest;
    ItemsBuilt(it, rest, acc);
  }

  lemma ItemsBuilt(it: Item, rest: seq<Item>, acc: seq<Json>)
    requires ValidItem(it) && (rest != [] ==> ValidItems(rest))
    ensures ValidItems(rest)
    ensures ValidItems([it] + rest)
    ensures acc + ItemsMean([it] + rest) == acc + [NodeMeans(it.node)] + ItemsMean(rest)
    ensures rest == [] ==>
      ItemsText([it] + rest) == ItemText(it) && acc + ItemsMean([it] + rest) == acc + [NodeMeans(it.node)]
    ensures rest != [] ==> ItemsText([it] + rest) + [93] == ItemText(it) + ([44] + (ItemsText(rest) + [93]))
  {
    hide NodeText, NodeMeans, ValidNode, White, Around;
    assert ([it] + rest)[1..] == rest;
  }

  /** An element was read, and a comma or the bracket stood behind it. */
  lemma ElementRead(t: Bytes, i: nat, acc: seq<Json>) returns (v: Json, j: nat)
    requires i <= |t| && ReadElements(t, i, acc).Some?
    ensures var r := ReadValue(t, SkipBlank(t, i)); r.Some? && r.value.v == v && SkipBlank(t, r.value.pos) == j
    ensures i < j < |t| && (t[j] == 44 || t[j] == 93)
    ensures ReadElements(t, i, acc)
      == if t[j] == 44 then ReadElements(t, j + 1, acc + [v]) else Some(Read(Arr(acc + [v]), j + 1))
  {
    hide ReadValue, SkipBlank;
    var r := ReadValue(t, SkipBlank(t, i)).value;
    v, j := r.v, SkipBlank(t, r.pos);
  }

  lemma {:induction false} ObjectSound(t: Bytes, i: nat) returns (n: Node)
    requires i <= |t| && ReadValue(t, i).Some? && Peek(t, SkipBlank(t, i)) == 123
    ensures var r := ReadValue(t, i).value;
      ValidNode(n) && Spans(t, SkipBlank(t, i), r.pos, NodeText(n)) && r.v == NodeMeans(n)
    decreases |t| - i, 0
  {
    hide Spans, ValidEntries, EntriesText, EntriesMean, ReadElements, ReadMembers, ReadNumber, ReadString, SkipBlank,
      White;
    var k, j := SkipBlank(t, i), ReadValue(t, i).value.pos;
    if Peek(t, SkipBlank(t, k + 1)) == 125 {
      var ws := EmptySound(t, k, 123, 125);
      n := EmptyObject(ws);
    } else {
      SkipMembers(t, k + 1, map[]);
      var es := EntriesSound(t, k + 1, map[]);
      n := Object(es);
      OneByte(t, k);
      SpanJoin(t, k, k + 1, j, [123], EntriesText(es) + [125]);
    }
  }

  lemma KeySound(t: Bytes, i: nat, val: Item) returns (e: Entry)
    requires i <= |t| && ReadString(t, SkipBlank(t, i)).Some?
    requires Peek(t, SkipBlank(t, ReadString(t, SkipBlank(t, i)).value.pos)) == 58
    ensures var key := ReadString(t, SkipBlank(t, i)).value;
      && White(e.pre) && ValidChrs(e.key) && White(e.mid) && e.val == val && ChrsMean(e.key) == key.v
      && Spans(t, i, SkipBlank(t, key.pos) + 1, KeyText(e))
  {
    hide Spans, White, ValidChrs, QuotedText, SkipBlank, ReadString, ChrsMean;
    var k := SkipBlank(t, i);
    var b := ReadString(t, k).value.pos;
    var j := SkipBlank(t, b);
    SkipSound(t, i);
    SkipSound(t, b);
    var cs := StringSound(t, k);
    e := Entry(t[i..k], cs, t[b..j], val);
    OneByte(t, j);
    SpanJoin(t, b, j, j + 1, e.mid, [58]);
    SpanJoin(t, k, b, j + 1, QuotedText(cs), e.mid + [58]);
    SpanJoin(t, i, k, j + 1, e.pre, QuotedText(cs) + (e.mid + [58]));
  }

  /** A member was read, and a comma or the brace stood behind it. */
  lemma MemberRead(t: Bytes, i: nat, acc: map<Bytes, Json>) returns (key: Bytes, v: Json, a: nat, j: nat)
    requires i <= |t| && ReadMembers(t, i, acc).Some?
    ensures var k := ReadString(t, SkipBlank(t, i));
      && k.Some? && k.value.v == key && a == SkipBlank(t, k.value.pos) + 1 && Peek(t, a - 1) == 58
    ensures i < a <= |t|
    ensures var r := ReadValue(t, SkipBlank(t, a)); r.Some? && r.value.v == v && SkipBlank(t, r.value.pos) == j
    ensures a < j < |t| && (t[j] == 44 || t[j] == 125)
    ensures ReadMembers(t, i, acc)
      == if t[j] == 44 then ReadMembers(t, j + 1, acc[key := v]) else Some(Read(Obj(acc[key := v]), j + 1))
  {
    hide ReadValue, SkipBlank, ReadString;
    var k := ReadString(t, SkipBlank(t, i)).value;
    key, a := k.v, SkipBlank(t, k.pos) + 1;
    var r := ReadValue(t, SkipBlank(t, a)).value;
    v, j := r.v, SkipBlank(t, r.pos);
  }

  lemma {:induction false} EntriesSound(t: Bytes, i: nat, acc: map<Bytes, Json>) returns (es: seq<Entry>)
    requires i <= |t| && ReadMembers(t, i, acc).Some?
    ensures var r := ReadMembers(t, i, acc).value;
      && es != [] && ValidEntries(es) && Spans(t, i, r.pos, EntriesText(es) + [125])
      && r.v == Obj(EntriesMean(es, acc))
    decreases |t| - i, 3
  {
    hide Spans, ValidEntries, EntriesText, EntriesMean, ReadMembers, ReadValue, SkipBlank, NodeMeans, ItemText,
      ValidNode, White, KeyText, ReadString, ChrsMean, ValidChrs;
    var key, v, a, j := MemberRead(t, i, acc);
    var val := ItemSound(t, a);
    var e := KeySound(t, i, val);
    var rest: seq<Entry> := [];
    SpanJoin(t, i, a, j, KeyText(e), ItemText(val));
    var one := KeyText(e) + ItemText(val);
    OneByte(t, j);
    if t[j] == 125 {
      SpanJoin(t, i, j, j + 1, one, [125]);
    } else {
      rest := EntriesSound(t, j + 1, acc[key := v]);
      var end := ReadMembers(t, i, acc).value.pos;
      SpanJoin(t, j, j + 1, end, [44], EntriesText(rest) + [125]);
      SpanJoin(t, i, j, end, one, [44] + (EntriesText(rest) + [125]));
    }
    es := [e] + rest;
    EntriesBuilt(e, rest, acc);
  }

  lemma EntriesBuilt(e: Entry, rest: seq<Entry>, acc: map<Bytes, Json>)
    requires White(e.pre) && ValidChrs(e.key) && White(e.mid) && ValidItem(e.val)
    requires rest != [] ==> ValidEntries(rest)
    ensures ValidEntries(rest)
    ensures ValidEntries([e] + rest)
    ensures EntriesMean([e] + rest, acc) == EntriesMean(rest, acc[ChrsMean(e.key) := NodeMeans(e.val.node)])
    ensures var one := KeyText(e) + ItemText(e.val);
      && (rest == [] ==> EntriesText([e] + rest) == one
                         && EntriesMean([e] + rest, acc) == acc[ChrsMean(e.key) := NodeMeans(e.val.node)])
      && (rest != [] ==> EntriesText([e] + rest) + [125] == one + ([44] + (EntriesText(rest) + [125])))
  {
    hide NodeText, NodeMeans, ValidNode, White, Around, KeyText, ChrsMean, ValidChrs;
    assert ([e] + rest)[1..] == rest;
  }

  // ---- the whole text ----

  /** loads accepts exactly the JSON texts, and returns what the text means. */
  lemma LoadsExactly(t: Bytes, v: Json)
    ensures Loads(t) == Some(v) <==> IsJson(t, v)
  {
    hide Spans, ValidNode, White, ItemText, NodeMeans, ReadValue, SkipBlank;
    if Loads(t) == Some(v) {
      var it := ItemSound(t, 0);
      WholeSpan(t, ItemText(it));
    }
    if IsJson(t, v) {
      var it: Item :| ValidItem(it) && ItemText(it) == t && NodeMeans(it.node) == v;
      WholeSpan(t, t);
      ItemOk(t, 0, |t|, it);
    }
  }

  /** Two texts with the same tokens mean the same: white space between tokens changes
      nothing, wherever it stands and however much there is. */
  lemma WhiteSpaceFree(a: Item, b: Item)
    requires ValidItem(a) && ValidItem(b) && Bare(a.node) == Bare(b.node)
    ensures Loads(ItemText(a)) == Loads(ItemText(b)) == Some(NodeMeans(a.node))
  {
    hide Loads, NodeMeans, ItemText, Bare, ValidNode, White;
    BareMeans(a.node);
    BareMeans(b.node);
    LoadsExactly(ItemText(a), NodeMeans(a.node));
    LoadsExactly(ItemText(b), NodeMeans(a.node));
  }

  // ---- escapes ----

  lemma StringRead(cs: seq<Chr>)
    requires ValidChrs(cs)
    ensures Loads(QuotedText(cs)) == Some(Plain(Str(ChrsMean(cs))))
  {
    hide Loads, ValidChrs, ChrsMean, QuotedText;
    var it := Item([], Quoted(cs), []);
    assert ItemText(it) == QuotedText(cs);
    LoadsExactly(QuotedText(cs), NodeMeans(it.node));
  }

  lemma OneChar(c: Chr, b: Bytes)
    requires ValidChr(c) && ChrMeans(c) == b
    ensures Loads([34] + (ChrText(c) + [34])) == Some(Plain(Str(b)))
  {
    hide ValidChr, ChrText, ChrMeans, Loads;
    assert ChrsText([c]) == ChrText(c) + [] == ChrText(c) && ChrsMean([c]) == b + [] == b;
    StringRead([c]);
  }

  /** `\u` and four digits, in either case, are read as the one sequence of UTF-8 that decodes
      to the code point. */
  lemma CodePointRead(h: Bytes, b: Bytes)
    requires FourHex(h) && !(0xD800 <= Unit(h) < 0xE000) && Decode(b) == Some(Unit(h))
    ensures Loads([34, 92, 117] + h + [34]) == Some(Plain(Str(b)))
  {
    hide FourHex, Unit, Loads, Decode;
    OneCode(b, CodeBytes(Unit(h)));
    OneChar(Code(h), b);
    assert [34] + ([92, 117] + h + [34]) == [34, 92, 117] + h + [34];
  }

  lemma PairShape(q: Bytes, u: Bytes, h: Bytes, l: Bytes)
    ensures q + (u + h + (u + l) + q) == q + u + h + u + l + q
  {
  }

  /** A code point above 0xffff is read from its two surrogates, the high one first. */
  lemma PairRead(cp: nat, h: Bytes, l: Bytes, b: Bytes)
    requires 0x10000 <= cp < 0x110000 && FourHex(h) && FourHex(l) && Decode(b) == Some(cp)
    requires Unit(h) == 0xD800 + (cp - 0x10000) / 1024 && Unit(l) == 0xDC00 + (cp - 0x10000) % 1024
    ensures Loads([34, 92, 117] + h + [92, 117] + l + [34]) == Some(Plain(Str(b)))
  {
    hide FourHex, Unit, Loads, Decode;
    OneCode(b, CodeBytes(cp));
    OneChar(Pair(h, l), b);
    PairShape([34], [92, 117], h, l);
    assert [34] + [92, 117] == [34, 92, 117];
  }

  /** Every short escape, `\/` among them. */
  lemma ShortRead(e: Byte, c: Byte)
    requires (e, c) in {(34, 34), (92, 92), (47, 47), (98, 8), (102, 12), (110, 10), (114, 13), (116, 9)}
    ensures Loads([34, 92, e, 34]) == Some(Plain(Str([c])))
  {
    hide Loads;
    OneChar(Short(e), [c]);
    assert [34] + ([92, e] + [34]) == [34, 92, e, 34];
  }
}
