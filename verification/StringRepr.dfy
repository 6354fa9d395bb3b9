/**
 `repr` of a byte string, and the lexer's reader of string literals: reading a repr
 gives the bytes back.
 */
module StringRepr {
  import opened Common
  import opened Stretches
  import opened Unicode

  const SINGLE := 39
  const DOUBLE := 34
  const BACKSLASH := 92

  // ---- repr ----

  function QuoteFor(s: Bytes): Byte { if SINGLE in s && DOUBLE !in s then DOUBLE else SINGLE }

  function Hex(d: nat): Byte
    requires d < 16
  {
    if d < 10 then 48 + d else 97 + (d - 10)
  }

  function Escaped(c: Byte, quote: Byte): (r: Bytes)
    ensures 1 <= |r| <= 4
  {
    if c == quote || c == BACKSLASH then [BACKSLASH, c]
    else if c == 10 then [BACKSLASH, 110]
    else if c == 13 then [BACKSLASH, 114]
    else if c == 9 then [BACKSLASH, 116]
    else if c < 0x20 || c >= 0x7f then [BACKSLASH, 120, Hex(c / 16), Hex(c % 16)]
    else [c]
  }

  function EscapedAll(s: Bytes, quote: Byte): (r: Bytes)
    ensures |r| <= 4 * |s|
  {
    if s == [] then [] else EscapedAll(s[..|s| - 1], quote) + Escaped(s[|s| - 1], quote)
  }

  function Repr(s: Bytes): Bytes {
    [QuoteFor(s)] + EscapedAll(s, QuoteFor(s)) + [QuoteFor(s)]
  }

  /** The runtime's repr: one buffer of the largest size it could need. */
  method ReprInto(s: Bytes) returns (buf: array<Byte>, o: nat)
    ensures fresh(buf) && buf.Length == 4 * |s| + 2 && o <= buf.Length && buf[..o] == Repr(s)
  {
    hide EscapedAll, Escaped;
    var quote := ChooseQuote(s);
    buf := new Byte[4 * |s| + 2];
    buf[0] := quote;
    o := 1;
    var i := 0;
    EscapedNone(quote);
    while i < |s|
      invariant 0 <= i <= |s| && 1 <= o <= 1 + 4 * i
      invariant buf[..o] == [quote] + EscapedAll(s[..i], quote)
    {
      EscapedMore(s, i, quote);
      o := PutEscaped(buf, o, s[i], quote);
      assert [quote] + EscapedAll(s[..i], quote) + Escaped(s[i], quote) == [quote] + EscapedAll(s[..i + 1], quote);
      i := i + 1;
    }
    assert s[..i] == s;
    buf[o] := quote;
    o := o + 1;
    assert buf[..o] == buf[..o - 1] + [quote];
  }

  lemma EscapedNone(quote: Byte)
    ensures EscapedAll([], quote) == []
  {
  }

  lemma EscapedMore(s: Bytes, i: nat, quote: Byte)
    requires i < |s|
    ensures EscapedAll(s[..i + 1], quote) == EscapedAll(s[..i], quote) + Escaped(s[i], quote)
    ensures 1 <= |Escaped(s[i], quote)| <= 4
  {
    assert s[..i + 1][..i] == s[..i];
  }

  method ChooseQuote(s: Bytes) returns (quote: Byte)
    ensures quote == QuoteFor(s)
  {
    var hasSingle, hasDouble, i := false, false, 0;
    while i < |s|
      invariant 0 <= i <= |s| && (hasSingle <==> SINGLE in s[..i]) && (hasDouble <==> DOUBLE in s[..i])
    {
      assert s[..i + 1] == s[..i] + [s[i]];
      if s[i] == SINGLE { hasSingle := true; } else if s[i] == DOUBLE { hasDouble := true; }
      i := i + 1;
    }
    assert s[..i] == s;
    return if hasSingle && !hasDouble then DOUBLE else SINGLE;
  }

  method PutEscaped(buf: array<Byte>, o: nat, c: Byte, quote: Byte) returns (end: nat)
    requires o + 4 <= buf.Length
    modifies buf
    ensures end == o + |Escaped(c, quote)| && buf[..end] == old(buf[..o]) + Escaped(c, quote)
  {
    if c == quote || c == BACKSLASH { buf[o], buf[o + 1] := BACKSLASH, c; end := o + 2; }
    else if c == 10 { buf[o], buf[o + 1] := BACKSLASH, 110; end := o + 2; }
    else if c == 13 { buf[o], buf[o + 1] := BACKSLASH, 114; end := o + 2; }
    else if c == 9 { buf[o], buf[o + 1] := BACKSLASH, 116; end := o + 2; }
    else if c < 0x20 || c >= 0x7f {
      buf[o], buf[o + 1], buf[o + 2], buf[o + 3] := BACKSLASH, 120, Hex(c / 16), Hex(c % 16);
      end := o + 4;
    }
    else { buf[o] := c; end := o + 1; }
    assert buf[..o] == old(buf[..o]) && buf[o..end] == Escaped(c, quote);
    assert buf[..end] == buf[..o] + buf[o..end];
  }

  // ---- the lexer ----

  datatype Read = Read(v: Bytes, pos: nat)

  function Nibble(c: Byte): (r: Option<nat>)
    ensures r.Some? ==> r.value < 16
  {
    if 48 <= c <= 57 then Some(c - 48)
    else if 97 <= c <= 102 then Some(c - 97 + 10)
    else if 65 <= c <= 70 then Some(c - 65 + 10)
    else None
  }

  /** A byte taken as a code point and encoded in UTF-8, as the lexer appends it. */
  function AsRune(c: Byte): Bytes { if c < 0x80 then [c] else [0xc0 + c / 64, 0x80 + c % 64] }

  function Simple(c: Byte): Bytes {
    if c == 110 then [10]
    else if c == 116 then [9]
    else if c == 114 then [13]
    else if c == 48 then [0]
    else if c == BACKSLASH || c == SINGLE || c == DOUBLE then [c]
    else [BACKSLASH] + AsRune(c)
  }

  /** The rest of a literal, from inside its quotes, after `acc`; None is an error. */
  function ReadRest(t: Bytes, i: nat, quote: Byte, acc: Bytes): (r: Option<Read>)
    ensures r.Some? ==> i < r.value.pos <= |t| && t[r.value.pos - 1] == quote
    decreases |t| - i
  {
    if i >= |t| then None
    else if t[i] == quote then Some(Read(acc, i + 1))
    else if t[i] == 10 then None
    else if t[i] == BACKSLASH then
      if i + 1 >= |t| then None
      else if t[i + 1] == 120 then
        if i + 3 >= |t| || Nibble(t[i + 2]).None? || Nibble(t[i + 3]).None? then None
        else ReadRest(t, i + 4, quote, acc + [Nibble(t[i + 2]).value * 16 + Nibble(t[i + 3]).value])
      else ReadRest(t, i + 2, quote, acc + Simple(t[i + 1]))
    else ReadRest(t, i + 1, quote, acc + AsRune(t[i]))
  }

  /** One step of that. */
  lemma RestIs(t: Bytes, i: nat, quote: Byte, acc: Bytes)
    ensures var r := ReadRest(t, i, quote, acc);
      if i >= |t| then r == None
      else if t[i] == quote then r == Some(Read(acc, i + 1))
      else if t[i] == 10 then r == None
      else if t[i] != BACKSLASH then r == ReadRest(t, i + 1, quote, acc + AsRune(t[i]))
      else if i + 1 >= |t| then r == None
      else if t[i + 1] != 120 then r == ReadRest(t, i + 2, quote, acc + Simple(t[i + 1]))
      else if i + 3 >= |t| || Nibble(t[i + 2]).None? || Nibble(t[i + 3]).None? then r == None
      else r == ReadRest(t, i + 4, quote, acc + [Nibble(t[i + 2]).value * 16 + Nibble(t[i + 3]).value])
  {
    hide Nibble, Simple, AsRune;
  }

  class Lexer {
    const source: Bytes
    var current: nat

    constructor (source: Bytes, current: nat)
      ensures this.source == source && this.current == current
    {
      this.source, this.current := source, current;
    }

    /** Reads a literal whose opening quote is next. */
    method ReadString(quote: Byte) returns (r: Option<Bytes>)
      requires current < |source| && source[current] == quote
      modifies this
      ensures var g := ReadRest(source, old(current) + 1, quote, []);
        if g.None? then r.None? else r == Some(g.value.v) && current == g.value.pos
      ensures quote == 34 || quote == 39 ==>
        ReadsLiteral(source, old(current), quote, if r.None? then None else Some(Read(r.value, current)))
    {
      hide Nibble, Simple, AsRune, ReadsLiteral, ReadRest;
      if quote == 34 || quote == 39 { LiteralRead(source, current, quote); }
      current := current + 1;
      var result: Bytes := [];
      ghost var goal := ReadRest(source, current, quote, []);
      while current < |source| && source[current] != quote
        invariant current <= |source| && ReadRest(source, current, quote, result) == goal
        decreases |source| - current
      {
        RestIs(source, current, quote, result);
        if source[current] == 10 { return None; }
        if source[current] == BACKSLASH {
          current := current + 1;
          if current >= |source| { return None; }
          if source[current] == 120 {
            if current + 2 >= |source| { return None; }
            var v1, v2 := Nibble(source[current + 1]), Nibble(source[current + 2]);
            if v1.None? || v2.None? { return None; }
            result := result + [v1.value * 16 + v2.value];
            current := current + 3;
            continue;
          }
          result := result + Simple(source[current]);
          current := current + 1;
        } else {
          result := result + AsRune(source[current]);
          current := current + 1;
        }
      }
      RestIs(source, current, quote, result);
      if current >= |source| { return None; }
      current := current + 1;
      return Some(result);
    }
  }

  // ---- the literals of the language ----

  /** What stands between the quotes: a byte, a backslash and a byte, or `\x` and two
      hexadecimal digits. */
  datatype Piece = Bare(c: Byte) | Esc(e: Byte) | HexEsc(h: Byte, l: Byte)

  predicate ValidPiece(p: Piece, quote: Byte) {
    match p
    case Bare(c) => c != quote && c != 10 && c != 92
    case Esc(e) => e != 120
    case HexEsc(h, l) => IsHex(h) && IsHex(l)
  }

  function PieceText(p: Piece): Bytes {
    match p
    case Bare(c) => [c]
    case Esc(e) => [92, e]
    case HexEsc(h, l) => [92, 120, h, l]
  }

  /** A byte is taken for a code point; an unknown escape keeps its backslash. */
  ghost function PieceMeans(p: Piece, quote: Byte): Bytes
    requires ValidPiece(p, quote)
  {
    match p
    case Bare(c) => CodeBytes(c)
    case Esc(e) =>
      if e == 110 then [10] else if e == 116 then [9] else if e == 114 then [13] else if e == 48 then [0]
      else if e == 92 || e == 39 || e == 34 then [e]
      else [92] + CodeBytes(e)
    case HexEsc(h, l) => [16 * HexOf(h) + HexOf(l)]
  }

  predicate ValidPieces(ps: seq<Piece>, quote: Byte) { forall k :: 0 <= k < |ps| ==> ValidPiece(ps[k], quote) }

  function PiecesText(ps: seq<Piece>): Bytes { if ps == [] then [] else PieceText(ps[0]) + PiecesText(ps[1..]) }

  ghost function PiecesMean(ps: seq<Piece>, quote: Byte): Bytes
    requires ValidPieces(ps, quote)
  {
    if ps == [] then [] else PieceMeans(ps[0], quote) + PiecesMean(ps[1..], quote)
  }

  function LiteralText(ps: seq<Piece>, quote: Byte): Bytes { [quote] + (PiecesText(ps) + [quote]) }

  /** From `i` to `j` there is a literal that means `v`. */
  ghost predicate IsLiteral(t: Bytes, i: nat, j: nat, quote: Byte, v: Bytes) {
    exists ps :: ValidPieces(ps, quote) && Spans(t, i, j, LiteralText(ps, quote)) && PiecesMean(ps, quote) == v
  }

  lemma RuneIs(c: Byte)
    ensures AsRune(c) == CodeBytes(c)
  {
    hide Then, Continues;
    ThenOf(c);
    assert Decode(AsRune(c)) == Some(c as nat);
    OneCode(AsRune(c), CodeBytes(c));
  }

  lemma NibbleIs(c: Byte)
    ensures Nibble(c) == if IsHex(c) then Some(HexOf(c)) else None
  {
  }

  lemma SimpleIs(e: Byte, quote: Byte)
    requires e != 120
    ensures Simple(e) == PieceMeans(Esc(e), quote)
  {
    hide AsRune, CodeBytes;
    RuneIs(e);
  }

  lemma PieceOk(t: Bytes, i: nat, j: nat, p: Piece, quote: Byte, acc: Bytes)
    requires ValidPiece(p, quote) && Spans(t, i, j, PieceText(p)) && (quote == 34 || quote == 39)
    ensures j <= |t| && ReadRest(t, i, quote, acc) == ReadRest(t, j, quote, acc + PieceMeans(p, quote))
  {
    hide Spans, Nibble, Simple, AsRune, HexOf, IsHex;
    SpanAt(t, i, j, PieceText(p), 0);
    match p
    case Bare(c) => RuneIs(c);
    case Esc(e) =>
      SpanAt(t, i, j, PieceText(p), 1);
      SimpleIs(e, quote);
    case HexEsc(h, l) =>
      SpanAt(t, i, j, PieceText(p), 1);
      SpanAt(t, i, j, PieceText(p), 2);
      SpanAt(t, i, j, PieceText(p), 3);
      NibbleIs(h);
      NibbleIs(l);
  }

  lemma {:induction false} PiecesOk(t: Bytes, i: nat, j: nat, ps: seq<Piece>, quote: Byte, acc: Bytes)
    requires ValidPieces(ps, quote) && Spans(t, i, j, PiecesText(ps) + [quote]) && (quote == 34 || quote == 39)
    ensures ReadRest(t, i, quote, acc) == Some(Read(acc + PiecesMean(ps, quote), j))
    decreases |ps|
  {
    hide Spans, ValidPiece, PieceText, PieceMeans, Simple, AsRune, Nibble;
    if ps == [] {
      assert PiecesText(ps) + [quote] == [quote] && acc + PiecesMean(ps, quote) == acc;
      SpanAt(t, i, j, [quote], 0);
    } else {
      var a, z := PieceText(ps[0]), PiecesText(ps[1..]);
      assert PiecesText(ps) + [quote] == a + (z + [quote]);
      SpanSplit(t, i, j, a, z + [quote]);
      PieceOk(t, i, i + |a|, ps[0], quote, acc);
      PiecesOk(t, i + |a|, j, ps[1..], quote, acc + PieceMeans(ps[0], quote));
      assert acc + PieceMeans(ps[0], quote) + PiecesMean(ps[1..], quote) == acc + PiecesMean(ps, quote);
    }
  }

  lemma PieceSound(t: Bytes, i: nat, quote: Byte, acc: Bytes) returns (p: Piece, j: nat)
    requires ReadRest(t, i, quote, acc).Some? && t[i] != quote && (quote == 34 || quote == 39)
    ensures i < j && ValidPiece(p, quote) && Spans(t, i, j, PieceText(p))
    ensures ReadRest(t, i, quote, acc) == ReadRest(t, j, quote, acc + PieceMeans(p, quote))
  {
    hide Nibble, Simple, AsRune, HexOf, IsHex;
    if t[i] != 92 {
      p, j := Bare(t[i]), i + 1;
      RuneIs(t[i]);
    } else if t[i + 1] != 120 {
      p, j := Esc(t[i + 1]), i + 2;
      SimpleIs(t[i + 1], quote);
    } else {
      p, j := HexEsc(t[i + 2], t[i + 3]), i + 4;
      NibbleIs(t[i + 2]);
      NibbleIs(t[i + 3]);
    }
    assert t[i..j] == PieceText(p);
  }

  lemma {:induction false} PiecesSound(t: Bytes, i: nat, quote: Byte, acc: Bytes) returns (ps: seq<Piece>)
    requires ReadRest(t, i, quote, acc).Some? && (quote == 34 || quote == 39)
    ensures var r := ReadRest(t, i, quote, acc).value;
      && ValidPieces(ps, quote) && Spans(t, i, r.pos, PiecesText(ps) + [quote])
      && r.v == acc + PiecesMean(ps, quote)
    decreases |t| - i
  {
    hide Spans, ValidPiece, PieceText, PieceMeans, Simple, AsRune, Nibble;
    if t[i] == quote {
      ps := [];
      OneByte(t, i);
      assert PiecesText([]) + [quote] == [quote] && acc + PiecesMean([], quote) == acc;
    } else {
      var p, j := PieceSound(t, i, quote, acc);
      var rest := PiecesSound(t, j, quote, acc + PieceMeans(p, quote));
      ps := [p] + rest;
      SpanJoin(t, i, j, ReadRest(t, i, quote, acc).value.pos, PieceText(p), PiecesText(rest) + [quote]);
      assert ps[1..] == rest;
      assert PieceText(p) + (PiecesText(rest) + [quote]) == PiecesText(ps) + [quote];
      assert acc + PieceMeans(p, quote) + PiecesMean(rest, quote) == acc + PiecesMean(ps, quote);
    }
  }

  /** The reader accepts the literals of the language and nothing else, and returns what
      they mean. */
  lemma LiteralExactly(t: Bytes, i: nat, j: nat, quote: Byte, v: Bytes)
    requires (quote == 34 || quote == 39) && i < |t| && t[i] == quote
    ensures ReadRest(t, i + 1, quote, []) == Some(Read(v, j)) <==> IsLiteral(t, i, j, quote, v)
  {
    hide Spans, ReadRest, ValidPieces, PiecesText, PiecesMean;
    if ReadRest(t, i + 1, quote, []) == Some(Read(v, j)) {
      var ps := PiecesSound(t, i + 1, quote, []);
      assert [] + PiecesMean(ps, quote) == v;
      OneByte(t, i);
      SpanJoin(t, i, i + 1, j, [quote], PiecesText(ps) + [quote]);
    }
    if IsLiteral(t, i, j, quote, v) {
      var ps :| ValidPieces(ps, quote) && Spans(t, i, j, LiteralText(ps, quote)) && PiecesMean(ps, quote) == v;
      SpanSplit(t, i, j, [quote], PiecesText(ps) + [quote]);
      PiecesOk(t, i + 1, j, ps, quote, []);
      assert [] + PiecesMean(ps, quote) == v;
    }
  }

  /** `r` is the value of the literal at `i` and where it ends, if there is one. */
  ghost predicate ReadsLiteral(t: Bytes, i: nat, quote: Byte, r: Option<Read>) {
    if r.Some? then IsLiteral(t, i, r.value.pos, quote, r.value.v) else forall v, j :: !IsLiteral(t, i, j, quote, v)
  }

  lemma LiteralRead(t: Bytes, i: nat, quote: Byte)
    requires (quote == 34 || quote == 39) && i < |t| && t[i] == quote
    ensures ReadsLiteral(t, i, quote, ReadRest(t, i + 1, quote, []))
  {
    hide ReadRest, IsLiteral;
    forall v, j: nat { LiteralExactly(t, i, j, quote, v); }
  }

  // ---- what repr writes ----

  function PieceOf(c: Byte, quote: Byte): Piece {
    if c == quote || c == 92 then Esc(c)
    else if c == 10 then Esc(110)
    else if c == 13 then Esc(114)
    else if c == 9 then Esc(116)
    else if 32 <= c <= 126 then Bare(c)
    else HexEsc(HexLow(c / 16), HexLow(c % 16))
  }

  function HexLow(d: nat): Byte
    requires d < 16
  {
    if d < 10 then 48 + d else 87 + d
  }

  function PiecesOf(s: Bytes, quote: Byte): seq<Piece> {
    if s == [] then [] else PiecesOf(s[..|s| - 1], quote) + [PieceOf(s[|s| - 1], quote)]
  }

  lemma {:induction false} PiecesMore(ps: seq<Piece>, p: Piece)
    ensures PiecesText(ps + [p]) == PiecesText(ps) + PieceText(p)
  {
    hide PieceText;
    if ps == [] {
      assert [p][1..] == [] && PieceText(p) + [] == PieceText(p) && [] + PieceText(p) == PieceText(p);
      assert ps + [p] == [p];
    } else {
      PiecesMore(ps[1..], p);
      assert (ps + [p])[1..] == ps[1..] + [p];
    }
  }

  lemma PieceOfOk(c: Byte, quote: Byte)
    requires quote == 34 || quote == 39
    ensures ValidPiece(PieceOf(c, quote), quote) && PieceText(PieceOf(c, quote)) == Escaped(c, quote)
    ensures forall k :: 0 <= k < |Escaped(c, quote)| ==> 32 <= Escaped(c, quote)[k] <= 126
  {
  }

  lemma {:induction false} PiecesOfOk(s: Bytes, quote: Byte)
    requires quote == 34 || quote == 39
    ensures ValidPieces(PiecesOf(s, quote), quote) && PiecesText(PiecesOf(s, quote)) == EscapedAll(s, quote)
    ensures forall k :: 0 <= k < |EscapedAll(s, quote)| ==> 32 <= EscapedAll(s, quote)[k] <= 126
  {
    hide PieceOf, PieceText, Escaped, ValidPiece;
    if s != [] {
      PiecesOfOk(s[..|s| - 1], quote);
      PieceOfOk(s[|s| - 1], quote);
      PiecesMore(PiecesOf(s[..|s| - 1], quote), PieceOf(s[|s| - 1], quote));
    }
  }

  /** A repr is the literal of those pieces, between double quotes if there are single ones
      in it and no double ones, else between single quotes; all its bytes are printable. */
  lemma ReprLooks(s: Bytes)
    ensures var q: Byte := if 39 in s && 34 !in s then 34 else 39;
      && Repr(s) == LiteralText(PiecesOf(s, q), q) && ValidPieces(PiecesOf(s, q), q)
    ensures forall k :: 0 <= k < |Repr(s)| ==> 32 <= Repr(s)[k] <= 126
  {
    hide PiecesText, PiecesOf, EscapedAll;
    var q := QuoteFor(s);
    PiecesOfOk(s, q);
    assert [q] + EscapedAll(s, q) + [q] == [q] + (EscapedAll(s, q) + [q]);
  }

  // ---- there and back ----

  ghost predicate Here(t: Bytes, i: nat, s: Bytes) { i + |s| <= |t| && t[i..i + |s|] == s }

  lemma HereSplit(t: Bytes, i: nat, a: Bytes, b: Bytes)
    requires Here(t, i, a + b)
    ensures Here(t, i, a) && Here(t, i + |a|, b)
  {
    assert t[i..i + |a|] == (a + b)[..|a|] && t[i + |a|..i + |a| + |b|] == (a + b)[|a|..];
  }

  lemma HereAt(t: Bytes, i: nat, s: Bytes, k: nat)
    requires Here(t, i, s) && k < |s|
    ensures i + k < |t| && t[i + k] == s[k]
  {
    assert t[i..i + |s|][k] == s[k];
  }

  lemma ReadOne(t: Bytes, i: nat, c: Byte, quote: Byte, acc: Bytes)
    requires (quote == SINGLE || quote == DOUBLE) && Here(t, i, Escaped(c, quote)) && i + |Escaped(c, quote)| < |t|
    ensures ReadRest(t, i, quote, acc) == ReadRest(t, i + |Escaped(c, quote)|, quote, acc + [c])
  {
    hide Here, Nibble, ReadRest, Hex;
    var s := Escaped(c, quote);
    HereAt(t, i, s, 0);
    if |s| == 1 { ReadBare(t, i, c, quote, acc); }
    if |s| == 2 {
      HereAt(t, i, s, 1);
      ReadShort(t, i, c, quote, acc);
    }
    if |s| == 4 {
      HereAt(t, i, s, 1);
      HereAt(t, i, s, 2);
      HereAt(t, i, s, 3);
      ReadHex(t, i, c, quote, acc);
    }
  }

  lemma ReadBare(t: Bytes, i: nat, c: Byte, quote: Byte, acc: Bytes)
    requires i + 1 < |t| && t[i] == c && c != quote && c != 10 && c != BACKSLASH && c < 0x80
    ensures ReadRest(t, i, quote, acc) == ReadRest(t, i + 1, quote, acc + [c])
  {
    hide Nibble;
  }

  lemma ReadShort(t: Bytes, i: nat, c: Byte, quote: Byte, acc: Bytes)
    requires quote != BACKSLASH && i + 2 < |t| && t[i] == BACKSLASH && t[i + 1] != 120 && Simple(t[i + 1]) == [c]
    ensures ReadRest(t, i, quote, acc) == ReadRest(t, i + 2, quote, acc + [c])
  {
    hide Nibble, Simple;
  }

  lemma ReadHex(t: Bytes, i: nat, c: Byte, quote: Byte, acc: Bytes)
    requires quote != BACKSLASH && i + 4 < |t| && t[i] == BACKSLASH && t[i + 1] == 120
    requires t[i + 2] == Hex(c / 16) && t[i + 3] == Hex(c % 16)
    ensures ReadRest(t, i, quote, acc) == ReadRest(t, i + 4, quote, acc + [c])
  {
    assert Nibble(t[i + 2]) == Some(c / 16) && Nibble(t[i + 3]) == Some(c % 16);
  }

  lemma {:induction false} ReadAll(t: Bytes, i: nat, s: Bytes, quote: Byte, acc: Bytes)
    requires quote == SINGLE || quote == DOUBLE
    requires Here(t, i, EscapedAll(s, quote)) && i + |EscapedAll(s, quote)| < |t|
    ensures ReadRest(t, i, quote, acc) == ReadRest(t, i + |EscapedAll(s, quote)|, quote, acc + s)
    decreases |s|
  {
    hide Here, ReadRest, Escaped;
    if s == [] {
      assert acc + s == acc;
    } else {
      var front, c := s[..|s| - 1], s[|s| - 1];
      HereSplit(t, i, EscapedAll(front, quote), Escaped(c, quote));
      ReadAll(t, i, front, quote, acc);
      ReadOne(t, i + |EscapedAll(front, quote)|, c, quote, acc + front);
      assert acc + front + [c] == acc + s;
    }
  }

  /** Reading a repr, wherever it stands, gives the bytes back and stops right behind
      its closing quote. */
  lemma {:induction false} ReadRepr(before: Bytes, s: Bytes, rest: Bytes)
    ensures ReadRest(before + Repr(s) + rest, |before| + 1, QuoteFor(s), []) == Some(Read(s, |before| + |Repr(s)|))
  {
    hide ReadRest, EscapedAll;
    var t, q := before + Repr(s) + rest, QuoteFor(s);
    var inner := EscapedAll(s, q);
    var j := |before| + 1 + |inner|;
    assert t[|before| + 1..j] == inner && t[j] == q;
    ReadAll(t, |before| + 1, s, q, []);
    assert [] + s == s;
    Closes(t, j, q, s);
  }

  lemma Closes(t: Bytes, j: nat, q: Byte, acc: Bytes)
    requires j < |t| && t[j] == q
    ensures ReadRest(t, j, q, acc) == Some(Read(acc, j + 1))
  {
  }

  /** A literal written without escapes is read as written exactly when it is ASCII:
      every other byte is encoded a second time. */
  lemma {:induction false} ReadPlain(s: Bytes, quote: Byte)
    requires quote != BACKSLASH && quote != 10 && forall k :: 0 <= k < |s| ==>
      s[k] != quote && s[k] != BACKSLASH && s[k] != 10
    ensures ReadRest(s + [quote], 0, quote, []).Some?
    ensures ReadRest(s + [quote], 0, quote, []).value.v == s <==> forall k :: 0 <= k < |s| ==> s[k] < 0x80
  {
    PlainFrom(s, 0, quote, []);
    RunesLength(s);
    assert s[0..] == s && [] + Runes(s) == Runes(s);
  }

  function Runes(s: Bytes): Bytes { if s == [] then [] else AsRune(s[0]) + Runes(s[1..]) }

  lemma {:induction false} PlainFrom(s: Bytes, i: nat, quote: Byte, acc: Bytes)
    requires i <= |s| && quote != BACKSLASH && quote != 10
    requires forall k :: 0 <= k < |s| ==> s[k] != quote && s[k] != BACKSLASH && s[k] != 10
    ensures ReadRest(s + [quote], i, quote, acc) == Some(Read(acc + Runes(s[i..]), |s| + 1))
    decreases |s| - i
  {
    if i == |s| {
      assert acc + Runes(s[i..]) == acc;
    } else {
      PlainFrom(s, i + 1, quote, acc + AsRune(s[i]));
      assert s[i..][1..] == s[i + 1..];
      assert acc + AsRune(s[i]) + Runes(s[i + 1..]) == acc + Runes(s[i..]);
    }
  }

  lemma {:induction false} RunesLength(s: Bytes)
    ensures |Runes(s)| >= |s|
    ensures |Runes(s)| == |s| <==> forall k :: 0 <= k < |s| ==> s[k] < 0x80
    ensures (forall k :: 0 <= k < |s| ==> s[k] < 0x80) ==> Runes(s) == s
  {
    if s != [] {
      RunesLength(s[1..]);
      assert s == [s[0]] + s[1..];
    }
  }

  lemma ReadAlone(s: Bytes)
    ensures Repr(s) != [] && Repr(s)[0] == QuoteFor(s)
    ensures ReadRest(Repr(s), 1, QuoteFor(s), []) == Some(Read(s, |Repr(s)|))
  {
    hide ReadRest, EscapedAll, Repr;
    QuoteFirst(s);
    ReadRepr([], s, []);
    assert [] + Repr(s) + [] == Repr(s);
  }

  lemma QuoteFirst(s: Bytes)
    ensures Repr(s) != [] && Repr(s)[0] == QuoteFor(s)
  {
    hide EscapedAll;
  }

  method ReadBack(s: Bytes) returns (r: Option<Bytes>)
    ensures r == Some(s)
  {
    hide ReadRest, Repr;
    var buf, o := ReprInto(s);
    ReadAlone(s);
    var l := new Lexer(buf[..o], 0);
    r := l.ReadString(QuoteFor(s));
  }
}
