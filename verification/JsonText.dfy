/**
 JSON values, the text that dumps writes for them, and what loads reads, as functions
 on bytes. Follows RFC 8259 where the code does; an error of the reader is a None.
 */
module JsonText {
  import opened Common

  const MAX := 0x7fff_ffff_ffff_ffff
  const MIN := -MAX - 1

  /** A float is only known by its token. */
  datatype Atom =
    | Null
    | Bool(b: bool)
    | Int(i: int)
    | Float(token: Bytes)
    | Str(s: Bytes)

  /** What loads returns: a dict is what it maps. */
  datatype Json = Plain(a: Atom) | Arr(vs: seq<Json>) | Obj(m: map<Bytes, Json>)

  /** What dumps is given: a dict is its members in the order in which a walk over its
      table meets them, which depends on how that very dict was filled. */
  datatype Doc = Leaf(a: Atom) | List(ds: seq<Doc>) | Dict(ms: seq<Member>)

  datatype Member = Member(key: Bytes, val: Doc)

  /** The value that a document is a layout of. */
  function Meaning(d: Doc): Json
    decreases d, 1
  {
    match d
    case Leaf(a) => Plain(a)
    case List(ds) => Arr(Meanings(ds))
    case Dict(ms) => Obj(Entries(ms, map[]))
  }

  function Meanings(ds: seq<Doc>): seq<Json>
    decreases ds, 0
  {
    if ds == [] then [] else [Meaning(ds[0])] + Meanings(ds[1..])
  }

  /** `acc` with the members `ms` set in it, one after the other. */
  function Entries(ms: seq<Member>, acc: map<Bytes, Json>): map<Bytes, Json>
    decreases ms, 0
  {
    if ms == [] then acc else Entries(ms[1..], acc[ms[0].key := Meaning(ms[0].val)])
  }

  // ---- numbers ----

  const DIGIT_0 := 48
  const MINUS := 45

  predicate IsDigit(c: int) { 48 <= c <= 57 }

  function NatText(n: nat): (r: Bytes)
    ensures r != [] && forall k :: 0 <= k < |r| ==> IsDigit(r[k])
  {
    if n < 10 then [DIGIT_0 + n] else NatText(n / 10) + [DIGIT_0 + n % 10]
  }

  function IntText(i: int): Bytes { if i < 0 then [MINUS] + NatText(-i) else NatText(i) }

  /** The number that a run of digits stands for. */
  function NatValue(ds: Bytes): int {
    if ds == [] then 0 else 10 * NatValue(ds[..|ds| - 1]) + (ds[|ds| - 1] - DIGIT_0)
  }

  /** `strtoll`: a value out of range becomes the nearest one in range. */
  function IntValue(token: Bytes): int {
    var x := if token != [] && token[0] == MINUS then -NatValue(token[1..]) else NatValue(token);
    if x > MAX then MAX else if x < MIN then MIN else x
  }

  // ---- writing ----

  const QUOTE := 34
  const BACKSLASH := 92
  const LBRACKET := 91
  const RBRACKET := 93
  const LBRACE := 123
  const RBRACE := 125
  const COMMA := 44
  const COLON := 58

  function HexDigit(d: nat): Byte
    requires d < 16
  {
    if d < 10 then 48 + d else 97 + (d - 10)
  }

  function Escaped(c: Byte): Bytes {
    if c == QUOTE || c == BACKSLASH then [BACKSLASH, c]
    else if c == 8 then [BACKSLASH, 98]
    else if c == 12 then [BACKSLASH, 102]
    else if c == 10 then [BACKSLASH, 110]
    else if c == 13 then [BACKSLASH, 114]
    else if c == 9 then [BACKSLASH, 116]
    else if c < 32 then [BACKSLASH, 117, 48, 48, HexDigit(c / 16), HexDigit(c % 16)]
    else [c]
  }

  function EscapedAll(s: Bytes): Bytes {
    if s == [] then [] else Escaped(s[0]) + EscapedAll(s[1..])
  }

  function StrText(s: Bytes): Bytes { [QUOTE] + EscapedAll(s) + [QUOTE] }

  /** Integers and floats are printed by the C library. */
  function AtomText(a: Atom): Bytes {
    match a
    case Null => [110, 117, 108, 108]
    case Bool(b) => if b then [116, 114, 117, 101] else [102, 97, 108, 115, 101]
    case Int(i) => IntText(i)
    case Float(token) => token
    case Str(s) => StrText(s)
  }

  function Text(d: Doc): Bytes
    decreases d, 1
  {
    match d
    case Leaf(a) => AtomText(a)
    case List(ds) => [LBRACKET] + Elements(ds) + [RBRACKET]
    case Dict(ms) => [LBRACE] + Members(ms) + [RBRACE]
  }

  function Elements(ds: seq<Doc>): Bytes
    decreases ds, 0
  {
    if ds == [] then [] else Text(ds[0]) + (if |ds| == 1 then [] else [COMMA] + Elements(ds[1..]))
  }

  function Members(ms: seq<Member>): Bytes
    decreases ms, 0
  {
    if ms == [] then []
    else StrText(ms[0].key) + [COLON] + Text(ms[0].val) + (if |ms| == 1 then [] else [COMMA] + Members(ms[1..]))
  }

  // ---- reading ----

  datatype Read<T> = Read(v: T, pos: nat)

  function Peek(t: Bytes, i: nat): int { if i < |t| then t[i] else -1 }

  predicate Blank(c: int) { c == 32 || c == 9 || c == 10 || c == 13 }

  function SkipBlank(t: Bytes, i: nat): (r: nat)
    requires i <= |t|
    ensures i <= r <= |t|
    decreases |t| - i
  {
    if i < |t| && Blank(t[i]) then SkipBlank(t, i + 1) else i
  }

  predicate Forward<T>(r: Option<Read<T>>, i: nat, t: Bytes) { r.Some? ==> i < r.value.pos <= |t| }

  function HexValue(c: int): Option<nat> {
    if IsDigit(c) then Some(c - 48)
    else if 97 <= c <= 102 then Some(c - 97 + 10)
    else if 65 <= c <= 70 then Some(c - 65 + 10)
    else None
  }

  /** Four hexadecimal digits. */
  function ReadHex4(t: Bytes, i: nat): (r: Option<nat>)
    ensures r.Some? ==> i + 4 <= |t| && r.value < 0x10000
  {
    if i + 4 > |t| then None
    else
      var a, b, c, d := HexValue(t[i]), HexValue(t[i + 1]), HexValue(t[i + 2]), HexValue(t[i + 3]);
      if a.None? || b.None? || c.None? || d.None? then None
      else Some(Hex16(a.value, b.value, c.value, d.value))
  }

  function Hex16(a: nat, b: nat, c: nat, d: nat): (r: nat)
    requires a < 16 && b < 16 && c < 16 && d < 16
    ensures r < 0x10000
  {
    ((a * 16 + b) * 16 + c) * 16 + d
  }

  function Utf8(cp: nat): Bytes
    requires cp < 0x110000
  {
    if cp < 0x80 then [cp]
    else if cp < 0x800 then [0xc0 + cp / 64, 0x80 + cp % 64]
    else if cp < 0x10000 then [0xe0 + cp / 4096, 0x80 + cp / 64 % 64, 0x80 + cp % 64]
    else [0xf0 + cp / 262144, 0x80 + cp / 4096 % 64, 0x80 + cp / 64 % 64, 0x80 + cp % 64]
  }

  /** The code point after a backslash: its bytes, and the position behind it. */
  function ReadEscape(t: Bytes, i: nat): (r: Option<Read<Bytes>>)
    ensures Forward(r, i, t)
  {
    var e := Peek(t, i);
    if e == QUOTE || e == BACKSLASH || e == 47 then Some(Read([e], i + 1))
    else if e == 98 then Some(Read([8], i + 1))
    else if e == 102 then Some(Read([12], i + 1))
    else if e == 110 then Some(Read([10], i + 1))
    else if e == 114 then Some(Read([13], i + 1))
    else if e == 116 then Some(Read([9], i + 1))
    else if e != 117 then None
    else
      var hi := ReadHex4(t, i + 1);
      if hi.None? then None
      else if !(0xD800 <= hi.value <= 0xDBFF) then Some(Read(Utf8(hi.value), i + 5))
      else if i + 7 <= |t| && t[i + 5] == BACKSLASH && t[i + 6] == 117 then
        var lo := ReadHex4(t, i + 7);
        if lo.None? || !(0xDC00 <= lo.value <= 0xDFFF) then None
        else Some(Read(Utf8(0x10000 + (hi.value - 0xD800) * 1024 + (lo.value - 0xDC00)), i + 11))
      else None
  }

  /** The rest of a string, from inside its quotes, after `acc`. */
  function ReadChars(t: Bytes, i: nat, acc: Bytes): (r: Option<Read<Bytes>>)
    ensures Forward(r, i, t)
    decreases |t| - i
  {
    if i >= |t| then None
    else if t[i] == QUOTE then Some(Read(acc, i + 1))
    else if t[i] == BACKSLASH then
      var e := ReadEscape(t, i + 1);
      if e.None? then None else ReadChars(t, e.value.pos, acc + e.value.v)
    else if t[i] < 32 then None
    else ReadChars(t, i + 1, acc + [t[i]])
  }

  function ReadString(t: Bytes, i: nat): (r: Option<Read<Bytes>>)
    ensures Forward(r, i, t)
  {
    if Peek(t, i) != QUOTE then None else ReadChars(t, i + 1, [])
  }

  function Digits(t: Bytes, i: nat): (r: nat)
    requires i <= |t|
    ensures i <= r <= |t|
    decreases |t| - i
  {
    if i < |t| && IsDigit(t[i]) then Digits(t, i + 1) else i
  }

  /** The end of a fraction at `i`, if there is one; None when it is malformed. */
  function Fraction(t: Bytes, i: nat): (r: Option<nat>)
    requires i <= |t|
    ensures r.Some? ==> i <= r.value <= |t|
  {
    if Peek(t, i) != 46 then Some(i)
    else if !IsDigit(Peek(t, i + 1)) then None
    else Some(Digits(t, i + 1))
  }

  function Exponent(t: Bytes, i: nat): (r: Option<nat>)
    requires i <= |t|
    ensures r.Some? ==> i <= r.value <= |t|
  {
    if Peek(t, i) != 101 && Peek(t, i) != 69 then Some(i)
    else
      var j := if Peek(t, i + 1) == 43 || Peek(t, i + 1) == MINUS then i + 2 else i + 1;
      if !IsDigit(Peek(t, j)) then None else Some(Digits(t, j))
  }

  /** An integer token of 64 bytes or more is read as a float too. */
  function ReadNumber(t: Bytes, i: nat): (r: Option<Read<Atom>>)
    ensures Forward(r, i, t)
  {
    var j := if Peek(t, i) == MINUS then i + 1 else i;
    if !IsDigit(Peek(t, j)) then None
    else
      var whole := if t[j] == DIGIT_0 then j + 1 else Digits(t, j);
      var frac := Fraction(t, whole);
      var end := if frac.None? then None else Exponent(t, frac.value);
      if end.None? then None
      else
        DigitsGo(t, j);
        var token := t[i..end.value];
        Some(Read(if end.value == whole && |token| < 64 then Int(IntValue(token)) else Float(token), end.value))
  }

  lemma DigitsGo(t: Bytes, i: nat)
    requires i < |t|
    ensures IsDigit(t[i]) ==> Digits(t, i) > i
  {
  }

  predicate LitAt(t: Bytes, i: nat, lit: Bytes) { i + |lit| <= |t| && t[i..i + |lit|] == lit }

  function ReadLit(t: Bytes, i: nat, lit: Bytes, a: Atom): (r: Option<Read<Json>>)
    requires lit != []
    ensures Forward(r, i, t)
  {
    if LitAt(t, i, lit) then Some(Read(Plain(a), i + |lit|)) else None
  }

  function ReadValue(t: Bytes, start: nat): (r: Option<Read<Json>>)
    requires start <= |t|
    ensures Forward(r, start, t)
    decreases |t| - start, 2
  {
    var i := SkipBlank(t, start);
    var c := Peek(t, i);
    if c == LBRACE then
      var j := SkipBlank(t, i + 1);
      if Peek(t, j) == RBRACE then Some(Read(Obj(map[]), j + 1)) else ReadMembers(t, j, map[])
    else if c == LBRACKET then
      var j := SkipBlank(t, i + 1);
      if Peek(t, j) == RBRACKET then Some(Read(Arr([]), j + 1)) else ReadElements(t, j, [])
    else if c == QUOTE then
      var s := ReadString(t, i);
      if s.None? then None else Some(Read(Plain(Str(s.value.v)), s.value.pos))
    else if c == 116 then ReadLit(t, i, [116, 114, 117, 101], Bool(true))
    else if c == 102 then ReadLit(t, i, [102, 97, 108, 115, 101], Bool(false))
    else if c == 110 then ReadLit(t, i, [110, 117, 108, 108], Null)
    else if c == MINUS || IsDigit(c) then
      var n := ReadNumber(t, i);
      if n.None? then None else Some(Read(Plain(n.value.v), n.value.pos))
    else None
  }

  /** The rest of an array that has elements, after `acc`. */
  function ReadElements(t: Bytes, start: nat, acc: seq<Json>): (r: Option<Read<Json>>)
    requires start <= |t|
    ensures Forward(r, start, t)
    decreases |t| - start, 3
  {
    var v := ReadValue(t, SkipBlank(t, start));
    if v.None? then None
    else
      var j := SkipBlank(t, v.value.pos);
      if Peek(t, j) == COMMA then ReadElements(t, j + 1, acc + [v.value.v])
      else if Peek(t, j) == RBRACKET then Some(Read(Arr(acc + [v.value.v]), j + 1))
      else None
  }

  /** The rest of an object that has members; a key that comes again is overwritten. */
  function ReadMembers(t: Bytes, start: nat, acc: map<Bytes, Json>): (r: Option<Read<Json>>)
    requires start <= |t|
    ensures Forward(r, start, t)
    decreases |t| - start, 3
  {
    var key := ReadString(t, SkipBlank(t, start));
    if key.None? then None
    else
      var i := SkipBlank(t, key.value.pos);
      if Peek(t, i) != COLON then None
      else
        var v := ReadValue(t, SkipBlank(t, i + 1));
        if v.None? then None
        else
          var j := SkipBlank(t, v.value.pos);
          var now := acc[key.value.v := v.value.v];
          if Peek(t, j) == COMMA then ReadMembers(t, j + 1, now)
          else if Peek(t, j) == RBRACE then Some(Read(Obj(now), j + 1))
          else None
  }

  function Loads(t: Bytes): Option<Json> {
    var v := ReadValue(t, SkipBlank(t, 0));
    if v.None? || SkipBlank(t, v.value.pos) != |t| then None else Some(v.value.v)
  }
}
