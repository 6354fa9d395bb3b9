/**
 The JSON writer, which fills a growing byte buffer, and the JSON reader, which moves
 a position over the text.
 */
module JsonCodec {
  import opened Common
  import opened JsonText
  import opened JsonGrammar
  import opened JsonReading
  import opened JsonRoundTrip

  /** Bytes written so far, in an array that doubles when it is full. */
  class Buf {
    var data: array<Byte>
    var len: nat

    ghost predicate Valid() reads this { 0 < data.Length && len <= data.Length }

    ghost function View(): Bytes reads this, data requires Valid() { data[..len] }

    constructor ()
      ensures Valid() && fresh(data) && View() == []
    {
      data, len := new Byte[64], 0;
    }

    method Grow(need: nat)
      requires Valid()
      modifies this
      ensures Valid() && len == old(len) && len + need <= data.Length && View() == old(View())
      ensures data == old(data) || fresh(data)
    {
      if len + need <= data.Length { return; }
      var cap := data.Length;
      while len + need > cap
        invariant cap > 0
        decreases len + need - cap
      {
        cap := cap * 2;
      }
      var bigger := new Byte[cap];
      forall k | 0 <= k < len { bigger[k] := data[k]; }
      data := bigger;
    }

    method Put(s: Bytes)
      requires Valid()
      modifies this, data
      ensures Valid() && View() == old(View()) + s && (data == old(data) || fresh(data))
    {
      ghost var before := View();
      Grow(|s|);
      forall k | 0 <= k < |s| { data[len + k] := s[k]; }
      assert data[..len] == before && data[len..len + |s|] == s;
      len := len + |s|;
      assert data[..len] == before + s;
    }

    method WriteString(s: Bytes)
      requires Valid()
      modifies this, data
      ensures Valid() && View() == old(View()) + StrText(s) && (data == old(data) || fresh(data))
    {
      hide EscapedAll, Escaped;
      ghost var before := View();
      Put([QUOTE]);
      var i := 0;
      EscapedFrom(s, 0);
      while i < |s|
        invariant 0 <= i <= |s| && Valid() && (data == old(data) || fresh(data))
        invariant View() == before + [QUOTE] + EscapedAll(s[..i])
      {
        EscapedMore(s, i);
        ghost var now := View();
        WriteByte(s[i]);
        assert before + [QUOTE] + EscapedAll(s[..i]) + Escaped(s[i])
            == before + [QUOTE] + (EscapedAll(s[..i]) + Escaped(s[i]));
        i := i + 1;
      }
      assert s[..i] == s;
      Put([QUOTE]);
      assert before + [QUOTE] + EscapedAll(s) + [QUOTE] == before + ([QUOTE] + EscapedAll(s) + [QUOTE]);
    }

    method WriteByte(c: Byte)
      requires Valid()
      modifies this, data
      ensures Valid() && View() == old(View()) + Escaped(c) && (data == old(data) || fresh(data))
    {
      match c
      case 34 => Put([BACKSLASH, 34]);
      case 92 => Put([BACKSLASH, 92]);
      case 8 => Put([BACKSLASH, 98]);
      case 12 => Put([BACKSLASH, 102]);
      case 10 => Put([BACKSLASH, 110]);
      case 13 => Put([BACKSLASH, 114]);
      case 9 => Put([BACKSLASH, 116]);
      case _ =>
        if c < 32 { Put([BACKSLASH, 117, 48, 48, HexDigit(c / 16), HexDigit(c % 16)]); } else { Put([c]); }
    }

    /** Integers and floats are printed by the C library. */
    method WriteValue(d: Doc)
      requires Valid()
      modifies this, data
      ensures Valid() && View() == old(View()) + Text(d) && (data == old(data) || fresh(data))
      decreases d, 1
    {
      hide StrText, Elements, Members, IntText;
      match d
      case Leaf(Null) => Put([110, 117, 108, 108]);
      case Leaf(Bool(b)) => Put(if b then [116, 114, 117, 101] else [102, 97, 108, 115, 101]);
      case Leaf(Int(i)) => Put(IntText(i));
      case Leaf(Float(token)) => Put(token);
      case Leaf(Str(s)) => WriteString(s);
      case List(ds) => WriteList(ds);
      case Dict(ms) => WriteDict(ms);
    }

    method WriteList(ds: seq<Doc>)
      requires Valid()
      modifies this, data
      ensures Valid() && View() == old(View()) + ([LBRACKET] + Elements(ds) + [RBRACKET])
      ensures data == old(data) || fresh(data)
      decreases ds, 1
    {
      hide Text, Elements, ElementsLeft;
      ghost var before := View();
      var i := 0;
      Put([LBRACKET]);
      ghost var whole := before + [LBRACKET] + Elements(ds);
      ElementsEnds(ds);
      while i < |ds|
        invariant 0 <= i <= |ds| && Valid() && (data == old(data) || fresh(data))
        invariant View() + ElementsLeft(ds, i) == whole
      {
        ElementsNext(ds, i);
        ghost var now := View();
        if i > 0 { Put([COMMA]); }
        WriteValue(ds[i]);
        Cat3(now, if i > 0 then [COMMA] else [], Text(ds[i]), ElementsLeft(ds, i + 1));
        i := i + 1;
      }
      assert View() + [] == View();
      Put([RBRACKET]);
      Cat3(before, [LBRACKET], Elements(ds), [RBRACKET]);
    }

    method WriteMember(ms: seq<Member>, i: nat)
      requires Valid() && i < |ms|
      modifies this, data
      ensures Valid() && (data == old(data) || fresh(data))
      ensures View() + MembersLeft(ms, i + 1) == old(View()) + MembersLeft(ms, i)
      decreases ms, 0
    {
      hide Text, Members, StrText, MembersLeft;
      ghost var now := View();
      var e := ms[i];
      MembersNext(ms, i);
      if i > 0 { Put([COMMA]); }
      WriteString(e.key);
      Put([COLON]);
      WriteValue(e.val);
      Cat5(now, if i > 0 then [COMMA] else [], StrText(e.key), [COLON], Text(e.val), MembersLeft(ms, i + 1));
      assert i == 0 ==> now + [] == now;
    }

    /** `ms` is what the walk over the table meets. */
    method WriteDict(ms: seq<Member>)
      requires Valid()
      modifies this, data
      ensures Valid() && View() == old(View()) + ([LBRACE] + Members(ms) + [RBRACE])
      ensures data == old(data) || fresh(data)
      decreases ms, 1
    {
      hide Text, Members, StrText, MembersLeft;
      ghost var before := View();
      var i := 0;
      Put([LBRACE]);
      ghost var whole := before + [LBRACE] + Members(ms);
      MembersEnds(ms);
      while i < |ms|
        invariant 0 <= i <= |ms| && Valid() && (data == old(data) || fresh(data))
        invariant View() + MembersLeft(ms, i) == whole
      {
        WriteMember(ms, i);
        i := i + 1;
      }
      assert View() + [] == View();
      Put([RBRACE]);
      Cat3(before, [LBRACE], Members(ms), [RBRACE]);
    }
  }

  lemma EscapedFrom(s: Bytes, i: nat)
    requires i == 0
    ensures EscapedAll(s[..i]) == []
  {
  }

  lemma {:induction false} EscapedMore(s: Bytes, i: nat)
    requires i < |s|
    ensures EscapedAll(s[..i + 1]) == EscapedAll(s[..i]) + Escaped(s[i])
    decreases i
  {
    hide Escaped;
    if i > 0 {
      EscapedMore(s[1..], i - 1);
      assert s[..i + 1][1..] == s[1..][..i] && s[..i][1..] == s[1..][..i - 1];
    }
  }

  function ElementsLeft(ds: seq<Doc>, i: nat): Bytes
    requires i <= |ds|
  {
    (if 0 < i < |ds| then [COMMA] else []) + Elements(ds[i..])
  }

  lemma ElementsNext(ds: seq<Doc>, i: nat)
    requires i < |ds|
    ensures ElementsLeft(ds, i) == (if i > 0 then [COMMA] else []) + Text(ds[i]) + ElementsLeft(ds, i + 1)
  {
    hide Text;
    var rest := ds[i..];
    assert rest[1..] == ds[i + 1..];
  }

  function MembersLeft(ms: seq<Member>, i: nat): Bytes
    requires i <= |ms|
  {
    (if 0 < i < |ms| then [COMMA] else []) + Members(ms[i..])
  }

  lemma MembersNext(ms: seq<Member>, i: nat)
    requires i < |ms|
    ensures MembersLeft(ms, i)
      == (if i > 0 then [COMMA] else []) + StrText(ms[i].key) + [COLON] + Text(ms[i].val) + MembersLeft(ms, i + 1)
  {
    hide Text, StrText;
    var rest := ms[i..];
    assert rest[1..] == ms[i + 1..] && rest[0] == ms[i];
  }

  lemma ElementsEnds(ds: seq<Doc>)
    ensures ElementsLeft(ds, 0) == Elements(ds) && ElementsLeft(ds, |ds|) == []
  {
    assert ds[0..] == ds && ds[|ds|..] == [];
  }

  lemma MembersEnds(ms: seq<Member>)
    ensures MembersLeft(ms, 0) == Members(ms) && MembersLeft(ms, |ms|) == []
  {
    assert ms[0..] == ms && ms[|ms|..] == [];
  }

  lemma Cat3(now: Bytes, a: Bytes, b: Bytes, c: Bytes)
    ensures now + (a + b + c) == now + a + b + c
  {
  }

  lemma Cat5(now: Bytes, a: Bytes, b: Bytes, c: Bytes, d: Bytes, e: Bytes)
    ensures now + (a + b + c + d + e) == now + a + b + c + d + e
  {
  }

  // ---- reading ----

  class Reader {
    const data: Bytes
    var pos: nat

    constructor (data: Bytes)
      ensures this.data == data && pos == 0
    {
      this.data, pos := data, 0;
    }

    ghost predicate Did<T>(r: Option<T>, g: Option<Read<T>>) reads this {
      if g.None? then r.None? else r == Some(g.value.v) && pos == g.value.pos
    }

    function PeekByte(): (c: int) reads this ensures c == Peek(data, pos) {
      if pos >= |data| then -1 else data[pos]
    }

    method SkipWs()
      requires pos <= |data|
      modifies this
      ensures pos == SkipBlank(data, old(pos))
    {
      while pos < |data|
        invariant old(pos) <= pos <= |data| && SkipBlank(data, pos) == SkipBlank(data, old(pos))
      {
        var c := data[pos];
        if c == 32 || c == 9 || c == 10 || c == 13 { pos := pos + 1; } else { break; }
      }
    }

    method ExpectLit(lit: Bytes) returns (ok: bool)
      modifies this
      ensures ok <==> LitAt(data, old(pos), lit)
      ensures ok ==> pos == old(pos) + |lit|
    {
      if pos + |lit| > |data| || data[pos..pos + |lit|] != lit { return false; }
      pos := pos + |lit|;
      return true;
    }

    method ParseHex4() returns (r: Option<nat>)
      modifies this
      ensures r == ReadHex4(data, old(pos)) && (r.Some? ==> pos == old(pos) + 4)
    {
      if pos + 4 > |data| { return None; }
      var v: nat, i := 0, 0;
      while i < 4
        invariant 0 <= i <= 4
        invariant ReadHex4(data, pos) == HexFrom(data, pos, i, v)
      {
        var d := HexValue(data[pos + i]);
        if d.None? { return None; }
        v := v * 16 + d.value;
        i := i + 1;
      }
      pos := pos + 4;
      return Some(v);
    }

    method ParseEscape() returns (r: Option<Bytes>)
      requires pos <= |data|
      modifies this
      ensures Did(r, ReadEscape(data, old(pos)))
    {
      hide ReadHex4, Utf8;
      if pos >= |data| { return None; }
      var e := data[pos];
      pos := pos + 1;
      match e
      case 34 => return Some([e]);
      case 92 => return Some([e]);
      case 47 => return Some([e]);
      case 98 => return Some([8]);
      case 102 => return Some([12]);
      case 110 => return Some([10]);
      case 114 => return Some([13]);
      case 116 => return Some([9]);
      case 117 =>
        var cp := ParseHex4();
        if cp.None? { return None; }
        if !(0xD800 <= cp.value <= 0xDBFF) { return Some(Utf8(cp.value)); }
        if pos + 2 <= |data| && data[pos] == BACKSLASH && data[pos + 1] == 117 {
          pos := pos + 2;
          var lo := ParseHex4();
          if lo.None? || !(0xDC00 <= lo.value <= 0xDFFF) { return None; }
          return Some(Utf8(0x10000 + (cp.value - 0xD800) * 1024 + (lo.value - 0xDC00)));
        }
        return None;
      case _ => return None;
    }

    method ParseString() returns (r: Option<Bytes>)
      requires pos <= |data|
      modifies this
      ensures Did(r, ReadString(data, old(pos)))
    {
      hide ReadEscape;
      if PeekByte() != QUOTE { return None; }
      pos := pos + 1;
      var buf: Bytes := [];
      while true
        invariant old(pos) < pos <= |data| && ReadChars(data, pos, buf) == ReadString(data, old(pos))
        decreases |data| - pos
      {
        if pos >= |data| { return None; }
        var c := data[pos];
        pos := pos + 1;
        if c == QUOTE { break; }
        if c == BACKSLASH {
          var e := ParseEscape();
          if e.None? { return None; }
          buf := buf + e.value;
        } else if c < 32 {
          return None;
        } else {
          buf := buf + [c];
        }
      }
      return Some(buf);
    }

    method SkipDigits()
      requires pos <= |data|
      modifies this
      ensures pos == Digits(data, old(pos))
    {
      while IsDigit(PeekByte())
        invariant old(pos) <= pos <= |data| && Digits(data, pos) == Digits(data, old(pos))
        decreases |data| - pos
      {
        pos := pos + 1;
      }
    }

    method ParseFraction() returns (ok: bool, found: bool)
      requires pos <= |data|
      modifies this
      ensures ok <==> Fraction(data, old(pos)).Some?
      ensures ok ==> pos == Fraction(data, old(pos)).value && found == (pos > old(pos))
    {
      found := PeekByte() == 46;
      if found {
        pos := pos + 1;
        if !IsDigit(PeekByte()) { return false, found; }
        SkipDigits();
      }
      return true, found;
    }

    method ParseExponent() returns (ok: bool, found: bool)
      requires pos <= |data|
      modifies this
      ensures ok <==> Exponent(data, old(pos)).Some?
      ensures ok ==> pos == Exponent(data, old(pos)).value && found == (pos > old(pos))
    {
      found := PeekByte() == 101 || PeekByte() == 69;
      if found {
        pos := pos + 1;
        if PeekByte() == 43 || PeekByte() == MINUS { pos := pos + 1; }
        if !IsDigit(PeekByte()) { return false, found; }
        SkipDigits();
      }
      return true, found;
    }

    method ParseNumber() returns (r: Option<Atom>)
      requires pos <= |data|
      modifies this
      ensures Did(r, ReadNumber(data, old(pos)))
    {
      hide Digits, IntValue, Fraction, Exponent;
      var start := pos;
      if PeekByte() == MINUS { pos := pos + 1; }
      if PeekByte() == DIGIT_0 {
        pos := pos + 1;
      } else if 49 <= PeekByte() <= 57 {
        SkipDigits();
      } else {
        return None;
      }
      var ok, fraction := ParseFraction();
      if !ok { return None; }
      var exponent;
      ok, exponent := ParseExponent();
      if !ok { return None; }
      var token := data[start..pos];
      return Some(if fraction || exponent || |token| >= 64 then Float(token) else Int(IntValue(token)));
    }

    method ParseValue() returns (r: Option<Json>)
      requires pos <= |data|
      modifies this
      ensures Did(r, ReadValue(data, old(pos)))
      decreases |data| - pos, 2
    {
      hide SkipBlank, ReadString, ReadNumber, ReadElements, ReadMembers;
      SkipWs();
      var c := PeekByte();
      if c == LBRACE {
        r := ParseObject();
      } else if c == LBRACKET {
        r := ParseArray();
      } else if c == QUOTE {
        var s := ParseString();
        r := if s.None? then None else Some(Plain(Str(s.value)));
      } else if c == 116 {
        var ok := ExpectLit([116, 114, 117, 101]);
        r := if ok then Some(Plain(Bool(true))) else None;
      } else if c == 102 {
        var ok := ExpectLit([102, 97, 108, 115, 101]);
        r := if ok then Some(Plain(Bool(false))) else None;
      } else if c == 110 {
        var ok := ExpectLit([110, 117, 108, 108]);
        r := if ok then Some(Plain(Null)) else None;
      } else if c == MINUS || IsDigit(c) {
        var n := ParseNumber();
        r := if n.None? then None else Some(Plain(n.value));
      } else {
        r := None;
      }
    }

    method ParseArray() returns (r: Option<Json>)
      requires Peek(data, pos) == LBRACKET
      modifies this
      ensures var j := SkipBlank(data, old(pos) + 1);
        Did(r, if Peek(data, j) == RBRACKET then Some(Read(Arr([]), j + 1)) else ReadElements(data, j, []))
      decreases |data| - pos, 1
    {
      hide SkipBlank, ReadValue;
      pos := pos + 1;
      SkipWs();
      if PeekByte() == RBRACKET {
        pos := pos + 1;
        return Some(Arr([]));
      }
      var list: seq<Json> := [];
      ghost var goal := ReadElements(data, pos, []);
      while true
        invariant old(pos) < pos <= |data| && ReadElements(data, pos, list) == goal
        decreases |data| - pos
      {
        SkipWs();
        var v := ParseValue();
        if v.None? { return None; }
        list := list + [v.value];
        SkipWs();
        var c := PeekByte();
        if c == COMMA { pos := pos + 1; continue; }
        if c == RBRACKET { pos := pos + 1; break; }
        return None;
      }
      return Some(Arr(list));
    }

    method ParseObject() returns (r: Option<Json>)
      requires Peek(data, pos) == LBRACE
      modifies this
      ensures Did(r, ObjectFrom(data, old(pos) + 1))
      decreases |data| - pos, 1
    {
      hide SkipBlank, ReadValue, ReadString, ReadMembers, Blank, Peek, ObjectFrom;
      assert PeekByte() == LBRACE;
      pos := pos + 1;
      ObjectStart(data, pos);
      SkipWs();
      if PeekByte() == RBRACE {
        pos := pos + 1;
        return Some(Obj(map[]));
      }
      var m: map<Bytes, Json> := map[];
      ghost var goal := ReadMembers(data, pos, map[]);
      while true
        invariant old(pos) < pos <= |data| && ReadMembers(data, pos, m) == goal
        decreases |data| - pos
      {
        ghost var start := pos;
        SkipWs();
        var key := ParseString();
        if key.None? { NoMember(data, start, m); return None; }
        ghost var i := pos;
        SkipWs();
        if PeekByte() != COLON { NoMember(data, start, m); return None; }
        pos := pos + 1;
        SkipWs();
        var v := ParseValue();
        if v.None? { NoMember(data, start, m); return None; }
        OneMember(data, start, m, Read(key.value, i), Read(v.value, pos));
        m := m[key.value := v.value];
        SkipWs();
        var c := PeekByte();
        if c == COMMA { pos := pos + 1; continue; }
        if c == RBRACE { pos := pos + 1; break; }
        return None;
      }
      return Some(Obj(m));
    }
  }

  /** What follows an opening brace. */
  function ObjectFrom(t: Bytes, i: nat): Option<Read<Json>>
    requires i <= |t|
  {
    var j := SkipBlank(t, i);
    if Peek(t, j) == RBRACE then Some(Read(Obj(map[]), j + 1)) else ReadMembers(t, j, map[])
  }

  lemma ObjectStart(t: Bytes, i: nat)
    requires i <= |t|
    ensures var j := SkipBlank(t, i);
      ObjectFrom(t, i) == if Peek(t, j) == RBRACE then Some(Read(Obj(map[]), j + 1)) else ReadMembers(t, j, map[])
  {
    hide SkipBlank, ReadMembers, Peek;
  }

  /** A member that is not there, or not whole. */
  lemma NoMember(t: Bytes, start: nat, acc: map<Bytes, Json>)
    requires start <= |t|
    requires var key := ReadString(t, SkipBlank(t, start));
      key.Some? ==> var i := SkipBlank(t, key.value.pos);
        Peek(t, i) == COLON ==> ReadValue(t, SkipBlank(t, i + 1)).None?
    ensures ReadMembers(t, start, acc).None?
  {
    hide SkipBlank, ReadValue, ReadString;
  }

  /** A whole member, and what follows it. */
  lemma OneMember(t: Bytes, start: nat, acc: map<Bytes, Json>, key: Read<Bytes>, v: Read<Json>)
    requires start <= |t| && ReadString(t, SkipBlank(t, start)) == Some(key)
    requires var i := SkipBlank(t, key.pos); Peek(t, i) == COLON && ReadValue(t, SkipBlank(t, i + 1)) == Some(v)
    ensures var r, j, now := ReadMembers(t, start, acc), SkipBlank(t, v.pos), acc[key.v := v.v];
      && (Peek(t, j) == COMMA ==> r == ReadMembers(t, j + 1, now))
      && (Peek(t, j) == RBRACE ==> r == Some(Read(Obj(now), j + 1)))
      && (Peek(t, j) != COMMA && Peek(t, j) != RBRACE ==> r.None?)
  {
    hide SkipBlank, ReadValue, ReadString;
  }

  /** The rest of four hexadecimal digits, `i` of them read. */
  function HexFrom(t: Bytes, pos: nat, i: nat, v: nat): Option<nat>
    requires pos + 4 <= |t| && i <= 4
    decreases 4 - i
  {
    if i == 4 then Some(v)
    else
      var d := HexValue(t[pos + i]);
      if d.None? then None else HexFrom(t, pos, i + 1, v * 16 + d.value)
  }

  // ---- the two entry points ----

  method Dumps(d: Doc) returns (t: Bytes)
    ensures t == Text(d)
    ensures Exact(d) ==> IsJson(t, Meaning(d))
  {
    hide Text, Exact, IsJson, Meaning;
    var b := new Buf();
    b.WriteValue(d);
    assert [] + Text(d) == Text(d);
    t := b.data[..b.len];
    if Exact(d) { DumpsWrites(d); }
  }

  method LoadsText(t: Bytes) returns (r: Option<Json>)
    ensures r == Loads(t)
    ensures forall v :: r == Some(v) <==> IsJson(t, v)
  {
    hide ReadValue, IsJson;
    forall v ensures Loads(t) == Some(v) <==> IsJson(t, v) { LoadsExactly(t, v); }
    var p := new Reader(t);
    p.SkipWs();
    r := p.ParseValue();
    if r.None? { return; }
    p.SkipWs();
    if p.pos != |t| { return None; }
  }

  /** Writing an exact value and reading the text gives its meaning back. */
  method ThereAndBack(d: Doc) returns (r: Option<Json>)
    requires Exact(d)
    ensures r == Some(Meaning(d))
  {
    hide Text, Exact, Loads, Meaning;
    var t := Dumps(d);
    LoadsDumps(d);
    r := LoadsText(t);
  }
}
