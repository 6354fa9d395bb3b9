/**
 UTF-8 from its decoder, and hexadecimal digits: the references for what the readers of
 JSON and of string literals produce.
 */
module Unicode {
  import opened Common

  predicate Continues(b: Byte) { 128 <= b < 192 }

  /** Six more bits. */
  function Then(high: nat, b: Byte): nat { 64 * high + b % 64 }

  /** A longer sequence than the code point needs is not allowed, nor is a code point
      outside Unicode. */
  function AtLeast(least: nat, cp: nat): Option<nat> { if least <= cp < 0x110000 then Some(cp) else None }

  /** The code point that `b` encodes, when it is one shortest-form sequence of UTF-8
      (surrogates, which RFC 3629 excludes, decode too). */
  function Decode(b: Bytes): Option<nat> {
    if |b| == 1 && b[0] < 128 then Some(b[0])
    else if |b| == 2 && 192 <= b[0] < 224 && Continues(b[1]) then AtLeast(0x80, Then(b[0] - 192, b[1]))
    else if |b| == 3 && 224 <= b[0] < 240 && Continues(b[1]) && Continues(b[2]) then
      AtLeast(0x800, Then(Then(b[0] - 224, b[1]), b[2]))
    else if |b| == 4 && 240 <= b[0] < 248 && Continues(b[1]) && Continues(b[2]) && Continues(b[3]) then
      AtLeast(0x10000, Then(Then(Then(b[0] - 240, b[1]), b[2]), b[3]))
    else None
  }

  lemma ThenOf(cp: nat)
    ensures Continues(128 + cp % 64) && Then(cp / 64, 128 + cp % 64) == cp
  {
    assert (128 + cp % 64) % 64 == cp % 64;
  }

  lemma SomeCode(cp: nat)
    requires cp < 0x110000
    ensures exists b :: Decode(b) == Some(cp)
  {
    hide Then, Continues;
    var low, next, top := cp / 64, cp / 64 / 64, cp / 64 / 64 / 64;
    ThenOf(cp);
    ThenOf(low);
    ThenOf(next);
    if cp < 0x80 { assert Decode([cp]) == Some(cp); }
    else if cp < 0x800 { assert Decode([192 + low, 128 + cp % 64]) == Some(cp); }
    else if cp < 0x10000 { assert Decode([224 + next, 128 + low % 64, 128 + cp % 64]) == Some(cp); }
    else { assert Decode([240 + top, 128 + next % 64, 128 + low % 64, 128 + cp % 64]) == Some(cp); }
  }

  lemma ThenOne(h: nat, b: Byte, k: nat, c: Byte)
    requires Continues(b) && Continues(c) && Then(h, b) == Then(k, c)
    ensures h == k && b == c
  {
    assert b % 64 == b - 128 && c % 64 == c - 128;
  }

  lemma OneCode(a: Bytes, b: Bytes)
    requires Decode(a).Some? && Decode(a) == Decode(b)
    ensures a == b
  {
    hide Then, Continues;
    Lengths(a);
    Lengths(b);
    match |a|
    case 2 => ThenOne(a[0] - 192, a[1], b[0] - 192, b[1]);
    case 3 =>
      ThenOne(Then(a[0] - 224, a[1]), a[2], Then(b[0] - 224, b[1]), b[2]);
      ThenOne(a[0] - 224, a[1], b[0] - 224, b[1]);
    case 4 =>
      ThenOne(Then(Then(a[0] - 240, a[1]), a[2]), a[3], Then(Then(b[0] - 240, b[1]), b[2]), b[3]);
      ThenOne(Then(a[0] - 240, a[1]), a[2], Then(b[0] - 240, b[1]), b[2]);
      ThenOne(a[0] - 240, a[1], b[0] - 240, b[1]);
    case _ =>
  }

  /** The code point fixes the length. */
  lemma Lengths(b: Bytes)
    requires Decode(b).Some?
    ensures var cp := Decode(b).value;
      |b| == if cp < 0x80 then 1 else if cp < 0x800 then 2 else if cp < 0x10000 then 3 else 4
  {
  }

  /** The one sequence that encodes `cp`. */
  ghost function CodeBytes(cp: nat): (b: Bytes)
    requires cp < 0x110000
    ensures Decode(b) == Some(cp)
  {
    SomeCode(cp);
    var b :| Decode(b) == Some(cp);
    b
  }

  // ---- hexadecimal digits ----

  predicate IsHex(b: Byte) { 48 <= b <= 57 || 65 <= b <= 70 || 97 <= b <= 102 }

  function HexOf(b: Byte): (r: nat)
    requires IsHex(b)
    ensures r < 16
  {
    if b <= 57 then b - 48 else if b <= 70 then b - 55 else b - 87
  }
}
