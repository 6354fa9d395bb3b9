/**
 split, join, count and replace on byte strings. Each runs its own scan; they agree
 because all of them cut the string at the same places.
 */
module Strings {
  import opened Common

  predicate At(s: Bytes, i: int, sub: Bytes) {
    0 <= i && i + |sub| <= |s| && s[i..i + |sub|] == sub
  }

  /** The first occurrence of `sub` at or after `from`. */
  function First(s: Bytes, sub: Bytes, from: nat): (r: Option<nat>)
    ensures r.Some? ==> At(s, r.value, sub) && from <= r.value && forall j :: from <= j < r.value ==> !At(s, j, sub)
    ensures r.None? ==> forall j :: from <= j ==> !At(s, j, sub)
    decreases |s| - from
  {
    if from + |sub| > |s| then None
    else if At(s, from, sub) then Some(from)
    else if from == |s| then None
    else First(s, sub, from + 1)
  }

  /** `s` cut at its leftmost non-overlapping occurrences of `sep`. */
  function Pieces(s: Bytes, sep: Bytes): (ps: seq<Bytes>)
    requires sep != []
    ensures ps != []
  {
    var i := First(s, sep, 0);
    if i.None? then [s] else [s[..i.value]] + Pieces(s[i.value + |sep|..], sep)
  }

  function Join(sep: Bytes, ps: seq<Bytes>): Bytes {
    if ps == [] then [] else if |ps| == 1 then ps[0] else ps[0] + sep + Join(sep, ps[1..])
  }

  lemma PiecesAt(s: Bytes, sep: Bytes, i: nat)
    requires sep != [] && At(s, i, sep) && forall j :: 0 <= j < i ==> !At(s, j, sep)
    ensures Pieces(s, sep) == [s[..i]] + Pieces(s[i + |sep|..], sep)
  {
    assert First(s, sep, 0) == Some(i);
  }

  lemma PiecesNone(s: Bytes, sep: Bytes)
    requires sep != [] && forall j :: 0 <= j ==> !At(s, j, sep)
    ensures Pieces(s, sep) == [s]
  {
    assert First(s, sep, 0).None?;
  }

  // ---- what cutting means ----

  lemma {:induction false} JoinPieces(s: Bytes, sep: Bytes)
    requires sep != []
    ensures Join(sep, Pieces(s, sep)) == s
  {
    var i := First(s, sep, 0);
    if i.Some? {
      var rest := s[i.value + |sep|..];
      JoinPieces(rest, sep);
      assert Pieces(s, sep)[1..] == Pieces(rest, sep);
      assert s == s[..i.value] + sep + rest;
    }
  }

  ghost predicate Free(p: Bytes, sep: Bytes) { forall j :: !At(p, j, sep) }

  lemma {:induction false} PiecesFree(s: Bytes, sep: Bytes, k: nat)
    requires sep != [] && k < |Pieces(s, sep)|
    ensures Free(Pieces(s, sep)[k], sep)
  {
    var i := First(s, sep, 0);
    if i.Some? {
      if k == 0 {
        forall j ensures !At(s[..i.value], j, sep) {
          if At(s[..i.value], j, sep) {
            assert s[..i.value][j..j + |sep|] == s[j..j + |sep|];
            assert At(s, j, sep);
          }
        }
      } else {
        PiecesFree(s[i.value + |sep|..], sep, k - 1);
      }
    }
  }

  /** A way to cut `s` in which every piece but the last ends where `sep` first occurs. */
  ghost predicate LeftmostCut(s: Bytes, sep: Bytes, ps: seq<Bytes>) {
    && ps != [] && Join(sep, ps) == s && Free(ps[|ps| - 1], sep)
    && forall k, j :: 0 <= k < |ps| - 1 && j < |ps[k]| ==> !At(ps[k] + sep, j, sep)
  }

  /** There is only one such way, and Pieces is it. */
  lemma {:induction false} CutUnique(s: Bytes, sep: Bytes, ps: seq<Bytes>)
    requires sep != [] && LeftmostCut(s, sep, ps)
    ensures ps == Pieces(s, sep)
    decreases |ps|
  {
    hide At, First, Pieces;
    if |ps| == 1 {
      assert s == ps[0];
      PiecesNone(s, sep);
    } else {
      var a, rest := |ps[0]|, Join(sep, ps[1..]);
      CutFirst(s, sep, ps[0], rest);
      PiecesAt(s, sep, a);
      CutUnique(rest, sep, ps[1..]);
      assert ps == [ps[0]] + ps[1..];
    }
  }

  lemma CutFirst(s: Bytes, sep: Bytes, p: Bytes, rest: Bytes)
    requires s == p + sep + rest && forall j :: j < |p| ==> !At(p + sep, j, sep)
    ensures At(s, |p|, sep) && forall j :: 0 <= j < |p| ==> !At(s, j, sep)
    ensures s[..|p|] == p && s[|p| + |sep|..] == rest
  {
    forall j | 0 <= j < |p| ensures !At(s, j, sep) {
      if At(s, j, sep) {
        assert (p + sep)[j..j + |sep|] == s[j..j + |sep|];
        assert At(p + sep, j, sep);
      }
    }
  }

  lemma {:induction false} PiecesCut(s: Bytes, sep: Bytes)
    requires sep != []
    ensures LeftmostCut(s, sep, Pieces(s, sep))
  {
    var i, ps := First(s, sep, 0), Pieces(s, sep);
    JoinPieces(s, sep);
    PiecesFree(s, sep, |ps| - 1);
    if i.Some? {
      var a, rest := i.value, s[i.value + |sep|..];
      PiecesCut(rest, sep);
      forall k, j | 0 <= k < |ps| - 1 && j < |ps[k]| ensures !At(ps[k] + sep, j, sep) {
        if k == 0 {
          assert ps[0] + sep == s[..a + |sep|];
          if At(ps[0] + sep, j, sep) { assert s[..a + |sep|][j..j + |sep|] == s[j..j + |sep|]; assert At(s, j, sep); }
        } else {
          assert ps[k] == Pieces(rest, sep)[k - 1];
        }
      }
    }
  }

  // ---- one byte or one occurrence further ----

  lemma Shift(s: Bytes, k: nat, i: int, sub: Bytes)
    requires k <= |s| && 0 <= i
    ensures At(s[k..], i, sub) <==> At(s, k + i, sub)
  {
    if i + |sub| <= |s| - k { assert s[k..][i..i + |sub|] == s[k + i..k + i + |sub|]; }
  }

  lemma PiecesSkip(s: Bytes, sep: Bytes)
    requires sep != [] && s != [] && !At(s, 0, sep)
    ensures var ps := Pieces(s[1..], sep); Pieces(s, sep) == [[s[0]] + ps[0]] + ps[1..]
  {
    hide At, First, Pieces;
    var t, j := s[1..], First(s[1..], sep, 0);
    forall k: nat ensures At(t, k, sep) <==> At(s, k + 1, sep) { Shift(s, 1, k, sep); }
    if j.Some? {
      var a := j.value;
      forall k | 0 <= k < a + 1 ensures !At(s, k, sep) {
        if k > 0 { assert !At(t, k - 1, sep); }
      }
      AtFits(t, a, sep);
      PiecesAt(t, sep, a);
      PiecesAt(s, sep, a + 1);
      assert t[a + |sep|..] == s[a + 1 + |sep|..] && s[..a + 1] == [s[0]] + t[..a];
    } else {
      forall k | 0 <= k ensures !At(s, k, sep) {
        if k > 0 { assert !At(t, k - 1, sep); }
      }
      PiecesNone(t, sep);
      PiecesNone(s, sep);
      assert s == [s[0]] + t;
    }
  }

  lemma AtFits(s: Bytes, i: int, sub: Bytes)
    requires At(s, i, sub)
    ensures 0 <= i && i + |sub| <= |s|
  {
  }

  lemma PiecesHit(s: Bytes, sep: Bytes)
    requires sep != [] && At(s, 0, sep)
    ensures Pieces(s, sep) == [[]] + Pieces(s[|sep|..], sep)
  {
    assert First(s, sep, 0) == Some(0);
  }

  lemma JoinSkip(sep: Bytes, ps: seq<Bytes>, c: Byte)
    requires ps != []
    ensures Join(sep, [[c] + ps[0]] + ps[1..]) == [c] + Join(sep, ps)
  {
    var qs := [[c] + ps[0]] + ps[1..];
    assert qs[1..] == ps[1..];
    if |ps| > 1 { assert Join(sep, qs) == qs[0] + sep + Join(sep, ps[1..]); }
  }

  lemma JoinHit(sep: Bytes, ps: seq<Bytes>)
    requires ps != []
    ensures Join(sep, [[]] + ps) == sep + Join(sep, ps)
  {
    assert ([[]] + ps)[1..] == ps;
  }

  // ---- the runtime's scans ----

  /** `s.split(sep)` for a non-empty separator. */
  method Split(s: Bytes, sep: Bytes) returns (list: seq<Bytes>)
    requires sep != []
    ensures list == Pieces(s, sep)
  {
    hide Pieces;
    list := [];
    var n, sn, start, i := |s|, |sep|, 0, 0;
    assert s[0..] == s;
    while i + sn <= n
      invariant 0 <= start <= i <= n
      invariant list + Pieces(s[start..], sep) == Pieces(s, sep)
      invariant forall j :: start <= j < i ==> !At(s, j, sep)
    {
      if s[i..i + sn] == sep {
        FirstIs(s, sep, start, i);
        assert list + ([s[start..i]] + Pieces(s[i + sn..], sep)) == list + [s[start..i]] + Pieces(s[i + sn..], sep);
        list := list + [s[start..i]];
        i := i + sn;
        start := i;
      } else {
        i := i + 1;
      }
    }
    NoneLeft(s, sep, start, i);
    list := list + [s[start..]];
  }

  lemma FirstIs(s: Bytes, sep: Bytes, start: nat, i: nat)
    requires sep != [] && start <= i && At(s, i, sep) && forall j :: start <= j < i ==> !At(s, j, sep)
    ensures Pieces(s[start..], sep) == [s[start..i]] + Pieces(s[i + |sep|..], sep)
  {
    hide At, First, Pieces;
    AtFits(s, i, sep);
    var t := s[start..];
    forall k: nat ensures At(t, k, sep) <==> At(s, start + k, sep) { Shift(s, start, k, sep); }
    assert At(t, i - start, sep);
    PiecesAt(t, sep, i - start);
    assert t[..i - start] == s[start..i] && t[i - start + |sep|..] == s[i + |sep|..];
  }

  lemma NoneLeft(s: Bytes, sep: Bytes, start: nat, i: nat)
    requires sep != [] && start <= i && start <= |s| && i + |sep| > |s| && forall j :: start <= j < i ==> !At(s, j, sep)
    ensures Pieces(s[start..], sep) == [s[start..]]
  {
    forall k: nat ensures !At(s[start..], k, sep) { Shift(s, start, k, sep); }
  }

  /** `sep.join(parts)`: one pass for the length, one to copy. */
  method JoinParts(sep: Bytes, parts: seq<Bytes>) returns (out: array<Byte>)
    ensures fresh(out) && out[..] == Join(sep, parts)
  {
    var total, i := 0, 0;
    while i < |parts|
      invariant 0 <= i <= |parts| && total == |Join(sep, parts[..i])|
    {
      JoinMore(sep, parts, i);
      total := total + |parts[i]|;
      if i > 0 { total := total + |sep|; }
      i := i + 1;
    }
    assert parts[..|parts|] == parts;
    out := new Byte[total];
    var j := 0;
    i := 0;
    while i < |parts|
      invariant 0 <= i <= |parts| && j == |Join(sep, parts[..i])| <= total == out.Length
      invariant out[..j] == Join(sep, parts[..i])
    {
      JoinMore(sep, parts, i);
      JoinFits(sep, parts, i + 1);
      if i > 0 { j := Copy(out, j, sep); }
      j := Copy(out, j, parts[i]);
      i := i + 1;
    }
  }

  method Copy(out: array<Byte>, j: nat, src: Bytes) returns (end: nat)
    requires j + |src| <= out.Length
    modifies out
    ensures end == j + |src| && out[..end] == old(out[..j]) + src
  {
    forall k | 0 <= k < |src| { out[j + k] := src[k]; }
    end := j + |src|;
    assert out[..j] == old(out[..j]) && out[j..end] == src;
    assert out[..end] == out[..j] + out[j..end];
  }

  lemma {:induction false} JoinMore(sep: Bytes, parts: seq<Bytes>, i: nat)
    requires i < |parts|
    ensures Join(sep, parts[..i + 1]) == Join(sep, parts[..i]) + (if i > 0 then sep else []) + parts[i]
    decreases i
  {
    if i > 0 {
      JoinMore(sep, parts[1..], i - 1);
      assert parts[..i + 1][1..] == parts[1..][..i] && parts[..i][1..] == parts[1..][..i - 1];
      if i > 1 { assert parts[..i][0] == parts[0]; }
      assert parts[1..][i - 1] == parts[i];
    }
  }

  lemma {:induction false} JoinFits(sep: Bytes, parts: seq<Bytes>, i: nat)
    requires i <= |parts|
    ensures |Join(sep, parts[..i])| <= |Join(sep, parts)|
    decreases |parts| - i
  {
    if i < |parts| {
      JoinMore(sep, parts, i);
      JoinFits(sep, parts, i + 1);
    } else {
      assert parts[..i] == parts;
    }
  }

  /** Joining the pieces with another separator changes the length by so much. */
  lemma {:induction false} JoinLength(a: Bytes, b: Bytes, ps: seq<Bytes>)
    requires ps != []
    ensures |Join(b, ps)| == |Join(a, ps)| + (|ps| - 1) * (|b| - |a|)
  {
    if |ps| > 1 {
      JoinLength(a, b, ps[1..]);
      assert (|ps| - 1) * (|b| - |a|) == (|ps| - 2) * (|b| - |a|) + (|b| - |a|);
    }
  }

  /** Non-overlapping occurrences, one fewer than the pieces. */
  method Count(s: Bytes, sub: Bytes) returns (cnt: nat)
    ensures cnt == if sub == [] then |s| + 1 else |Pieces(s, sub)| - 1
  {
    hide Pieces, First;
    var n, m := |s|, |sub|;
    if m == 0 { return n + 1; }
    cnt := 0;
    var i := 0;
    assert s[0..] == s;
    while i + m <= n
      invariant 0 <= i <= n && cnt + |Pieces(s[i..], sub)| == |Pieces(s, sub)|
    {
      Shift(s, i, 0, sub);
      if s[i..i + m] == sub {
        PiecesHit(s[i..], sub);
        assert s[i..][m..] == s[i + m..];
        cnt := cnt + 1;
        i := i + m;
      } else {
        PiecesSkip(s[i..], sub);
        assert s[i..][1..] == s[i + 1..];
        i := i + 1;
      }
    }
    TooShort(s[i..], sub);
  }

  lemma TooShort(s: Bytes, sub: Bytes)
    requires |s| < |sub|
    ensures Pieces(s, sub) == [s]
  {
    hide Pieces;
    PiecesNone(s, sub);
  }

  /** `s.replace(oldp, newp)`: the length is computed from the count, then filled. */
  method Replace(s: Bytes, oldp: Bytes, newp: Bytes) returns (out: array<Byte>)
    ensures fresh(out) && out[..] == if oldp == [] then s else Join(newp, Pieces(s, oldp))
  {
    hide Pieces, Join, First;
    var n, om, nm := |s|, |oldp|, |newp|;
    if om == 0 {
      out := new Byte[n](k requires 0 <= k < n => s[k]);
      return;
    }
    var cnt := Count(s, oldp);
    var outLen := n + cnt * (nm - om);
    ghost var all := Join(newp, Pieces(s, oldp));
    JoinPieces(s, oldp);
    JoinLength(oldp, newp, Pieces(s, oldp));
    out := new Byte[outLen];
    var i, j := 0, 0;
    assert s[0..] == s && out[..0] == [];
    while i < n
      invariant 0 <= i <= n && 0 <= j <= outLen == out.Length == |all|
      invariant out[..j] + Join(newp, Pieces(s[i..], oldp)) == all
    {
      ReplaceStep(s, oldp, newp, i, out[..j]);
      if i + om <= n && s[i..i + om] == oldp {
        j := Copy(out, j, newp);
        i := i + om;
      } else {
        j := Copy(out, j, [s[i]]);
        i := i + 1;
      }
    }
    ReplaceEnd(oldp, newp);
    assert s[i..] == [] && out[..] == all[..j] && j == outLen;
  }

  /** What the next step of `Replace` writes, and what is left to write after it. */
  lemma ReplaceStep(s: Bytes, oldp: Bytes, newp: Bytes, i: nat, before: Bytes)
    requires oldp != [] && i < |s|
    ensures var rest := Join(newp, Pieces(s[i..], oldp));
      if At(s, i, oldp) then before + rest == before + newp + Join(newp, Pieces(s[i + |oldp|..], oldp))
      else before + rest == before + [s[i]] + Join(newp, Pieces(s[i + 1..], oldp))
  {
    hide Pieces, Join, First;
    Shift(s, i, 0, oldp);
    if At(s, i, oldp) {
      PiecesHit(s[i..], oldp);
      assert s[i..][|oldp|..] == s[i + |oldp|..];
      JoinHit(newp, Pieces(s[i + |oldp|..], oldp));
    } else {
      PiecesSkip(s[i..], oldp);
      assert s[i..][1..] == s[i + 1..];
      JoinSkip(newp, Pieces(s[i + 1..], oldp), s[i]);
    }
  }

  lemma ReplaceEnd(oldp: Bytes, newp: Bytes)
    requires oldp != []
    ensures Join(newp, Pieces([], oldp)) == []
  {
    PiecesNone([], oldp);
  }

  // ---- splitting at white space ----

  predicate Space(c: Byte): (r: bool)
    ensures r <==> c in {9, 10, 11, 12, 13, 32}
  {
    c == 32 || 9 <= c <= 13
  }

  /** The words of `s`, one byte at a time: a byte that is not white space extends the
      word before it or starts a new one. */
  function Words(s: Bytes): seq<Bytes> {
    if s == [] then []
    else
      var c, front := s[|s| - 1], s[..|s| - 1];
      var ws := Words(front);
      if Space(c) then ws
      else if front == [] || Space(front[|front| - 1]) || ws == [] then ws + [[c]]
      else ws[..|ws| - 1] + [ws[|ws| - 1] + [c]]
  }

  lemma NoWords()
    ensures Words([]) == []
  {
  }

  lemma WordsStep(f: Bytes, c: Byte)
    ensures var ws := Words(f);
      Words(f + [c]) == if Space(c) then ws
                        else if f == [] || Space(f[|f| - 1]) || ws == [] then ws + [[c]]
                        else ws[..|ws| - 1] + [ws[|ws| - 1] + [c]]
  {
    assert (f + [c])[..|f|] == f;
  }

  lemma {:induction false} WordsOnward(s: Bytes, a: nat, b: nat)
    requires a < b <= |s| && (a == 0 || Space(s[a - 1])) && forall k :: a <= k < b ==> !Space(s[k])
    ensures Words(s[..b]) == Words(s[..a]) + [s[a..b]]
    decreases b
  {
    hide Words, Space;
    var f := s[..b - 1];
    assert s[..b] == f + [s[b - 1]];
    WordsStep(f, s[b - 1]);
    if b == a + 1 {
      assert s[a..b] == [s[a]];
    } else {
      WordsOnward(s, a, b - 1);
      assert s[a..b] == s[a..b - 1] + [s[b - 1]];
    }
  }

  predicate Blanks(s: Bytes) { forall k :: 0 <= k < |s| ==> Space(s[k]) }

  /** `s` is the words `ws` in order, with white space between any two, and otherwise only
      white space. `[a, b)` is where the last one stands. */
  ghost predicate Spread(s: Bytes, ws: seq<Bytes>)
    decreases |ws|
  {
    if ws == [] then Blanks(s)
    else exists a, b :: 0 <= a < b <= |s| && LastWord(s, a, b) && s[a..b] == Last(ws) && Spread(s[..a], Front(ws))
  }

  function Last(ws: seq<Bytes>): Bytes
    requires ws != []
  {
    ws[|ws| - 1]
  }

  function Front(ws: seq<Bytes>): seq<Bytes>
    requires ws != []
  {
    ws[..|ws| - 1]
  }

  /** A run without white space, bounded by white space or the start before it, and only
      white space behind it. */
  predicate LastWord(s: Bytes, a: int, b: int) {
    && 0 <= a < b <= |s| && (a == 0 || Space(s[a - 1]))
    && (forall k :: a <= k < b ==> !Space(s[k])) && (forall k :: b <= k < |s| ==> Space(s[k]))
  }

  lemma SpreadParts(s: Bytes, ws: seq<Bytes>) returns (a: nat, b: nat)
    requires ws != [] && Spread(s, ws)
    ensures a < b <= |s| && LastWord(s, a, b) && s[a..b] == Last(ws) && Spread(s[..a], Front(ws))
  {
    hide LastWord, Last, Front;
    a, b :| 0 <= a < b <= |s| && LastWord(s, a, b) && s[a..b] == Last(ws) && Spread(s[..a], Front(ws));
  }

  lemma SpreadOf(s: Bytes, ws: seq<Bytes>, w: Bytes, a: nat, b: nat)
    requires a < b <= |s| && LastWord(s, a, b) && s[a..b] == w && Spread(s[..a], ws)
    ensures Spread(s, ws + [w])
  {
    hide LastWord;
    assert Front(ws + [w]) == ws && Last(ws + [w]) == w;
  }

  /** There is one last word at most. */
  lemma LastWordUnique(s: Bytes, a: int, b: int, a2: int, b2: int)
    requires LastWord(s, a, b) && LastWord(s, a2, b2)
    ensures a == a2 && b == b2
  {
    hide Space;
    assert !Space(s[b - 1]) && !Space(s[b2 - 1]);
    assert b == b2;
    assert a == 0 || Space(s[a - 1]);
  }

  lemma NoLastWord(s: Bytes, a: int, b: int)
    requires Blanks(s)
    ensures !LastWord(s, a, b)
  {
    hide Space;
    assert 0 <= a < |s| ==> Space(s[a]);
  }

  /** A text is spread words in one way only. */
  lemma {:induction false} SpreadUnique(s: Bytes, ws: seq<Bytes>, ws2: seq<Bytes>)
    requires Spread(s, ws) && Spread(s, ws2)
    ensures ws == ws2
    decreases |s|
  {
    hide LastWord, Blanks;
    if ws != [] && ws2 != [] {
      var a, b := SpreadParts(s, ws);
      var a2, b2 := SpreadParts(s, ws2);
      LastWordUnique(s, a, b, a2, b2);
      SpreadUnique(s[..a], Front(ws), Front(ws2));
      assert ws == Front(ws) + [Last(ws)] && ws2 == Front(ws2) + [Last(ws2)];
    } else if ws != [] {
      var a, b := SpreadParts(s, ws);
      NoLastWord(s, a, b);
    } else if ws2 != [] {
      var a, b := SpreadParts(s, ws2);
      NoLastWord(s, a, b);
    }
  }

  /** The words that `split` finds are the ones that stand in the text. */
  lemma {:induction false} WordsSpread(s: Bytes)
    ensures Spread(s, Words(s))
    decreases |s|
  {
    hide Words, LastWord, Spread, Space;
    if s == [] {
      NoWords();
      SpreadNone(s);
    } else {
      var f, c := s[..|s| - 1], s[|s| - 1];
      assert s == f + [c];
      WordsSpread(f);
      WordsStep(f, c);
      var ws := Words(f);
      if Space(c) {
        SpreadBlank(f, c, ws);
      } else if f == [] || Space(f[|f| - 1]) || ws == [] {
        SpreadStarts(f, c, ws);
      } else {
        SpreadGrows(f, c, ws);
      }
    }
  }

  lemma SpreadNone(s: Bytes)
    requires s == []
    ensures Spread(s, [])
  {
  }

  lemma OnlyBlanks(f: Bytes, c: Byte)
    requires Spread(f, []) && Space(c)
    ensures Spread(f + [c], [])
  {
    hide Space;
  }

  lemma SpreadBlank(f: Bytes, c: Byte, ws: seq<Bytes>)
    requires Spread(f, ws) && Space(c)
    ensures Spread(f + [c], ws)
  {
    hide Space, Spread;
    if ws == [] {
      OnlyBlanks(f, c);
    } else {
      var s := f + [c];
      var a, b := SpreadParts(f, ws);
      assert s[a..b] == f[a..b] && s[..a] == f[..a];
      SpreadOf(s, Front(ws), Last(ws), a, b);
      assert ws == Front(ws) + [Last(ws)];
    }
  }

  lemma SpreadStarts(f: Bytes, c: Byte, ws: seq<Bytes>)
    requires Spread(f, ws) && !Space(c) && (f == [] || Space(f[|f| - 1]) || ws == [])
    ensures Spread(f + [c], ws + [[c]])
  {
    hide Space;
    var s := f + [c];
    if f != [] && ws == [] { assert Space(f[|f| - 1]); }
    assert s[|f|..|f| + 1] == [c] && s[..|f|] == f;
    SpreadOf(s, ws, [c], |f|, |f| + 1);
  }

  lemma SpreadGrows(f: Bytes, c: Byte, ws: seq<Bytes>)
    requires Spread(f, ws) && !Space(c) && f != [] && !Space(f[|f| - 1]) && ws != []
    ensures Spread(f + [c], ws[..|ws| - 1] + [ws[|ws| - 1] + [c]])
  {
    hide Space, Spread;
    var s := f + [c];
    var a, b := SpreadParts(f, ws);
    assert b == |f|;
    assert s[a..b + 1] == f[a..b] + [c] && s[..a] == f[..a];
    SpreadOf(s, Front(ws), Last(ws) + [c], a, b + 1);
  }

  /** `s.split()`: skip white space, take a word, and again. */
  method SplitSpaces(s: Bytes) returns (list: seq<Bytes>)
    ensures list == Words(s)
  {
    hide Words;
    list := [];
    var i, n := 0, |s|;
    NoWords();
    while i < n
      invariant 0 <= i <= n && list == Words(s[..i]) && (0 < i < n ==> Space(s[i]))
    {
      while i < n && Space(s[i])
        invariant 0 <= i <= n && list == Words(s[..i]) && (0 < i < n ==> Space(s[i]) || Space(s[i - 1]))
      {
        assert s[..i + 1] == s[..i] + [s[i]];
        WordsStep(s[..i], s[i]);
        i := i + 1;
      }
      if i >= n { break; }
      var start := i;
      while i < n && !Space(s[i])
        invariant start <= i <= n && forall k :: start <= k < i ==> !Space(s[k])
      {
        i := i + 1;
      }
      WordsOnward(s, start, i);
      list := list + [s[start..i]];
    }
    assert s[..n] == s;
  }
}
