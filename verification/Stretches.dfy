/** Where a byte string stands in another. */
module Stretches {
  import opened Common

  /** From `i` to `j` there is `s`. */
  ghost predicate Spans(t: Bytes, i: nat, j: nat, s: Bytes) { i <= j <= |t| && t[i..j] == s }

  lemma SpanJoin(t: Bytes, i: nat, j: nat, k: nat, a: Bytes, b: Bytes)
    requires Spans(t, i, j, a) && Spans(t, j, k, b)
    ensures Spans(t, i, k, a + b)
  {
    assert t[i..k] == t[i..j] + t[j..k];
  }

  lemma SpanSplit(t: Bytes, i: nat, j: nat, a: Bytes, b: Bytes)
    requires Spans(t, i, j, a + b)
    ensures Spans(t, i, i + |a|, a) && Spans(t, i + |a|, j, b)
  {
    assert |t[i..j]| == |a| + |b|;
    assert t[i..i + |a|] == t[i..j][..|a|] && t[i + |a|..j] == t[i..j][|a|..];
  }

  lemma SpanAt(t: Bytes, i: nat, j: nat, s: Bytes, k: nat)
    requires Spans(t, i, j, s) && k < |s|
    ensures j == i + |s| && i + k < |t| && t[i + k] == s[k]
  {
    assert |t[i..j]| == |s| && t[i..j][k] == s[k];
  }

  lemma SpanLength(t: Bytes, i: nat, j: nat, s: Bytes)
    requires Spans(t, i, j, s)
    ensures j == i + |s| <= |t|
  {
    assert |t[i..j]| == |s|;
  }

  lemma OneByte(t: Bytes, i: nat)
    requires i < |t|
    ensures Spans(t, i, i + 1, [t[i]])
  {
  }

  lemma NoBytes(t: Bytes, i: nat)
    requires i <= |t|
    ensures Spans(t, i, i, [])
  {
  }

  lemma SpanIs(t: Bytes, i: nat, j: nat, s: Bytes)
    requires Spans(t, i, j, s)
    ensures i <= j <= |t| && t[i..j] == s
  {
  }

  lemma WholeSpan(t: Bytes, s: Bytes)
    ensures Spans(t, 0, |t|, s) <==> s == t
  {
    assert t[0..|t|] == t;
  }
}
