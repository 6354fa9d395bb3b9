/** What dumps writes is a JSON text that means what was written, so loads gives it back. */
module JsonRoundTrip {
  import opened Common
  import opened JsonText
  import opened JsonGrammar
  import opened JsonReading
  import opened Unicode

  /** A number that is no integer, or an integer of 64 bytes or more. */
  ghost predicate FloatNum(n: Num, s: Bytes) {
    ValidNum(n) && NumText(n) == s && (n.frac.Some? || n.exp.Some? || |s| >= 64)
  }

  /** Integers have 64 bits, and floats print as numbers. */
  ghost predicate Exact(d: Doc)
    decreases d
  {
    match d
    case Leaf(Int(i)) => -9223372036854775808 <= i <= 9223372036854775807
    case Leaf(Float(token)) => exists n :: FloatNum(n, token)
    case Leaf(_) => true
    case List(ds) => forall k :: 0 <= k < |ds| ==> Exact(ds[k])
    case Dict(ms) => forall k :: 0 <= k < |ms| ==> Exact(ms[k].val)
  }

  // ---- the tree that dumps writes ----

  /** A quote, a backslash and the control characters are escaped, by a letter where there is
      one; every other byte stands for itself. */
  function ChrOf(c: Byte): Chr {
    if c == 34 || c == 92 then Short(c)
    else if c == 8 then Short(98)
    else if c == 12 then Short(102)
    else if c == 10 then Short(110)
    else if c == 13 then Short(114)
    else if c == 9 then Short(116)
    else if c < 32 then Code([48, 48, 48 + c / 16, LowDigit(c % 16)])
    else Raw(c)
  }

  function LowDigit(d: nat): Byte
    requires d < 16
  {
    if d < 10 then 48 + d else 87 + d
  }

  function ChrsOf(s: Bytes): seq<Chr> { if s == [] then [] else [ChrOf(s[0])] + ChrsOf(s[1..]) }

  ghost function AtomNode(a: Atom): Node
    requires Exact(Leaf(a))
  {
    match a
    case Null => NullWord
    case Bool(b) => if b then TrueWord else FalseWord
    case Int(i) => Number(Num(i < 0, NatText(if i < 0 then -i else i), None, None))
    case Float(token) => (var n :| FloatNum(n, token); Number(n))
    case Str(s) => Quoted(ChrsOf(s))
  }

  /** The tokens of the text of `d`. */
  ghost function Layout(d: Doc): Node
    requires Exact(d)
    decreases d, 1
  {
    match d
    case Leaf(a) => AtomNode(a)
    case List(ds) => if ds == [] then EmptyArray([]) else Array(Items(ds))
    case Dict(ms) => if ms == [] then EmptyObject([]) else Object(EntriesOf(ms))
  }

  ghost function Items(ds: seq<Doc>): seq<Item>
    requires forall k :: 0 <= k < |ds| ==> Exact(ds[k])
    decreases ds, 0
  {
    if ds == [] then [] else [Item([], Layout(ds[0]), [])] + Items(ds[1..])
  }

  ghost function EntriesOf(ms: seq<Member>): seq<Entry>
    requires forall k :: 0 <= k < |ms| ==> Exact(ms[k].val)
    decreases ms, 0
  {
    if ms == [] then []
    else [Entry([], ChrsOf(ms[0].key), [], Item([], Layout(ms[0].val), []))] + EntriesOf(ms[1..])
  }

  // ---- strings ----

  lemma ChrOfOk(c: Byte)
    ensures ValidChr(ChrOf(c)) && ChrText(ChrOf(c)) == Escaped(c) && ChrMeans(ChrOf(c)) == [c]
  {
    hide Then, Continues;
    if c < 32 && ChrOf(c).Code? {
      var h := ChrOf(c).h;
      assert h == [48, 48, 48 + c / 16, LowDigit(c % 16)];
      assert Unit(h) == c;
      assert Decode([c]) == Some(c);
      OneCode([c], CodeBytes(c));
    }
  }

  lemma {:induction false} ChrsOfOk(s: Bytes)
    ensures ValidChrs(ChrsOf(s)) && ChrsText(ChrsOf(s)) == EscapedAll(s) && ChrsMean(ChrsOf(s)) == s
  {
    hide ChrOf, ValidChr, ChrText, ChrMeans, Escaped;
    if s != [] {
      ChrOfOk(s[0]);
      ChrsOfOk(s[1..]);
      assert ChrsOf(s)[1..] == ChrsOf(s[1..]) && s == [s[0]] + s[1..];
    }
  }

  // ---- numbers ----

  lemma {:induction false} NatValueOk(n: nat)
    ensures Decimal(NatText(n)) == n
    ensures NatText(n)[0] == DIGIT_0 ==> n == 0
  {
    if n >= 10 {
      NatValueOk(n / 10);
      DecimalMore(NatText(n / 10), DIGIT_0 + n % 10);
    }
  }

  /** 64-bit integers have at most 19 digits. */
  lemma {:induction false} NatLength(n: nat, bound: nat, k: nat)
    requires k >= 1 && bound == Pow10(k) && n < bound
    ensures |NatText(n)| <= k
    decreases k
  {
    if n >= 10 {
      assert k > 1;
      NatLength(n / 10, Pow10(k - 1), k - 1);
    }
  }

  function Pow10(k: nat): nat { if k == 0 then 1 else 10 * Pow10(k - 1) }

  lemma Pow19()
    ensures Pow10(19) > MAX + 1
  {
    assert Pow10(5) == 100000;
    assert Pow10(10) == 10000000000;
    assert Pow10(15) == 1000000000000000;
    assert Pow10(19) == 10000000000000000000;
  }

  /** An integer of 64 bits has 20 bytes at most. */
  lemma IntOk(i: int)
    requires -9223372036854775808 <= i <= 9223372036854775807
    ensures var n := Num(i < 0, NatText(if i < 0 then -i else i), None, None);
      ValidNum(n) && NumText(n) == IntText(i) && NumMeans(n) == Int(i)
  {
    hide NatText, Decimal, Pow10;
    var m := if i < 0 then -i else i;
    NatValueOk(m);
    Pow19();
    NatLength(m, Pow10(19), 19);
    NatStart(m);
    assert [] + NatText(m) + [] + [] == NatText(m) && [45] + NatText(m) + [] + [] == [45] + NatText(m);
  }

  lemma {:induction false} NatStart(n: nat)
    ensures AllDigits(NatText(n)) && (|NatText(n)| > 1 ==> NatText(n)[0] != 48)
  {
    NatValueOk(n);
    if n == 0 { assert NatText(0) == [48]; }
  }

  // ---- values ----

  lemma AtomOk(a: Atom)
    requires Exact(Leaf(a))
    ensures var n := AtomNode(a);
      ValidNode(n) && NodeText(n) == AtomText(a) && NodeMeans(n) == Plain(a) && Bare(n) == n
  {
    hide ValidNum, NumText, NatText, ValidChrs, ChrsText, ChrsMean, EscapedAll, ChrsOf;
    match a
    case Int(i) => IntOk(i);
    case Str(s) => ChrsOfOk(s);
    case _ =>
  }

  /** The text of a document is that of its layout, which has no white space, and the layout
      means what the document means. */
  lemma {:induction false} LayoutOk(d: Doc)
    requires Exact(d)
    ensures var n := Layout(d);
      ValidNode(n) && NodeText(n) == Text(d) && NodeMeans(n) == Meaning(d) && Bare(n) == n
    decreases d, 1
  {
    hide ValidItems, ValidEntries, ItemsText, EntriesText, ItemsMean, EntriesMean, BareItems, BareEntries,
      Elements, Members, Meanings, Entries, Items, EntriesOf, AtomNode, AtomText;
    match d
    case Leaf(a) => AtomOk(a);
    case List(ds) =>
      ItemsOk(ds);
      if ds == [] { NoDocs(); }
      assert [91] + Elements(ds) + [93] == [91] + (Elements(ds) + [93]);
    case Dict(ms) =>
      EntriesOk(ms, map[]);
      if ms == [] { NoDocs(); }
      assert [123] + Members(ms) + [125] == [123] + (Members(ms) + [125]);
  }

  lemma NoDocs()
    ensures Elements([]) == [] && Members([]) == [] && Meanings([]) == [] && Entries([], map[]) == map[]
  {
  }

  lemma {:induction false} ItemsOk(ds: seq<Doc>)
    requires forall k :: 0 <= k < |ds| ==> Exact(ds[k])
    ensures var its := Items(ds);
      && |its| == |ds| && ValidItems(its) && ItemsText(its) == Elements(ds) && ItemsMean(its) == Meanings(ds)
      && BareItems(its) == its
    decreases ds, 0
  {
    hide Exact, Layout, ValidNode, NodeText, NodeMeans, Bare, Text, Meaning;
    if ds != [] {
      LayoutOk(ds[0]);
      ItemsOk(ds[1..]);
      assert Items(ds)[1..] == Items(ds[1..]);
      Snug(Text(ds[0]));
    }
  }

  lemma Snug(s: Bytes)
    ensures [] + (s + []) == s && [] + (s + ([] + [58])) == s + [58]
  {
  }

  lemma {:induction false} EntriesOk(ms: seq<Member>, acc: map<Bytes, Json>)
    requires forall k :: 0 <= k < |ms| ==> Exact(ms[k].val)
    ensures var es := EntriesOf(ms);
      && |es| == |ms| && ValidEntries(es) && EntriesText(es) == Members(ms) && EntriesMean(es, acc) == Entries(ms, acc)
      && BareEntries(es) == es
    decreases ms, 0
  {
    hide Exact, Layout, ValidNode, NodeText, NodeMeans, Bare, Text, Meaning, ValidChrs, ChrsMean, ChrsOf, QuotedText,
      StrText;
    if ms != [] {
      LayoutOk(ms[0].val);
      KeyOk(ms[0].key);
      EntriesOk(ms[1..], acc[ms[0].key := Meaning(ms[0].val)]);
      assert EntriesOf(ms)[1..] == EntriesOf(ms[1..]);
      Snug(Text(ms[0].val));
      Snug(StrText(ms[0].key));
    }
  }

  lemma KeyOk(key: Bytes)
    ensures ValidChrs(ChrsOf(key)) && QuotedText(ChrsOf(key)) == StrText(key) && ChrsMean(ChrsOf(key)) == key
  {
    ChrsOfOk(key);
    assert [34] + EscapedAll(key) + [34] == [34] + (EscapedAll(key) + [34]);
  }

  // ---- the theorems ----

  /** dumps writes JSON, as the grammar has it, and the text means what was written. */
  lemma DumpsWrites(d: Doc)
    requires Exact(d)
    ensures IsJson(Text(d), Meaning(d))
  {
    hide ValidNode, NodeText, NodeMeans, Text, Exact, Layout, Meaning, Bare;
    LayoutOk(d);
    var it := Item([], Layout(d), []);
    Snug(Text(d));
    assert ValidItem(it) && ItemText(it) == Text(d);
  }

  /** Loads gives back what dumps was given, each dict in whatever order it was walked. */
  lemma LoadsDumps(d: Doc)
    requires Exact(d)
    ensures Loads(Text(d)) == Some(Meaning(d))
  {
    hide Text, Exact, IsJson, Meaning, Loads;
    DumpsWrites(d);
    LoadsExactly(Text(d), Meaning(d));
  }

  /** Each key once, as in every table. */
  ghost predicate Distinct(ms: seq<Member>) {
    forall i, j :: 0 <= i < j < |ms| ==> ms[i].key != ms[j].key
  }

  function Keys(ms: seq<Member>): set<Bytes> { set e | e in ms :: e.key }

  /** A walk that meets each key once lays out exactly the dict it walks. */
  lemma {:induction false} EntriesAre(ms: seq<Member>, acc: map<Bytes, Json>)
    requires Distinct(ms)
    ensures var r := Entries(ms, acc);
      && r.Keys == acc.Keys + Keys(ms) && (forall e :: e in ms ==> r[e.key] == Meaning(e.val))
      && forall k :: k in acc && k !in Keys(ms) ==> r[k] == acc[k]
    decreases |ms|
  {
    hide Meaning;
    if ms != [] {
      var e, now := ms[0], acc[ms[0].key := Meaning(ms[0].val)];
      EntriesAre(ms[1..], now);
      assert ms == [e] + ms[1..];
      assert Keys(ms) == {e.key} + Keys(ms[1..]);
      assert e.key !in Keys(ms[1..]);
    }
  }

  /** Two walks over the same members mean the same dict, whatever their orders. */
  lemma AnyOrder(ms: seq<Member>, ms2: seq<Member>)
    requires Distinct(ms) && Distinct(ms2) && forall e :: e in ms <==> e in ms2
    ensures Meaning(Dict(ms)) == Meaning(Dict(ms2))
  {
    hide Entries;
    EntriesAre(ms, map[]);
    EntriesAre(ms2, map[]);
    var a, b := Entries(ms, map[]), Entries(ms2, map[]);
    assert Keys(ms) == Keys(ms2);
    forall k | k in a ensures a[k] == b[k] {
      var e :| e in ms && e.key == k;
      assert e in ms2;
    }
  }
}
