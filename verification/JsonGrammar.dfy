/**
 JSON as RFC 8259 defines it: texts as trees of tokens with white space between them, what
 each tree looks like byte for byte, and what it means. Nothing here follows the reader.
 */
module JsonGrammar {
  import opened Common
  import opened JsonText
  import opened Unicode

  // ---- strings ----

  predicate FourHex(h: Bytes) { |h| == 4 && forall k :: 0 <= k < 4 ==> IsHex(h[k]) }

  function Unit(h: Bytes): (r: nat)
    requires FourHex(h)
    ensures r < 0x10000
  {
    4096 * HexOf(h[0]) + 256 * HexOf(h[1]) + 16 * HexOf(h[2]) + HexOf(h[3])
  }

  /** A byte as it is, `\n` and the like, `\u` with four digits, or two of those. */
  datatype Chr = Raw(c: Byte) | Short(e: Byte) | Code(h: Bytes) | Pair(h: Bytes, l: Bytes)

  predicate ValidChr(c: Chr) {
    match c
    case Raw(b) => b >= 32 && b != 34 && b != 92
    case Short(e) => e in {34, 92, 47, 98, 102, 110, 114, 116}
    case Code(h) => FourHex(h) && !(0xD800 <= Unit(h) < 0xDC00)
    case Pair(h, l) => FourHex(h) && FourHex(l) && 0xD800 <= Unit(h) < 0xDC00 && 0xDC00 <= Unit(l) < 0xE000
  }

  function ChrText(c: Chr): Bytes {
    match c
    case Raw(b) => [b]
    case Short(e) => [92, e]
    case Code(h) => [92, 117] + h
    case Pair(h, l) => [92, 117] + h + ([92, 117] + l)
  }

  ghost function ChrMeans(c: Chr): Bytes
    requires ValidChr(c)
  {
    match c
    case Raw(b) => [b]
    case Short(e) =>
      if e == 98 then [8] else if e == 102 then [12] else if e == 110 then [10] else if e == 114 then [13]
      else if e == 116 then [9] else [e]
    case Code(h) => CodeBytes(Unit(h))
    case Pair(h, l) => CodeBytes(0x10000 + 1024 * (Unit(h) - 0xD800) + (Unit(l) - 0xDC00))
  }

  predicate ValidChrs(cs: seq<Chr>) { forall k :: 0 <= k < |cs| ==> ValidChr(cs[k]) }

  function ChrsText(cs: seq<Chr>): Bytes { if cs == [] then [] else ChrText(cs[0]) + ChrsText(cs[1..]) }

  ghost function ChrsMean(cs: seq<Chr>): Bytes
    requires ValidChrs(cs)
  {
    if cs == [] then [] else ChrMeans(cs[0]) + ChrsMean(cs[1..])
  }

  // ---- numbers ----

  datatype Exp = Exp(mark: Byte, sign: Bytes, digits: Bytes)

  datatype Num = Num(neg: bool, whole: Bytes, frac: Option<Bytes>, exp: Option<Exp>)

  predicate AllDigits(s: Bytes) { s != [] && forall k :: 0 <= k < |s| ==> 48 <= s[k] <= 57 }

  predicate ValidExp(e: Exp) {
    (e.mark == 101 || e.mark == 69) && (e.sign == [] || e.sign == [43] || e.sign == [45]) && AllDigits(e.digits)
  }

  predicate ValidNum(n: Num) {
    && AllDigits(n.whole) && (|n.whole| > 1 ==> n.whole[0] != 48)
    && (n.frac.Some? ==> AllDigits(n.frac.value))
    && (n.exp.Some? ==> ValidExp(n.exp.value))
  }

  function FracText(f: Option<Bytes>): Bytes { if f.None? then [] else [46] + f.value }

  function ExpText(e: Option<Exp>): Bytes {
    if e.None? then [] else [e.value.mark] + e.value.sign + e.value.digits
  }

  function Sign(neg: bool): Bytes { if neg then [45] else [] }

  function NumText(n: Num): Bytes { Sign(n.neg) + n.whole + FracText(n.frac) + ExpText(n.exp) }

  function TenTo(k: nat): nat { if k == 0 then 1 else 10 * TenTo(k - 1) }

  function Decimal(s: Bytes): int { if s == [] then 0 else (s[0] - 48) * TenTo(|s| - 1) + Decimal(s[1..]) }

  function Clamped(x: int): int {
    if x > 9223372036854775807 then 9223372036854775807
    else if x < -9223372036854775808 then -9223372036854775808
    else x
  }

  /** An integer of fewer than 64 bytes, held in 64 bits; anything else is a float. */
  function NumMeans(n: Num): Atom {
    if n.frac.None? && n.exp.None? && |NumText(n)| < 64 then
      Int(Clamped(if n.neg then -Decimal(n.whole) else Decimal(n.whole)))
    else Float(NumText(n))
  }

  // ---- values ----

  datatype Node =
    | NullWord
    | TrueWord
    | FalseWord
    | Number(n: Num)
    | Quoted(cs: seq<Chr>)
    | EmptyArray(ws: Bytes)
    | Array(items: seq<Item>)
    | EmptyObject(ws: Bytes)
    | Object(es: seq<Entry>)

  /** A value with the white space around it. */
  datatype Item = Item(pre: Bytes, node: Node, post: Bytes)

  datatype Entry = Entry(pre: Bytes, key: seq<Chr>, mid: Bytes, val: Item)

  predicate White(ws: Bytes) { forall k :: 0 <= k < |ws| ==> ws[k] in {32, 9, 10, 13} }

  predicate ValidNode(n: Node)
    decreases n, 1
  {
    match n
    case Number(x) => ValidNum(x)
    case Quoted(cs) => ValidChrs(cs)
    case EmptyArray(ws) => White(ws)
    case Array(its) => its != [] && ValidItems(its)
    case EmptyObject(ws) => White(ws)
    case Object(es) => es != [] && ValidEntries(es)
    case _ => true
  }

  predicate ValidItems(its: seq<Item>)
    decreases its, 0
  {
    its != [] ==> White(its[0].pre) && ValidNode(its[0].node) && White(its[0].post) && ValidItems(its[1..])
  }

  predicate ValidEntries(es: seq<Entry>)
    decreases es, 0
  {
    es != [] ==>
      && White(es[0].pre) && ValidChrs(es[0].key) && White(es[0].mid)
      && White(es[0].val.pre) && ValidNode(es[0].val.node) && White(es[0].val.post)
      && ValidEntries(es[1..])
  }

  predicate ValidItem(i: Item) { White(i.pre) && ValidNode(i.node) && White(i.post) }

  function QuotedText(cs: seq<Chr>): Bytes { [34] + (ChrsText(cs) + [34]) }

  function NodeText(n: Node): Bytes
    decreases n, 1
  {
    match n
    case NullWord => [110, 117, 108, 108]
    case TrueWord => [116, 114, 117, 101]
    case FalseWord => [102, 97, 108, 115, 101]
    case Number(x) => NumText(x)
    case Quoted(cs) => QuotedText(cs)
    case EmptyArray(ws) => [91] + (ws + [93])
    case Array(its) => [91] + (ItemsText(its) + [93])
    case EmptyObject(ws) => [123] + (ws + [125])
    case Object(es) => [123] + (EntriesText(es) + [125])
  }

  /** `s`, the text of the value of `i`, with its white space. */
  function Around(i: Item, s: Bytes): Bytes { i.pre + (s + i.post) }

  function ItemsText(its: seq<Item>): Bytes
    decreases its, 0
  {
    if its == [] then []
    else Around(its[0], NodeText(its[0].node)) + (if |its| == 1 then [] else [44] + ItemsText(its[1..]))
  }

  function KeyText(e: Entry): Bytes { e.pre + (QuotedText(e.key) + (e.mid + [58])) }

  function EntriesText(es: seq<Entry>): Bytes
    decreases es, 0
  {
    if es == [] then []
    else
      KeyText(es[0]) + Around(es[0].val, NodeText(es[0].val.node))
      + (if |es| == 1 then [] else [44] + EntriesText(es[1..]))
  }

  function ItemText(i: Item): Bytes { Around(i, NodeText(i.node)) }

  /** What a tree means; a key that comes again replaces what it had before. */
  ghost function NodeMeans(n: Node): Json
    requires ValidNode(n)
    decreases n, 1
  {
    match n
    case NullWord => Plain(Null)
    case TrueWord => Plain(Bool(true))
    case FalseWord => Plain(Bool(false))
    case Number(x) => Plain(NumMeans(x))
    case Quoted(cs) => Plain(Str(ChrsMean(cs)))
    case EmptyArray(_) => Arr([])
    case Array(its) => Arr(ItemsMean(its))
    case EmptyObject(_) => Obj(map[])
    case Object(es) => Obj(EntriesMean(es, map[]))
  }

  ghost function ItemsMean(its: seq<Item>): seq<Json>
    requires ValidItems(its)
    decreases its, 0
  {
    if its == [] then [] else [NodeMeans(its[0].node)] + ItemsMean(its[1..])
  }

  ghost function EntriesMean(es: seq<Entry>, acc: map<Bytes, Json>): map<Bytes, Json>
    requires ValidEntries(es)
    decreases es, 0
  {
    if es == [] then acc
    else EntriesMean(es[1..], acc[ChrsMean(es[0].key) := NodeMeans(es[0].val.node)])
  }

  /** `t` is a JSON text that means `v`. */
  ghost predicate IsJson(t: Bytes, v: Json) {
    exists i: Item :: ValidItem(i) && ItemText(i) == t && NodeMeans(i.node) == v
  }

  // ---- white space does not matter ----

  /** The same tokens without white space between them. */
  function Bare(n: Node): Node
    decreases n, 1
  {
    match n
    case EmptyArray(_) => EmptyArray([])
    case Array(its) => Array(BareItems(its))
    case EmptyObject(_) => EmptyObject([])
    case Object(es) => Object(BareEntries(es))
    case _ => n
  }

  function BareItems(its: seq<Item>): (r: seq<Item>)
    ensures |r| == |its|
    decreases its, 0
  {
    if its == [] then [] else [Item([], Bare(its[0].node), [])] + BareItems(its[1..])
  }

  function BareEntries(es: seq<Entry>): (r: seq<Entry>)
    ensures |r| == |es|
    decreases es, 0
  {
    if es == [] then []
    else [Entry([], es[0].key, [], Item([], Bare(es[0].val.node), []))] + BareEntries(es[1..])
  }

  lemma {:induction false} BareMeans(n: Node)
    requires ValidNode(n)
    ensures ValidNode(Bare(n)) && NodeMeans(Bare(n)) == NodeMeans(n)
    decreases n, 1
  {
    hide ValidChrs, ValidNum, ChrsMean, NumMeans, ValidItems, ValidEntries, ItemsMean, EntriesMean, BareItems;
    hide BareEntries;
    match n
    case Array(its) => BareItemsMean(its);
    case Object(es) => BareEntriesMean(es, map[]);
    case _ =>
  }

  lemma {:induction false} BareItemsMean(its: seq<Item>)
    requires ValidItems(its)
    ensures ValidItems(BareItems(its)) && ItemsMean(BareItems(its)) == ItemsMean(its)
    decreases its, 0
  {
    hide ValidNode, NodeMeans, Bare;
    if its != [] {
      BareMeans(its[0].node);
      BareItemsMean(its[1..]);
      assert BareItems(its)[1..] == BareItems(its[1..]);
    }
  }

  lemma {:induction false} BareEntriesMean(es: seq<Entry>, acc: map<Bytes, Json>)
    requires ValidEntries(es)
    ensures ValidEntries(BareEntries(es)) && EntriesMean(BareEntries(es), acc) == EntriesMean(es, acc)
    decreases es, 0
  {
    hide ValidNode, NodeMeans, Bare, ChrsMean, ValidChrs;
    if es != [] {
      BareMeans(es[0].val.node);
      BareEntriesMean(es[1..], acc[ChrsMean(es[0].key) := NodeMeans(es[0].val.node)]);
      assert BareEntries(es)[1..] == BareEntries(es[1..]);
    }
  }
}
