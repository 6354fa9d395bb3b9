/**
 `os.path.normpath`: a stack kept in a buffer with a top index, against the meaning of
 a path as steps from a directory.
 */
module NormPath {
  import opened Common
  import opened Strings

  const SLASH: Bytes := [47]
  const DOT: Bytes := [46]
  const UP: Bytes := [46, 46]

  predicate Skipped(c: Bytes) { c == [] || c == DOT }

  /** The components that mean something. */
  function Kept(comps: seq<Bytes>): seq<Bytes> {
    if comps == [] then []
    else (if Skipped(comps[0]) then [] else [comps[0]]) + Kept(comps[1..])
  }

  function Comps(path: Bytes): seq<Bytes> { Kept(Pieces(path, SLASH)) }

  function Slashes(path: Bytes): nat {
    if path == [] || path[0] != 47 then 0 else 1 + Slashes(path[1..])
  }

  /** Exactly two leading slashes are kept; one, or three and more, become one. */
  function Lead(path: Bytes): nat {
    var n := Slashes(path);
    if n >= 3 then 1 else n
  }

  // ---- what a path means ----

  /** Walking the components from a directory given by the names on the way to it; the
      root is its own parent. */
  function Walk(dir: seq<Bytes>, comps: seq<Bytes>): seq<Bytes>
    decreases |comps|
  {
    if comps == [] then dir
    else if comps[0] == UP then Walk(if dir == [] then [] else dir[..|dir| - 1], comps[1..])
    else Walk(dir + [comps[0]], comps[1..])
  }

  datatype Place = Place(lead: nat, dir: seq<Bytes>)

  /** The place a path names from the working directory `cwd`. */
  function Where(path: Bytes, cwd: seq<Bytes>): Place {
    Place(Lead(path), Walk(if Lead(path) > 0 then [] else cwd, Comps(path)))
  }

  /** The same, byte by byte, without cutting the path first: `name` is what has been read of
      a component. */
  function Follow(path: Bytes, name: Bytes, dir: seq<Bytes>): seq<Bytes>
    decreases |path|
  {
    if path == [] then Enter(dir, name)
    else if path[0] == 47 then Follow(path[1..], [], Enter(dir, name))
    else Follow(path[1..], name + [path[0]], dir)
  }

  function Enter(dir: seq<Bytes>, name: Bytes): seq<Bytes> {
    if name == [] || name == [46] then dir
    else if name != [46, 46] then dir + [name]
    else if dir == [] then []
    else dir[..|dir| - 1]
  }

  /** Where opening `path` from `cwd` ends; two leading slashes, and not three, are a root of
      their own. */
  function Opened(path: Bytes, cwd: seq<Bytes>): Place {
    if path == [] || path[0] != 47 then Place(0, Follow(path, [], cwd))
    else if |path| > 1 && path[1] == 47 && (|path| == 2 || path[2] != 47) then Place(2, Follow(path, [], []))
    else Place(1, Follow(path, [], []))
  }

  /** `ps` with `name` in front of its first piece. */
  function Behind(name: Bytes, ps: seq<Bytes>): seq<Bytes>
    requires ps != []
  {
    [name + ps[0]] + ps[1..]
  }

  lemma BehindNothing(ps: seq<Bytes>)
    requires ps != []
    ensures Behind([], ps) == ps
  {
    assert [] + ps[0] == ps[0];
  }

  lemma {:induction false} FollowWalks(path: Bytes, name: Bytes, dir: seq<Bytes>)
    ensures Follow(path, name, dir) == Walk(dir, Kept(Behind(name, Pieces(path, SLASH))))
    decreases |path|
  {
    hide Pieces, At, Walk, Kept, Enter;
    var ps := Pieces(path, SLASH);
    if path == [] {
      forall j ensures !At(path, j, SLASH) { NotSlash(path, j); }
      PiecesNone(path, SLASH);
      assert name + ps[0] == name;
      assert Behind(name, ps) == [name] + [];
      EnterWalks(dir, name, []);
    } else if path[0] == 47 {
      SlashAtStart(path);
      PiecesHit(path, SLASH);
      var rest := Pieces(path[1..], SLASH);
      assert name + ps[0] == name && ps[1..] == rest;
      BehindNothing(rest);
      FollowWalks(path[1..], [], Enter(dir, name));
      EnterWalks(dir, name, rest);
    } else {
      NotSlash(path, 0);
      PiecesSkip(path, SLASH);
      var rest := Pieces(path[1..], SLASH);
      FollowWalks(path[1..], name + [path[0]], dir);
      assert name + [path[0]] + rest[0] == name + ps[0] && ps[1..] == rest[1..];
    }
  }

  lemma SlashAtStart(path: Bytes)
    requires path != [] && path[0] == 47
    ensures At(path, 0, SLASH) && path[|SLASH|..] == path[1..]
  {
    assert path[0..1] == [path[0]];
  }

  lemma EnterWalks(dir: seq<Bytes>, name: Bytes, rest: seq<Bytes>)
    ensures Walk(dir, Kept([name] + rest)) == Walk(Enter(dir, name), Kept(rest))
    ensures rest == [] ==> Kept(rest) == [] && Walk(Enter(dir, name), []) == Enter(dir, name)
  {
    assert ([name] + rest)[1..] == rest;
    var k := Kept(rest);
    assert [] + k == k && ([name] + k)[1..] == k;
  }

  /** Cutting at slashes and walking the components is following the path byte by byte. */
  lemma WhereOpened(path: Bytes, cwd: seq<Bytes>)
    ensures Where(path, cwd) == Opened(path, cwd)
  {
    hide Pieces, Walk, Follow, Kept, Slashes;
    var ps := Pieces(path, SLASH);
    BehindNothing(ps);
    FollowWalks(path, [], if Lead(path) > 0 then [] else cwd);
    LeadIs(path);
  }

  lemma LeadIs(path: Bytes)
    ensures Lead(path)
      == if path == [] || path[0] != 47 then 0
         else if |path| > 1 && path[1] == 47 && (|path| == 2 || path[2] != 47) then 2
         else 1
  {
    if path != [] && path[0] == 47 {
      assert Slashes(path) == 1 + Slashes(path[1..]);
      if |path| > 1 && path[1] == 47 {
        assert path[1..][1..] == path[2..];
        assert Slashes(path[1..]) == 1 + Slashes(path[2..]);
      }
    }
  }

  // ---- reduction ----

  /** One component more on the stack. */
  function Push(abs: bool, st: seq<Bytes>, c: Bytes): seq<Bytes> {
    if c != UP then st + [c]
    else if abs then (if st == [] then [] else st[..|st| - 1])
    else if st == [] || st[|st| - 1] == UP then st + [UP]
    else st[..|st| - 1]
  }

  function Reduce(abs: bool, st: seq<Bytes>, comps: seq<Bytes>): seq<Bytes>
    decreases |comps|
  {
    if comps == [] then st else Reduce(abs, Push(abs, st, comps[0]), comps[1..])
  }

  function Prefix(lead: nat): Bytes { if lead == 1 then SLASH else if lead == 2 then SLASH + SLASH else [] }

  function Normal(path: Bytes): Bytes {
    if path == [] then DOT
    else
      var r := Prefix(Lead(path)) + Join(SLASH, Reduce(Lead(path) > 0, [], Comps(path)));
      if r == [] then DOT else r
  }

  /** Proper names, and `..` only at the front of a relative path. */
  ghost predicate Reduced(abs: bool, st: seq<Bytes>) {
    && (forall k :: 0 <= k < |st| ==> st[k] != [] && st[k] != [46] && 47 !in st[k])
    && (forall k :: 0 <= k < |st| && st[k] == [46, 46] ==> !abs && forall j :: 0 <= j < k ==> st[j] == [46, 46])
  }

  predicate NoSlash(c: Bytes) { 47 !in c }

  lemma PushReduced(abs: bool, st: seq<Bytes>, c: Bytes)
    requires Reduced(abs, st) && !Skipped(c) && NoSlash(c)
    ensures Reduced(abs, Push(abs, st, c))
  {
    if c == UP && !abs && st != [] && st[|st| - 1] == UP {
      assert forall j :: 0 <= j < |st| ==> st[j] == UP;
    }
  }

  ghost predicate Names(comps: seq<Bytes>) { forall k :: 0 <= k < |comps| ==> !Skipped(comps[k]) && NoSlash(comps[k]) }

  lemma {:induction false} ReduceReduced(abs: bool, st: seq<Bytes>, comps: seq<Bytes>)
    requires Reduced(abs, st) && Names(comps)
    ensures Reduced(abs, Reduce(abs, st, comps))
    decreases |comps|
  {
    hide Reduced, Push;
    if comps != [] {
      PushReduced(abs, st, comps[0]);
      ReduceReduced(abs, Push(abs, st, comps[0]), comps[1..]);
    }
  }

  /** A reduced stack is left as it is. */
  lemma {:induction false} ReduceFixed(abs: bool, st: seq<Bytes>, k: nat)
    requires Reduced(abs, st) && k <= |st|
    ensures Reduce(abs, st[..k], st[k..]) == st
    decreases |st| - k
  {
    if k < |st| {
      assert Push(abs, st[..k], st[k]) == st[..k + 1];
      assert st[k..][1..] == st[k + 1..];
      ReduceFixed(abs, st, k + 1);
    } else {
      assert st[..k] == st;
    }
  }

  lemma {:induction false} WalkAppend(dir: seq<Bytes>, a: seq<Bytes>, b: seq<Bytes>)
    ensures Walk(dir, a + b) == Walk(Walk(dir, a), b)
    decreases |a|
  {
    if a == [] {
      assert a + b == b;
    } else {
      assert (a + b)[1..] == a[1..] + b;
      WalkAppend(if a[0] == UP then (if dir == [] then [] else dir[..|dir| - 1]) else dir + [a[0]], a[1..], b);
    }
  }

  /** Pushing a component and walking the stack is walking the stack and then the component. */
  lemma PushWalk(abs: bool, dir: seq<Bytes>, st: seq<Bytes>, c: Bytes)
    requires Reduced(abs, st) && (abs ==> dir == [])
    ensures Walk(dir, Push(abs, st, c)) == Walk(Walk(dir, st), [c])
  {
    WalkAppend(dir, st, [c]);
    if c == UP && st != [] && (abs || st[|st| - 1] != UP) {
      var front, last := st[..|st| - 1], st[|st| - 1];
      assert st == front + [last];
      WalkAppend(dir, front, [last]);
      assert last != UP;
      var d := Walk(dir, front);
      assert Walk(d, [last]) == d + [last];
      assert (d + [last])[..|d|] == d;
      assert Walk(d + [last], [UP]) == d;
    } else if c == UP && abs {
      assert Walk([], [UP]) == [];
    }
  }

  lemma {:induction false} ReduceWalk(abs: bool, dir: seq<Bytes>, st: seq<Bytes>, comps: seq<Bytes>)
    requires Reduced(abs, st) && Names(comps) && (abs ==> dir == [])
    ensures Walk(dir, Reduce(abs, st, comps)) == Walk(Walk(dir, st), comps)
    decreases |comps|
  {
    hide Reduced, Push;
    if comps != [] {
      PushReduced(abs, st, comps[0]);
      PushWalk(abs, dir, st, comps[0]);
      ReduceWalk(abs, dir, Push(abs, st, comps[0]), comps[1..]);
      WalkAppend(Walk(dir, st), [comps[0]], comps[1..]);
      assert [comps[0]] + comps[1..] == comps;
    }
  }

  // ---- the text of a reduced path ----

  lemma {:induction false} KeptNames(comps: seq<Bytes>)
    requires forall k :: 0 <= k < |comps| ==> NoSlash(comps[k])
    ensures Names(Kept(comps))
    decreases |comps|
  {
    if comps != [] { KeptNames(comps[1..]); }
  }

  lemma PiecesNoSlash(path: Bytes)
    ensures forall k :: 0 <= k < |Pieces(path, SLASH)| ==> NoSlash(Pieces(path, SLASH)[k])
  {
    hide At;
    forall k | 0 <= k < |Pieces(path, SLASH)| ensures NoSlash(Pieces(path, SLASH)[k]) {
      PiecesFree(path, SLASH, k);
      SlashAt(Pieces(path, SLASH)[k]);
    }
  }

  lemma SlashAt(p: Bytes)
    ensures NoSlash(p) || exists j :: At(p, j, SLASH)
  {
    if j :| 0 <= j < |p| && p[j] == 47 {
      assert p[j..j + 1] == SLASH;
      assert At(p, j, SLASH);
    }
  }

  lemma CompsNames(path: Bytes)
    ensures Names(Comps(path))
  {
    PiecesNoSlash(path);
    KeptNames(Pieces(path, SLASH));
  }

  lemma {:induction false} KeptAll(comps: seq<Bytes>)
    requires Names(comps)
    ensures Kept(comps) == comps
    decreases |comps|
  {
    if comps != [] {
      KeptAll(comps[1..]);
      assert comps == [comps[0]] + comps[1..];
    }
  }

  lemma NoSlashFree(p: Bytes)
    requires NoSlash(p)
    ensures Free(p, SLASH)
  {
    forall j ensures !At(p, j, SLASH) { NotSlash(p, j); }
  }

  lemma NotSlash(s: Bytes, j: int)
    requires 0 <= j < |s| ==> s[j] != 47
    ensures !At(s, j, SLASH)
  {
    if 0 <= j < |s| { assert s[j..j + 1] == [s[j]]; }
  }

  lemma NoSlashBefore(p: Bytes, j: int)
    requires NoSlash(p) && j < |p|
    ensures !At(p + SLASH, j, SLASH)
  {
    NotSlash(p + SLASH, j);
  }

  /** Names joined with slashes are cut at just those slashes. */
  lemma JoinedPieces(st: seq<Bytes>)
    requires Names(st) && st != []
    ensures Pieces(Join(SLASH, st), SLASH) == st
  {
    hide At, Pieces;
    NoSlashFree(st[|st| - 1]);
    forall k, j | 0 <= k < |st| - 1 && j < |st[k]| ensures !At(st[k] + SLASH, j, SLASH) {
      NoSlashBefore(st[k], j);
    }
    CutUnique(Join(SLASH, st), SLASH, st);
  }

  lemma JoinStart(st: seq<Bytes>)
    requires Names(st) && st != []
    ensures Join(SLASH, st) != [] && Join(SLASH, st)[0] != 47 && Slashes(Join(SLASH, st)) == 0
  {
    assert st[0] != [] && st[0][0] in st[0];
    assert Join(SLASH, st)[0] == st[0][0];
  }

  lemma SlashFirst(rest: Bytes)
    ensures Pieces(SLASH + rest, SLASH) == [[]] + Pieces(rest, SLASH) && Comps(SLASH + rest) == Comps(rest)
  {
    var t := SLASH + rest;
    assert t[0..1] == SLASH;
    PiecesHit(t, SLASH);
    assert t[|SLASH|..] == rest;
    var ps := [[]] + Pieces(rest, SLASH);
    assert ps[1..] == Pieces(rest, SLASH) && Skipped(ps[0]);
  }

  lemma NoComps()
    ensures Comps([]) == [] && Comps(DOT) == [] && Slashes(DOT) == 0
  {
    hide Pieces;
    forall j ensures !At(DOT, j, SLASH) { NotSlash(DOT, j); }
    PiecesNone(DOT, SLASH);
    PiecesNone([], SLASH);
    assert [DOT][1..] == [] && Kept([DOT]) == [];
    var none: Bytes := [];
    assert [none][1..] == [] && Kept([none]) == [];
  }

  /** The text of a reduced path says what it should. */
  lemma TextParts(lead: nat, st: seq<Bytes>, r: Bytes)
    requires lead <= 2 && Names(st) && r == Prefix(lead) + Join(SLASH, st)
    ensures Slashes(r) == lead && Comps(r) == st
  {
    hide Comps, Join, Slashes;
    var body := Join(SLASH, st);
    BodyParts(st);
    if lead == 1 { OneSlash(body, r); }
    if lead == 2 {
      assert r == SLASH + (SLASH + body);
      OneSlash(body, SLASH + body);
      OneSlash(SLASH + body, r);
    }
    if lead == 0 { assert r == body; }
  }

  lemma BodyParts(st: seq<Bytes>)
    requires Names(st)
    ensures Slashes(Join(SLASH, st)) == 0 && Comps(Join(SLASH, st)) == st
  {
    hide Pieces;
    NoComps();
    if st != [] {
      JoinStart(st);
      JoinedPieces(st);
      KeptAll(st);
    }
  }

  lemma OneSlash(rest: Bytes, r: Bytes)
    requires r == SLASH + rest
    ensures Slashes(r) == 1 + Slashes(rest) && Comps(r) == Comps(rest)
  {
    SlashFirst(rest);
    assert r[0] == 47 && r[1..] == rest;
  }

  // ---- the theorems ----

  /** The text of the result: `.`, or its leading slashes and then names with one slash
      between each two; `..` only at the front of a relative path, and so nothing left
      to reduce. */
  lemma NormalParts(path: Bytes)
    ensures var n, st := Normal(path), Reduce(Lead(path) > 0, [], Comps(path));
      && Slashes(n) == Lead(path) == Lead(n) && Comps(n) == st && Reduced(Lead(path) > 0, st)
      && (if Lead(path) == 0 && st == [] then n == [46] else n == Prefix(Lead(path)) + Join(SLASH, st))
      && (st != [] ==> Pieces(n[Lead(path)..], SLASH) == st)
      && (st == [] && Lead(path) > 0 ==> n[Lead(path)..] == [])
  {
    hide Comps, Join, Reduce, Reduced, Slashes, Pieces;
    NoComps();
    SlashesNone(path);
    NothingReduced(Lead(path) > 0);
    CompsNames(path);
    ReduceReduced(Lead(path) > 0, [], Comps(path));
    var st := Reduce(Lead(path) > 0, [], Comps(path));
    ReducedNames(Lead(path) > 0, st);
    var r := Prefix(Lead(path)) + Join(SLASH, st);
    TextParts(Lead(path), st, r);
    NothingJoined();
    assert r[Lead(path)..] == Join(SLASH, st);
    if st != [] {
      JoinedPieces(st);
      JoinStart(st);
    }
  }

  lemma SlashesNone(path: Bytes)
    ensures path == [] ==> Slashes(path) == 0 && Reduce(false, [], []) == []
  {
  }

  lemma NothingReduced(abs: bool)
    ensures Reduced(abs, [])
  {
  }

  lemma ReducedNames(abs: bool, st: seq<Bytes>)
    requires Reduced(abs, st)
    ensures Names(st)
  {
  }

  /** Normalising keeps the place a path names, from every working directory. */
  lemma SamePlace(path: Bytes, cwd: seq<Bytes>)
    ensures Where(Normal(path), cwd) == Where(path, cwd)
    ensures Opened(Normal(path), cwd) == Opened(path, cwd)
  {
    hide Comps, Reduce, Reduced, Slashes, Normal, Names, Walk, Opened;
    WhereOpened(path, cwd);
    WhereOpened(Normal(path), cwd);
    var dir := if Lead(path) > 0 then [] else cwd;
    NormalParts(path);
    CompsNames(path);
    NothingReduced(Lead(path) > 0);
    ReduceWalk(Lead(path) > 0, dir, [], Comps(path));
    WalkNothing(dir);
  }

  lemma WalkNothing(dir: seq<Bytes>)
    ensures Walk(dir, []) == dir
  {
  }

  /** Normalising twice is normalising once. */
  lemma Idempotent(path: Bytes)
    ensures Normal(Normal(path)) == Normal(path)
  {
    hide Comps, Reduce, Reduced, Slashes, Names;
    var n := Normal(path);
    NormalParts(path);
    var st := Comps(n);
    ReduceFixed(Lead(path) > 0, st, 0);
    assert st[..0] == [] && st[0..] == st;
    NoComps();
    EmptyPath(path);
  }

  lemma EmptyPath(path: Bytes)
    ensures path == [] ==> Lead(path) == 0 && Join(SLASH, Reduce(false, [], [])) == []
  {
  }

  // ---- the routine ----

  method Normpath(path: Bytes) returns (result: Bytes)
    ensures result == Normal(path)
    ensures forall cwd :: Opened(result, cwd) == Opened(path, cwd)
  {
    hide Pieces, Reduce, Push, Kept, Join, Opened, Where;
    forall cwd { SamePlace(path, cwd); }
    if |path| == 0 { return DOT; }
    var lead := CountLead(path);
    var absolute := lead > 0;
    var comps := Split(path, SLASH);
    var buf: seq<Bytes>, top := [], 0;
    var i := 0;
    assert comps[0..] == comps && buf[..0] == [];
    while i < |comps|
      invariant 0 <= i <= |comps| && 0 <= top <= |buf|
      invariant Reduce(absolute, buf[..top], Kept(comps[i..])) == Reduce(absolute, [], Kept(comps))
    {
      var c := comps[i];
      KeptNext(comps, i, absolute, buf[..top]);
      if !Skipped(c) { buf, top := PushOne(absolute, buf, top, c); }
      i := i + 1;
    }
    NothingLeft(comps, i, absolute, buf[..top]);
    var body := JoinTop(buf, top);
    result := Prefix(lead) + body;
    if |result| == 0 { result := DOT; }
  }

  method CountLead(path: Bytes) returns (lead: nat)
    ensures lead == Lead(path)
  {
    var initial := 0;
    assert path[0..] == path;
    while initial < |path| && path[initial] == 47
      invariant 0 <= initial <= |path| && initial + Slashes(path[initial..]) == Slashes(path)
    {
      assert path[initial..][1..] == path[initial + 1..];
      initial := initial + 1;
    }
    return if initial >= 3 then 1 else initial;
  }

  /** The buffer is reused: what is above `top` is left over from before. */
  method PushOne(absolute: bool, buf: seq<Bytes>, top: nat, c: Bytes) returns (buf2: seq<Bytes>, top2: nat)
    requires top <= |buf|
    ensures top2 <= |buf2| && buf2[..top2] == Push(absolute, buf[..top], c)
  {
    buf2, top2 := buf, top;
    if c == UP && absolute {
      if top > 0 { top2 := top - 1; }
      return;
    }
    if c == UP && top > 0 && buf[top - 1] != UP {
      top2 := top - 1;
      return;
    }
    if top < |buf| { buf2 := buf[top := c]; } else { buf2 := buf + [c]; }
    top2 := top + 1;
  }

  lemma KeptNext(comps: seq<Bytes>, i: nat, abs: bool, st: seq<Bytes>)
    requires i < |comps|
    ensures Reduce(abs, st, Kept(comps[i..]))
      == Reduce(abs, if Skipped(comps[i]) then st else Push(abs, st, comps[i]), Kept(comps[i + 1..]))
  {
    hide Push, Skipped;
    assert comps[i..][1..] == comps[i + 1..];
    var rest := Kept(comps[i + 1..]);
    assert ([comps[i]] + rest)[1..] == rest && [] + rest == rest;
  }

  lemma NothingLeft(comps: seq<Bytes>, i: nat, abs: bool, st: seq<Bytes>)
    requires i == |comps|
    ensures Reduce(abs, st, Kept(comps[i..])) == st
  {
  }

  method JoinTop(buf: seq<Bytes>, top: nat) returns (body: Bytes)
    requires top <= |buf|
    ensures body == Join(SLASH, buf[..top])
  {
    hide Join;
    body := [];
    var i := 0;
    NothingJoined();
    while i < top
      invariant 0 <= i <= top && body == Join(SLASH, buf[..i])
    {
      JoinMore(SLASH, buf, i);
      if i > 0 { body := body + SLASH; }
      body := body + buf[i];
      i := i + 1;
    }
  }

  lemma NothingJoined()
    ensures Join(SLASH, []) == []
  {
  }
}
