/** Matching round, square and curly brackets over many lines, forward and backward, with a carried stack:
    what the bracket matchers of the linter (paddle/scripts/cpplint.py) compute from such a bracket. The two
    scans find exactly the matched blocks of a text and are inverse. */
module Brackets {
  import opened Common

  predicate Open(c: char) { c == '(' || c == '[' || c == '{' }

  predicate Close(c: char) { c == ')' || c == ']' || c == '}' }

  predicate Pair(o: char, c: char) { (o == '(' && c == ')') || (o == '[' && c == ']') || (o == '{' && c == '}') }

  /** Outcome of scanning a text with a stack: the expression ended, at a position; it is broken; or
      the text ran out with brackets still open. */
  datatype Scan = Found(pos: int) | Broken | More(stack: seq<char>)

  function Shift(s: Scan, k: int): Scan { if s.Found? then Found(s.pos + k) else s }

  /** Forward scan of `w`; `Found(k)` means the expression ended with the first `k` characters. */
  function Fwd(w: string, st: seq<char>): Scan
    decreases |w|
  {
    if w == [] then More(st)
    else if Open(w[0]) then Shift(Fwd(w[1..], st + [w[0]]), 1)
    else if Close(w[0]) then
      if st == [] || !Pair(st[|st| - 1], w[0]) then Broken
      else if |st| == 1 then Found(1)
      else Shift(Fwd(w[1..], st[..|st| - 1]), 1)
    else if w[0] == ';' && st == [] then Broken
    else Shift(Fwd(w[1..], st), 1)
  }

  /** Backward scan of `w`; `Found(k)` means the expression starts at index `k`. */
  function Bwd(w: string, st: seq<char>): Scan
    decreases |w|
  {
    if w == [] then More(st)
    else
      var n := |w| - 1;
      if Close(w[n]) then Bwd(w[..n], st + [w[n]])
      else if Open(w[n]) then
        if st == [] || !Pair(w[n], st[|st| - 1]) then Broken
        else if |st| == 1 then Found(n)
        else Bwd(w[..n], st[..|st| - 1])
      else if w[n] == ';' && st == [] then Broken
      else Bwd(w[..n], st)
  }

  // ------------------------------------------------------------------ across lines

  /** Where the forward scan of the lines from `l` on, entered with `st`, ends. */
  function FwdLines(lines: seq<string>, l: nat, st: seq<char>): Option<(nat, int)>
    requires l <= |lines|
    decreases |lines| - l
  {
    if l == |lines| || st == [] then None
    else
      match Fwd(lines[l], st)
      case Found(q) => Some((l, q))
      case Broken => None
      case More(st') => FwdLines(lines, l + 1, st')
  }

  function CloseAt(lines: seq<string>, l: nat, p: nat): Option<(nat, int)>
    requires l < |lines| && p < |lines[l]|
  {
    if !Open(lines[l][p]) then None
    else
      match Fwd(lines[l][p..], [])
      case Found(k) => Some((l, p + k))
      case Broken => None
      case More(st) => FwdLines(lines, l + 1, st)
  }

  /** Where the backward scan of the first `l` lines, entered with `st`, ends. */
  function BwdLines(lines: seq<string>, l: nat, st: seq<char>): Option<(nat, int)>
    requires l <= |lines|
  {
    if l == 0 || st == [] then None
    else
      match Bwd(lines[l - 1], st)
      case Found(p) => Some((l - 1, p))
      case Broken => None
      case More(st') => BwdLines(lines, l - 1, st')
  }

  function OpenAt(lines: seq<string>, l: nat, p: nat): Option<(nat, int)>
    requires l < |lines| && p < |lines[l]|
  {
    if !Close(lines[l][p]) then None
    else
      match Bwd(lines[l][..p + 1], [])
      case Found(k) => Some((l, k))
      case Broken => None
      case More(st) => BwdLines(lines, l, st)
  }

  lemma {:induction false} FwdPositive(w: string, st: seq<char>)
    ensures Fwd(w, st).Found? ==> 1 <= Fwd(w, st).pos <= |w|
    decreases |w|
  {
    if w != [] {
      FwdPositive(w[1..], st + [w[0]]);
      FwdPositive(w[1..], st);
      if st != [] { FwdPositive(w[1..], st[..|st| - 1]); }
    }
  }

  lemma {:induction false} BwdPositive(w: string, st: seq<char>)
    ensures Bwd(w, st).Found? ==> 0 <= Bwd(w, st).pos < |w|
    decreases |w|
  {
    if w != [] {
      var n := |w| - 1;
      BwdPositive(w[..n], st + [w[n]]);
      BwdPositive(w[..n], st);
      if st != [] { BwdPositive(w[..n], st[..|st| - 1]); }
    }
  }

  // --------------------------------------------------------------- balanced texts

  /** Derivations of balanced texts, symmetric in left and right. */
  datatype Tree = Nil | Plain(c: char) | Wrap(o: char, inner: Tree, c: char) | Cat(left: Tree, right: Tree)

  predicate Good(t: Tree) {
    match t
    case Nil => true
    case Plain(c) => !Open(c) && !Close(c)
    case Wrap(o, i, c) => Pair(o, c) && Good(i)
    case Cat(a, b) => Good(a) && Good(b)
  }

  function Text(t: Tree): string {
    match t
    case Nil => ""
    case Plain(c) => [c]
    case Wrap(o, i, c) => [o] + Text(i) + [c]
    case Cat(a, b) => Text(a) + Text(b)
  }

  /** A matched bracket pair around a balanced text. */
  ghost predicate IsBlock(w: string) { exists t :: Good(t) && t.Wrap? && Text(t) == w }

  lemma FwdOpen(o: char, w: string, st: seq<char>)
    requires Open(o)
    ensures Fwd([o] + w, st) == Shift(Fwd(w, st + [o]), 1)
  {
    assert ([o] + w)[1..] == w;
  }

  lemma FwdClose(o: char, c: char, rest: string, st: seq<char>)
    requires Pair(o, c) && st != []
    ensures Fwd([c] + rest, st + [o]) == Shift(Fwd(rest, st), 1)
  {
    assert ([c] + rest)[1..] == rest && (st + [o])[..|st|] == st;
  }

  lemma FwdOther(c: char, rest: string, st: seq<char>)
    requires !Open(c) && !Close(c) && st != []
    ensures Fwd([c] + rest, st) == Shift(Fwd(rest, st), 1)
  {
    assert ([c] + rest)[1..] == rest;
  }

  /** A block is passed over if its inside is. */
  lemma FwdWrap(o: char, inner: string, c: char, rest: string, st: seq<char>)
    requires Pair(o, c) && st != []
    requires Fwd(inner + ([c] + rest), st + [o]) == Shift(Fwd([c] + rest, st + [o]), |inner|)
    ensures Fwd([o] + inner + [c] + rest, st) == Shift(Fwd(rest, st), |inner| + 2)
  {
    Assoc([o] + inner, [c], rest);
    Assoc([o], inner, [c] + rest);
    FwdOpen(o, inner + ([c] + rest), st);
    FwdClose(o, c, rest, st);
  }

  lemma {:induction false} FwdSkips(t: Tree, rest: string, st: seq<char>)
    requires Good(t) && st != []
    ensures Fwd(Text(t) + rest, st) == Shift(Fwd(rest, st), |Text(t)|)
    decreases t
  {
    match t
    case Nil => assert Text(t) + rest == rest;
    case Plain(c) => FwdOther(c, rest, st);
    case Wrap(o, i, c) =>
      FwdSkips(i, [c] + rest, st + [o]);
      FwdWrap(o, Text(i), c, rest, st);
    case Cat(a, b) =>
      Assoc(Text(a), Text(b), rest);
      FwdSkips(a, Text(b) + rest, st);
      FwdSkips(b, rest, st);
  }

  lemma BwdLast(c: char, w: string, st: seq<char>)
    requires st != []
    ensures Close(c) ==> Bwd(w + [c], st) == Bwd(w, st + [c])
    ensures !Open(c) && !Close(c) ==> Bwd(w + [c], st) == Bwd(w, st)
    ensures Open(c) && |st| > 1 && Pair(c, st[|st| - 1]) ==> Bwd(w + [c], st) == Bwd(w, st[..|st| - 1])
  {
    assert (w + [c])[..|w|] == w;
  }

  /** A block is passed over backwards if its inside is. */
  lemma BwdWrap(rest: string, o: char, inner: string, c: char, st: seq<char>)
    requires Pair(o, c) && st != [] && Bwd(rest + [o] + inner, st + [c]) == Bwd(rest + [o], st + [c])
    ensures Bwd(rest + ([o] + inner + [c]), st) == Bwd(rest, st)
  {
    Assoc(rest, [o] + inner, [c]);
    Assoc(rest, [o], inner);
    BwdLast(c, rest + [o] + inner, st);
    BwdLast(o, rest, st + [c]);
    assert (st + [c])[..|st|] == st;
  }

  lemma {:induction false} BwdSkips(t: Tree, rest: string, st: seq<char>)
    requires Good(t) && st != []
    ensures Bwd(rest + Text(t), st) == Bwd(rest, st)
    decreases t
  {
    match t
    case Nil => assert rest + Text(t) == rest;
    case Plain(c) => BwdLast(c, rest, st);
    case Wrap(o, i, c) =>
      BwdSkips(i, rest + [o], st + [c]);
      BwdWrap(rest, o, Text(i), c, st);
    case Cat(a, b) =>
      Assoc(rest, Text(a), Text(b));
      BwdSkips(b, rest + Text(a), st);
      BwdSkips(a, rest, st);
  }

  /** The longest balanced prefix found from the left, and what is left of `w`. */
  function Parse(w: string): (r: (Tree, string))
    ensures |r.1| <= |w| && (r.1 == [] || Close(r.1[0]) || Open(r.1[0]))
    decreases |w|
  {
    if w == [] || Close(w[0]) then (Nil, w)
    else
      var (t1, r1) := Parse(w[1..]);
      if !Open(w[0]) then (Cat(Plain(w[0]), t1), r1)
      else if r1 == [] || !Pair(w[0], r1[0]) then (Nil, w)
      else
        var (t2, r2) := Parse(r1[1..]);
        (Cat(Wrap(w[0], t1, r1[0]), t2), r2)
  }

  /** The longest balanced suffix found from the right, and what is left of `w`. */
  function ParseBack(w: string): (r: (string, Tree))
    ensures |r.0| <= |w| && (r.0 == [] || Close(r.0[|r.0| - 1]) || Open(r.0[|r.0| - 1]))
    decreases |w|
  {
    if w == [] || Open(w[|w| - 1]) then (w, Nil)
    else
      var n := |w| - 1;
      var (r1, t1) := ParseBack(w[..n]);
      if !Close(w[n]) then (r1, Cat(t1, Plain(w[n])))
      else if r1 == [] || !Pair(r1[|r1| - 1], w[n]) then (w, Nil)
      else
        var (r2, t2) := ParseBack(r1[..|r1| - 1]);
        (r2, Cat(t2, Wrap(r1[|r1| - 1], t1, w[n])))
  }

  lemma SplitHead(w: string)
    requires w != []
    ensures w == [w[0]] + w[1..]
  {}

  lemma SplitLast(w: string)
    requires w != []
    ensures w == w[..|w| - 1] + [w[|w| - 1]]
  {}

  lemma {:induction false} ParseSplits(w: string)
    ensures Good(Parse(w).0) && w == Text(Parse(w).0) + Parse(w).1
    decreases |w|
  {
    if w != [] && !Close(w[0]) {
      var (t1, r1) := Parse(w[1..]);
      ParseSplits(w[1..]);
      SplitHead(w);
      Assoc([w[0]], Text(t1), r1);
      if Open(w[0]) && r1 != [] && Pair(w[0], r1[0]) {
        var (t2, r2) := Parse(r1[1..]);
        ParseSplits(r1[1..]);
        SplitHead(r1);
        Assoc([w[0]] + Text(t1), [r1[0]], r1[1..]);
        Assoc([w[0]] + Text(t1) + [r1[0]], Text(t2), r2);
      }
    }
  }

  lemma WrapSplits(r: string, a: string, o: char, b: string, c: char)
    ensures r + a + [o] + (b + [c]) == r + (a + ([o] + b + [c]))
  {
    Assoc(r + a, [o], b + [c]);
    Assoc([o], b, [c]);
    Assoc(r, a, [o] + b + [c]);
  }

  lemma {:induction false} ParseBackSplits(w: string)
    ensures Good(ParseBack(w).1) && w == ParseBack(w).0 + Text(ParseBack(w).1)
    decreases |w|
  {
    if w != [] && !Open(w[|w| - 1]) {
      var n := |w| - 1;
      var (r1, t1) := ParseBack(w[..n]);
      ParseBackSplits(w[..n]);
      SplitLast(w);
      Assoc(r1, Text(t1), [w[n]]);
      if Close(w[n]) && r1 != [] && Pair(r1[|r1| - 1], w[n]) {
        var m := |r1| - 1;
        var (r2, t2) := ParseBack(r1[..m]);
        ParseBackSplits(r1[..m]);
        SplitLast(r1);
        WrapSplits(r2, Text(t2), r1[m], Text(t1), w[n]);
      }
    }
  }

  /** `r` starts with an opening bracket that has no partner. */
  predicate Orphan(r: string) {
    r != [] && Open(r[0]) && var r1 := Parse(r[1..]).1; r1 == [] || !Pair(r[0], r1[0])
  }

  /** `r` ends with a closing bracket that has no partner. */
  predicate OrphanBack(r: string) {
    r != [] && Close(r[|r| - 1]) && var r1 := ParseBack(r[..|r| - 1]).0; r1 == [] || !Pair(r1[|r1| - 1], r[|r| - 1])
  }

  lemma {:induction false} ParseStuck(w: string)
    ensures Parse(w).1 != [] && Open(Parse(w).1[0]) ==> Orphan(Parse(w).1)
    decreases |w|
  {
    if w != [] && !Close(w[0]) {
      var r1 := Parse(w[1..]).1;
      if !Open(w[0]) { ParseStuck(w[1..]); }
      else if r1 != [] && Pair(w[0], r1[0]) { ParseStuck(r1[1..]); }
    }
  }

  lemma {:induction false} ParseBackStuck(w: string)
    ensures var r := ParseBack(w).0; r != [] && Close(r[|r| - 1]) ==> OrphanBack(r)
    decreases |w|
  {
    if w != [] && !Open(w[|w| - 1]) {
      var n := |w| - 1;
      var r1 := ParseBack(w[..n]).0;
      if !Close(w[n]) { ParseBackStuck(w[..n]); }
      else if r1 != [] && Pair(r1[|r1| - 1], w[n]) { ParseBackStuck(r1[..|r1| - 1]); }
    }
  }

  /** An opening bracket without a partner keeps the scan from ending. */
  lemma {:induction false} FwdStuck(w: string, st: seq<char>)
    requires st != [] && Parse(w).1 != [] && Open(Parse(w).1[0])
    ensures !Fwd(w, st).Found?
    decreases |w|
  {
    var (t, r) := Parse(w);
    ParseStuck(w);
    ParseSplits(w);
    FwdSkips(t, r, st);
    var (t1, r1) := Parse(r[1..]);
    ParseSplits(r[1..]);
    FwdSkips(t1, r1, st + [r[0]]);
    if r1 != [] && Open(r1[0]) { FwdStuck(r[1..], st + [r[0]]); }
  }

  lemma {:induction false} BwdStuck(w: string, st: seq<char>)
    requires st != [] && ParseBack(w).0 != [] && Close(ParseBack(w).0[|ParseBack(w).0| - 1])
    ensures !Bwd(w, st).Found?
    decreases |w|
  {
    var (r, t) := ParseBack(w);
    ParseBackStuck(w);
    ParseBackSplits(w);
    BwdSkips(t, r, st);
    var n := |r| - 1;
    var (r1, t1) := ParseBack(r[..n]);
    ParseBackSplits(r[..n]);
    BwdSkips(t1, r1, st + [r[n]]);
    if r1 != [] && Close(r1[|r1| - 1]) { BwdStuck(r[..n], st + [r[n]]); }
  }

  /** The forward scan consumes exactly `w` if and only if `w` is a matched block. */
  lemma FwdFindsBlocks(w: string)
    ensures w != [] && Open(w[0]) && Fwd(w, []) == Found(|w|) <==> IsBlock(w)
  {
    if w != [] && Open(w[0]) && Fwd(w, []) == Found(|w|) { FwdFoundBlock(w); }
    if IsBlock(w) { FwdBlockFound(w); }
  }

  lemma FwdFoundBlock(w: string)
    requires w != [] && Open(w[0]) && Fwd(w, []) == Found(|w|)
    ensures IsBlock(w)
  {
    var v := w[1..];
    var (t, r) := Parse(v);
    assert [] + [w[0]] == [w[0]];
    ParseSplits(v);
    FwdSkips(t, r, [w[0]]);
    if r != [] && Open(r[0]) { FwdStuck(v, [w[0]]); }
    FwdEnd(r, w[0]);
    SplitHead(w);
    Assoc([w[0]], Text(t), r);
    WrapIsBlock(w[0], t, r[0]);
  }

  /** With one open bracket and all of `r` consumed, `r` is its partner. */
  lemma FwdEnd(r: string, o: char)
    requires (r == [] || Close(r[0])) && Fwd(r, [o]) == Found(|r|)
    ensures |r| == 1 && r == [r[0]] && Pair(o, r[0])
  {}

  lemma BwdEnd(r: string, c: char)
    requires (r == [] || Open(r[|r| - 1])) && Bwd(r, [c]) == Found(0)
    ensures |r| == 1 && r == [r[0]] && Pair(r[0], c)
  {}

  lemma WrapIsBlock(o: char, t: Tree, c: char)
    requires Good(t) && Pair(o, c)
    ensures IsBlock([o] + Text(t) + [c])
  {
    var b := Wrap(o, t, c);
    assert Good(b) && Text(b) == [o] + Text(t) + [c];
  }

  lemma FwdBlockFound(w: string)
    requires IsBlock(w)
    ensures w != [] && Open(w[0]) && Fwd(w, []) == Found(|w|)
  {
    var b :| Good(b) && b.Wrap? && Text(b) == w;
    assert w[0] == b.o && w[1..] == Text(b.inner) + [b.c] && [] + [b.o] == [b.o];
    FwdSkips(b.inner, [b.c], [b.o]);
    assert Fwd([b.c], [b.o]) == Found(1);
  }

  lemma BwdFindsBlocks(w: string)
    ensures w != [] && Close(w[|w| - 1]) && Bwd(w, []) == Found(0) <==> IsBlock(w)
  {
    if w != [] && Close(w[|w| - 1]) && Bwd(w, []) == Found(0) { BwdFoundBlock(w); }
    if IsBlock(w) { BwdBlockFound(w); }
  }

  lemma BwdFoundBlock(w: string)
    requires w != [] && Close(w[|w| - 1]) && Bwd(w, []) == Found(0)
    ensures IsBlock(w)
  {
    var n := |w| - 1;
    var (r, t) := ParseBack(w[..n]);
    assert [] + [w[n]] == [w[n]];
    ParseBackSplits(w[..n]);
    BwdSkips(t, r, [w[n]]);
    if r != [] && Close(r[|r| - 1]) { BwdStuck(w[..n], [w[n]]); }
    BwdEnd(r, w[n]);
    SplitLast(w);
    WrapIsBlock(r[0], t, w[n]);
  }

  lemma BwdBlockFound(w: string)
    requires IsBlock(w)
    ensures w != [] && Close(w[|w| - 1]) && Bwd(w, []) == Found(0)
  {
    var b :| Good(b) && b.Wrap? && Text(b) == w;
    assert w[..|w| - 1] == [b.o] + Text(b.inner) && [] + [b.c] == [b.c];
    BwdSkips(b.inner, [b.o], [b.c]);
  }

  // -------------------------------------------------- from one text to many lines

  lemma {:induction false} FwdAppend(a: string, b: string, st: seq<char>)
    ensures Fwd(a + b, st) == var f := Fwd(a, st); if f.More? then Shift(Fwd(b, f.stack), |a|) else f
    ensures st != [] && Fwd(a, st).More? ==> Fwd(a, st).stack != []
    decreases |a|
  {
    if a == [] {
      assert a + b == b;
    } else {
      assert (a + b)[1..] == a[1..] + b;
      FwdAppend(a[1..], b, st + [a[0]]);
      FwdAppend(a[1..], b, st);
      if st != [] { FwdAppend(a[1..], b, st[..|st| - 1]); }
    }
  }

  lemma {:induction false} BwdAppend(a: string, b: string, st: seq<char>)
    ensures Bwd(a + b, st) == var f := Bwd(b, st); if f.More? then Bwd(a, f.stack) else Shift(f, |a|)
    ensures st != [] && Bwd(b, st).More? ==> Bwd(b, st).stack != []
    decreases |b|
  {
    if b == [] {
      assert a + b == a;
    } else {
      var n := |b| - 1;
      assert (a + b)[..|a| + n] == a + b[..n];
      BwdAppend(a, b[..n], st + [b[n]]);
      BwdAppend(a, b[..n], st);
      if st != [] { BwdAppend(a, b[..n], st[..|st| - 1]); }
    }
  }

  lemma FwdPrefix(w: string, k: nat, st: seq<char>)
    requires k <= |w|
    ensures Fwd(w, st) == Found(k) <==> Fwd(w[..k], st) == Found(k)
  {
    assert w[..k] + w[k..] == w;
    FwdAppend(w[..k], w[k..], st);
    FwdPositive(w[..k], st);
    FwdPositive(w[k..], if Fwd(w[..k], st).More? then Fwd(w[..k], st).stack else []);
  }

  lemma BwdSuffix(w: string, k: nat, st: seq<char>)
    requires k <= |w|
    ensures Bwd(w, st) == Found(k) <==> Bwd(w[k..], st) == Found(0)
  {
    assert w[..k] + w[k..] == w;
    BwdAppend(w[..k], w[k..], st);
    BwdPositive(w[..k], if Bwd(w[k..], st).More? then Bwd(w[k..], st).stack else []);
  }

  function Mid(lines: seq<string>, a: nat, b: nat): string
    requires a <= b <= |lines|
    decreases b - a
  {
    if a == b then "" else lines[a] + Mid(lines, a + 1, b)
  }

  lemma {:induction false} MidLast(lines: seq<string>, a: nat, b: nat)
    requires a < b <= |lines|
    ensures Mid(lines, a, b) == Mid(lines, a, b - 1) + lines[b - 1]
    decreases b - a
  {
    if a + 1 < b { MidLast(lines, a + 1, b); }
  }

  predicate Position(lines: seq<string>, l: nat, p: nat) { l < |lines| && p < |lines[l]| }

  /** The text from position (l, p) to position (m, q), both included. */
  function Between(lines: seq<string>, l: nat, p: nat, m: nat, q: nat): string
    requires Position(lines, l, p) && Position(lines, m, q) && l <= m && (l == m ==> p <= q)
  {
    if l == m then lines[l][p..q + 1] else lines[l][p..] + (Mid(lines, l + 1, m) + lines[m][..q + 1])
  }

  lemma {:induction false} FwdLinesFinds(lines: seq<string>, l: nat, st: seq<char>, m: nat, q: nat)
    requires l <= |lines| && st != [] && Position(lines, m, q)
    ensures FwdLines(lines, l, st) == Some((m, q + 1)) <==>
      l <= m && var w := Mid(lines, l, m) + lines[m][..q + 1]; Fwd(w, st) == Found(|w|)
    decreases |lines| - l
  {
    if l < |lines| {
      var line := lines[l];
      FwdAppend(line, "", st);
      FwdPositive(line, st);
      if l == m {
        assert Mid(lines, l, m) + line[..q + 1] == line[..q + 1];
        FwdPrefix(line, q + 1, st);
      } else if l < m {
        var rest := Mid(lines, l + 1, m) + lines[m][..q + 1];
        assert Mid(lines, l, m) + lines[m][..q + 1] == line + rest;
        FwdAppend(line, rest, st);
      }
      if Fwd(line, st).More? { FwdLinesFinds(lines, l + 1, Fwd(line, st).stack, m, q); }
    }
  }

  lemma CloseSameLine(w: string, k: nat)
    requires 0 < k <= |w|
    ensures Open(w[0]) && Fwd(w, []) == Found(k) <==> IsBlock(w[..k])
  {
    FwdFindsBlocks(w[..k]);
    FwdPrefix(w, k, []);
  }

  lemma CloseLaterLine(w: string, rest: string)
    requires w != [] && rest != []
    ensures IsBlock(w + rest) <==>
      Open(w[0]) && Fwd(w, []).More? && Fwd(rest, Fwd(w, []).stack) == Found(|rest|)
  {
    FwdFindsBlocks(w + rest);
    FwdAppend(w, rest, []);
    FwdPositive(w, []);
  }

  lemma StackNotEmpty(w: string)
    requires w != [] && Open(w[0]) && Fwd(w, []).More?
    ensures Fwd(w, []).stack != []
  {
    assert [] + [w[0]] == [w[0]];
    FwdAppend(w[1..], "", [w[0]]);
  }

  lemma CloseFinds(lines: seq<string>, l: nat, p: nat, m: nat, q: nat)
    requires Position(lines, l, p) && Position(lines, m, q)
    ensures CloseAt(lines, l, p) == Some((m, q + 1)) <==>
      l <= m && (l == m ==> p <= q) && IsBlock(Between(lines, l, p, m, q))
  {
    var w := lines[l][p..];
    FwdPositive(w, []);
    if Open(w[0]) && Fwd(w, []).More? {
      StackNotEmpty(w);
      FwdLinesFinds(lines, l + 1, Fwd(w, []).stack, m, q);
    }
    if l == m && p <= q {
      assert lines[l][p..q + 1] == w[..q + 1 - p];
      CloseSameLine(w, q + 1 - p);
    } else if l < m {
      CloseLaterLine(w, Mid(lines, l + 1, m) + lines[m][..q + 1]);
    }
  }

  lemma {:induction false} BwdLinesFinds(lines: seq<string>, m: nat, st: seq<char>, l: nat, p: nat)
    requires m <= |lines| && st != [] && Position(lines, l, p)
    ensures BwdLines(lines, m, st) == Some((l, p)) <==>
      l < m && Bwd(lines[l][p..] + Mid(lines, l + 1, m), st) == Found(0)
    decreases m
  {
    if m > 0 {
      var line := lines[m - 1];
      BwdAppend("", line, st);
      BwdPositive(line, st);
      if l == m - 1 {
        assert line[p..] + Mid(lines, l + 1, m) == line[p..];
        BwdSuffix(line, p, st);
      } else if l < m - 1 {
        MidLast(lines, l + 1, m);
        var rest := lines[l][p..] + Mid(lines, l + 1, m - 1);
        assert lines[l][p..] + Mid(lines, l + 1, m) == rest + line;
        BwdAppend(rest, line, st);
      }
      if Bwd(line, st).More? { BwdLinesFinds(lines, m - 1, Bwd(line, st).stack, l, p); }
    }
  }

  lemma OpenSameLine(line: string, p: nat, q: nat)
    requires p <= q < |line|
    ensures Close(line[q]) && Bwd(line[..q + 1], []) == Found(p) <==> IsBlock(line[p..q + 1])
  {
    assert line[..q + 1][p..] == line[p..q + 1];
    BwdFindsBlocks(line[p..q + 1]);
    BwdSuffix(line[..q + 1], p, []);
  }

  lemma OpenEarlierLine(a: string, b: string, w: string)
    requires w != [] && a != []
    ensures IsBlock(a + (b + w)) <==> Close(w[|w| - 1]) && Bwd(w, []).More? && Bwd(a + b, Bwd(w, []).stack) == Found(0)
  {
    Assoc(a, b, w);
    BwdFindsBlocks(a + b + w);
    BwdAppend(a + b, w, []);
    BwdPositive(w, []);
  }

  lemma BackStackNotEmpty(w: string)
    requires w != [] && Close(w[|w| - 1]) && Bwd(w, []).More?
    ensures Bwd(w, []).stack != []
  {
    var n := |w| - 1;
    assert [] + [w[n]] == [w[n]];
    BwdAppend("", w[..n], [w[n]]);
  }

  lemma OpenFinds(lines: seq<string>, l: nat, p: nat, m: nat, q: nat)
    requires Position(lines, l, p) && Position(lines, m, q)
    ensures OpenAt(lines, m, q) == Some((l, p)) <==>
      l <= m && (l == m ==> p <= q) && IsBlock(Between(lines, l, p, m, q))
  {
    var w := lines[m][..q + 1];
    BwdPositive(w, []);
    if Close(w[q]) && Bwd(w, []).More? {
      BackStackNotEmpty(w);
      BwdLinesFinds(lines, m, Bwd(w, []).stack, l, p);
    }
    if l == m && p <= q {
      OpenSameLine(lines[l], p, q);
    } else if l < m {
      OpenEarlierLine(lines[l][p..], Mid(lines, l + 1, m), w);
    }
  }

  /** The two scans are inverse: the forward scan from (l, p) ends just past (m, q) if and only if the
      backward scan from (m, q) returns (l, p). */
  lemma ScansAreInverse(lines: seq<string>, l: nat, p: nat, m: nat, q: nat)
    requires Position(lines, l, p) && Position(lines, m, q)
    ensures CloseAt(lines, l, p) == Some((m, q + 1)) <==> OpenAt(lines, m, q) == Some((l, p))
  {
    CloseFinds(lines, l, p, m, q);
    OpenFinds(lines, l, p, m, q);
  }
}
