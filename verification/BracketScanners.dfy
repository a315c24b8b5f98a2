/** The bracket matchers of the linter as they run (paddle/scripts/cpplint.py: FindEndOfExpressionInLine,
    CloseExpression, FindStartOfExpressionInLine, ReverseCloseExpression), with their guesses at template
    brackets. From a round, square or curly bracket the guesses never matter: on every text the result is
    that of the scans of module Brackets. */
module BracketScanners {
  import opened Common
  import opened Brackets

  predicate Angle(c: char) { c == '<' || c == '>' }

  predicate Space(c: char) { c == ' ' || c == '\t' || c == '\n' || c == '\r' || c == '\U{000C}' || c == '\U{000B}' }

  predicate Word(c: char) { 'a' <= c <= 'z' || 'A' <= c <= 'Z' || '0' <= c <= '9' || c == '_' }

  /** The letters of "operator". */
  predicate Spells(w: string, i: nat)
    requires i + 8 <= |w|
  {
    && w[i] == 'o' && w[i + 1] == 'p' && w[i + 2] == 'e' && w[i + 3] == 'r'
    && w[i + 4] == 'a' && w[i + 5] == 't' && w[i + 6] == 'o' && w[i + 7] == 'r'
  }

  /** The text ends in the word "operator", perhaps followed by white space. */
  predicate EndsInOperator(w: string) {
    if w != [] && Space(w[|w| - 1]) then EndsInOperator(w[..|w| - 1])
    else
      var n := |w| - 8;
      n >= 0 && Spells(w, n) && (n == 0 || !Word(w[n - 1]))
  }

  /** The word stands there: before it nothing or no word character, after it white space only. */
  predicate WordAt(w: string, i: nat) {
    && i + 8 <= |w| && Spells(w, i) && (i == 0 || !Word(w[i - 1]))
    && forall k | i + 8 <= k < |w| :: Space(w[k])
  }

  /** What the function finds is that word. */
  lemma {:induction false} OperatorIs(w: string)
    ensures EndsInOperator(w) <==> exists i: nat :: WordAt(w, i)
  {
    if w != [] && Space(w[|w| - 1]) {
      var v := w[..|w| - 1];
      OperatorIs(v);
      forall i: nat ensures WordAt(w, i) <==> WordAt(v, i) { SpaceCut(w, v, i); }
    } else {
      EndsHere(w);
      forall i: nat | WordAt(w, i) ensures i + 8 == |w| { LastOfWord(w, i); }
    }
  }

  lemma EndsHere(w: string)
    requires w == [] || !Space(w[|w| - 1])
    ensures EndsInOperator(w) <==> |w| >= 8 && WordAt(w, |w| - 8)
  {}

  lemma SpaceCut(w: string, v: string, i: nat)
    requires w != [] && Space(w[|w| - 1]) && v == w[..|w| - 1]
    ensures WordAt(w, i) <==> WordAt(v, i)
  {
    if i + 8 <= |v| { assert Spells(w, i) <==> Spells(v, i); }
    if i + 8 == |w| { assert w[i + 7] != 'r'; }
  }

  lemma LastOfWord(w: string, i: nat)
    requires WordAt(w, i) && (w == [] || !Space(w[|w| - 1]))
    ensures i + 8 == |w|
  {}

  /** At `i` stands ">=" between white space. */
  predicate SpacedAtLeast(line: string, i: nat)
    requires i < |line|
  {
    i > 0 && Space(line[i - 1]) && line[i] == '>' && i + 2 < |line| && line[i + 1] == '=' && Space(line[i + 2])
  }

  function Last(st: seq<char>): char
    requires st != []
  {
    st[|st| - 1]
  }

  function Init(st: seq<char>): seq<char>
    requires st != []
  {
    st[..|st| - 1]
  }

  /** Template brackets on top of the stack turn out to be operators. */
  function Popped(st: seq<char>, angle: char): (r: seq<char>)
    ensures r <= st && (r == [] || Last(r) != angle)
  {
    if st != [] && Last(st) == angle then Popped(Init(st), angle) else st
  }

  // ------------------------------------------------------------- one line, with template brackets

  /** A pop that ends the expression when it empties the stack. */
  function FwdAll(line: string, i: nat, st: seq<char>): Scan
    decreases |line| - i
  {
    if i >= |line| then More(st)
    else
      var c := line[i];
      if Open(c) then FwdAll(line, i + 1, st + [c])
      else if c == '<' then
        if i > 0 && line[i - 1] == '<' then
          if st == [] || Last(st) != '<' then FwdAll(line, i + 1, st)
          else if |st| == 1 then Broken
          else FwdAll(line, i + 1, Init(st))
        else if i > 0 && EndsInOperator(line[..i]) then FwdAll(line, i + 1, st)
        else FwdAll(line, i + 1, st + ['<'])
      else if Close(c) then
        var r := Popped(st, '<');
        if r == [] || !Pair(Last(r), c) then Broken
        else if |r| == 1 then Found(i + 1)
        else FwdAll(line, i + 1, Init(r))
      else if c == '>' then
        if (i > 0 && (line[i - 1] == '-' || EndsInOperator(line[..i - 1]))) || st == [] || Last(st) != '<'
        then FwdAll(line, i + 1, st)
        else if |st| == 1 then Found(i + 1)
        else FwdAll(line, i + 1, Init(st))
      else if c == ';' then
        var r := Popped(st, '<');
        if r == [] then Broken else FwdAll(line, i + 1, r)
      else FwdAll(line, i + 1, st)
  }

  function BwdAll(line: string, i: int, st: seq<char>): Scan
    requires i < |line|
    decreases i
  {
    if i < 0 then More(st)
    else
      var c := line[i];
      if Close(c) then BwdAll(line, i - 1, st + [c])
      else if c == '>' then
        if i > 0 && (line[i - 1] == '-' || SpacedAtLeast(line, i) || EndsInOperator(line[..i]))
        then BwdAll(line, i - 2, st)
        else BwdAll(line, i - 1, st + ['>'])
      else if c == '<' then
        if i > 0 && line[i - 1] == '<' then BwdAll(line, i - 2, st)
        else if st == [] || Last(st) != '>' then BwdAll(line, i - 1, st)
        else if |st| == 1 then Found(i)
        else BwdAll(line, i - 1, Init(st))
      else if Open(c) then
        var r := Popped(st, '>');
        if r == [] || !Pair(c, Last(r)) then Broken
        else if |r| == 1 then Found(i)
        else BwdAll(line, i - 1, Init(r))
      else if c == ';' then
        var r := Popped(st, '>');
        if r == [] then Broken else BwdAll(line, i - 1, r)
      else BwdAll(line, i - 1, st)
  }

  // ------------------------------------------------- from a real bracket the guesses do not matter

  /** The stack without the template brackets that wait on it: '<' forward, '>' backward. */
  function Real(st: seq<char>, angle: char): (r: seq<char>)
    ensures |r| <= |st|
  {
    if st == [] then []
    else if Last(st) == angle then Real(Init(st), angle)
    else Real(Init(st), angle) + [Last(st)]
  }

  /** The bottom bracket is a real one. */
  predicate Grounded(st: seq<char>, angle: char) { st != [] && st[0] != angle }

  lemma RealPush(st: seq<char>, c: char, angle: char)
    ensures Real(st + [c], angle) == Real(st, angle) + if c == angle then [] else [c]
  {
    assert Init(st + [c]) == st && Last(st + [c]) == c;
    assert Real(st, angle) + [] == Real(st, angle);
  }

  lemma {:induction false} RealGrounded(st: seq<char>, angle: char)
    requires Grounded(st, angle)
    ensures Real(st, angle) != []
  {
    if |st| > 1 { RealGrounded(Init(st), angle); }
  }

  /** With a real bracket on top, popping it is popping it from the real stack. */
  lemma RealPop(st: seq<char>, angle: char)
    requires Grounded(st, angle) && Last(st) != angle
    ensures var r := Real(st, angle);
      r != [] && Last(r) == Last(st) && Init(r) == Real(Init(st), angle) && (|r| == 1 <==> |st| == 1)
  {
    if |st| > 1 { RealGrounded(Init(st), angle); }
  }

  lemma {:induction false} RealPopped(st: seq<char>, angle: char)
    requires Grounded(st, angle)
    ensures var r := Popped(st, angle); r != [] && r[0] == st[0] && Real(r, angle) == Real(st, angle)
  {
    if Last(st) == angle { RealPopped(Init(st), angle); }
  }

  /** `all` is the outcome with guesses, `exact` the one without, for a stack with this bottom. */
  predicate Agree(all: Scan, exact: Scan, bottom: char, angle: char) {
    match all
    case Found(k) => exact == Found(k)
    case Broken => exact == Broken
    case More(st) => st != [] && st[0] == bottom && exact == More(Real(st, angle))
  }

  lemma FwdAt(line: string, i: nat, st: seq<char>)
    requires i < |line| && st != []
    ensures var c, rest := line[i], line[i + 1..];
      Shift(Fwd(line[i..], st), i) ==
        if Open(c) then Shift(Fwd(rest, st + [c]), i + 1)
        else if Close(c) then
          if !Pair(Last(st), c) then Broken
          else if |st| == 1 then Found(i + 1)
          else Shift(Fwd(rest, Init(st)), i + 1)
        else Shift(Fwd(rest, st), i + 1)
  {
    assert line[i..][1..] == line[i + 1..];
  }

  /** Any other character changes at most the template brackets on top. */
  lemma FwdPasses(line: string, i: nat, st: seq<char>) returns (st': seq<char>)
    requires i < |line| && !Open(line[i]) && !Close(line[i]) && Grounded(st, '<')
    ensures FwdAll(line, i, st) == FwdAll(line, i + 1, st')
    ensures st' != [] && st'[0] == st[0] && Real(st', '<') == Real(st, '<')
  {
    if FwdAll(line, i, st) == FwdAll(line, i + 1, st) { return st; }
    RealPopped(st, '<');
    RealPush(st, '<', '<');
    st' := if line[i] == ';' then Popped(st, '<') else if Last(st) == '<' && (line[i] == '>' || (i > 0 && line[i - 1] == '<'))
           then Init(st) else st + ['<'];
  }

  /** A closing bracket ends the scan, or pops its partner. */
  lemma FwdPairs(line: string, i: nat, st: seq<char>)
    requires i < |line| && Close(line[i]) && Grounded(st, '<')
    ensures var r, whole, exact := Popped(st, '<'), FwdAll(line, i, st), Shift(Fwd(line[i..], Real(st, '<')), i);
      if |r| > 1 && Pair(Last(r), line[i]) then
        && whole == FwdAll(line, i + 1, Init(r)) && exact == Shift(Fwd(line[i + 1..], Real(Init(r), '<')), i + 1)
        && Init(r)[0] == st[0] && Grounded(Init(r), '<')
      else whole == exact && !whole.More?
  {
    RealGrounded(st, '<');
    FwdAt(line, i, Real(st, '<'));
    RealPopped(st, '<');
    RealPop(Popped(st, '<'), '<');
  }

  /** On every line, if the bottom bracket is real. */
  lemma {:induction false} FwdAllIsFwd(line: string, i: nat, st: seq<char>)
    requires i <= |line| && Grounded(st, '<')
    ensures Agree(FwdAll(line, i, st), Shift(Fwd(line[i..], Real(st, '<')), i), st[0], '<')
    decreases |line| - i
  {
    if i == |line| {
      assert line[i..] == [];
    } else if Close(line[i]) {
      FwdPairs(line, i, st);
      var r := Popped(st, '<');
      if |r| > 1 && Pair(Last(r), line[i]) { FwdAllIsFwd(line, i + 1, Init(r)); }
    } else {
      RealGrounded(st, '<');
      FwdAt(line, i, Real(st, '<'));
      if Open(line[i]) {
        RealPush(st, line[i], '<');
        FwdAllIsFwd(line, i + 1, st + [line[i]]);
      } else {
        var st' := FwdPasses(line, i, st);
        FwdAllIsFwd(line, i + 1, st');
      }
    }
  }

  lemma BwdAt(line: string, i: nat, st: seq<char>)
    requires i < |line| && st != []
    ensures var c, rest := line[i], line[..i];
      Bwd(line[..i + 1], st) ==
        if Close(c) then Bwd(rest, st + [c])
        else if Open(c) then
          if !Pair(c, Last(st)) then Broken
          else if |st| == 1 then Found(i)
          else Bwd(rest, Init(st))
        else Bwd(rest, st)
  {
    assert line[..i + 1][..i] == line[..i];
  }

  lemma OperatorLast(w: string)
    requires EndsInOperator(w)
    ensures w != [] && (Space(Last(w)) || Last(w) == 'r')
  {}

  /** Any other character changes at most the template brackets on top; it may take its left neighbour along,
      which is no bracket either. */
  lemma BwdPasses(line: string, i: nat, st: seq<char>) returns (k: int, st': seq<char>)
    requires i < |line| && !Open(line[i]) && !Close(line[i]) && Grounded(st, '>')
    ensures -1 <= k < i && BwdAll(line, i, st) == BwdAll(line, k, st')
    ensures st' != [] && st'[0] == st[0] && Real(st', '>') == Real(st, '>')
    ensures Bwd(line[..i + 1], Real(st, '>')) == Bwd(line[..k + 1], Real(st, '>'))
  {
    k, st' := i - 1, st;
    RealGrounded(st, '>');
    RealPopped(st, '>');
    RealPush(st, '>', '>');
    BwdAt(line, i, Real(st, '>'));
    if line[i] == '>' {
      if i > 0 && (line[i - 1] == '-' || SpacedAtLeast(line, i) || EndsInOperator(line[..i])) {
        if EndsInOperator(line[..i]) { OperatorLast(line[..i]); }
        BwdAt(line, i - 1, Real(st, '>'));
        k := i - 2;
      } else {
        st' := st + ['>'];
      }
    } else if line[i] == '<' {
      if i > 0 && line[i - 1] == '<' {
        BwdAt(line, i - 1, Real(st, '>'));
        k := i - 2;
      } else if Last(st) == '>' {
        st' := Init(st);
      }
    } else if line[i] == ';' {
      st' := Popped(st, '>');
    }
  }

  /** An opening bracket ends the scan, or pops its partner. */
  lemma BwdPairs(line: string, i: nat, st: seq<char>)
    requires i < |line| && Open(line[i]) && Grounded(st, '>')
    ensures var r, whole, exact := Popped(st, '>'), BwdAll(line, i, st), Bwd(line[..i + 1], Real(st, '>'));
      if |r| > 1 && Pair(line[i], Last(r)) then
        && whole == BwdAll(line, i - 1, Init(r)) && exact == Bwd(line[..i], Real(Init(r), '>'))
        && Init(r)[0] == st[0] && Grounded(Init(r), '>')
      else whole == exact && !whole.More?
  {
    RealGrounded(st, '>');
    BwdAt(line, i, Real(st, '>'));
    RealPopped(st, '>');
    RealPop(Popped(st, '>'), '>');
  }

  lemma {:induction false} BwdAllIsBwd(line: string, i: int, st: seq<char>)
    requires -1 <= i < |line| && Grounded(st, '>')
    ensures Agree(BwdAll(line, i, st), Bwd(line[..i + 1], Real(st, '>')), st[0], '>')
    decreases i
  {
    if i == -1 {
      assert line[..i + 1] == [];
    } else if Close(line[i]) {
      RealGrounded(st, '>');
      BwdAt(line, i, Real(st, '>'));
      RealPush(st, line[i], '>');
      BwdAllIsBwd(line, i - 1, st + [line[i]]);
    } else if Open(line[i]) {
      BwdPairs(line, i, st);
      var r := Popped(st, '>');
      if |r| > 1 && Pair(line[i], Last(r)) { BwdAllIsBwd(line, i - 1, Init(r)); }
    } else {
      var k, st' := BwdPasses(line, i, st);
      BwdAllIsBwd(line, k, st');
    }
  }

  /** The scan begins at a real bracket or carries one at the bottom, or nothing here could open a template. */
  predicate FwdClean(line: string, i: nat, st: seq<char>)
    requires i <= |line|
  {
    if st != [] then st[0] != '<' else (i < |line| && Open(line[i])) || forall j | i <= j < |line| :: line[j] != '<'
  }

  predicate BwdClean(line: string, i: int, st: seq<char>)
    requires -1 <= i < |line|
  {
    if st != [] then st[0] != '>' else (i >= 0 && Close(line[i])) || forall j | 0 <= j <= i :: line[j] != '>'
  }

  /** How an outcome is returned, up to template brackets on the stack. */
  predicate ReportsReal(s: Scan, pos: int, out: Option<seq<char>>, angle: char) {
    match s
    case Found(k) => pos == k >= 0 && out == None
    case Broken => pos == -1 && out == None
    case More(st) => pos == -1 && out.Some? && Real(out.value, angle) == st
  }

  /** How an outcome is returned: a position, or -1 and the stack if there is one to carry on with. */
  predicate Reports(s: Scan, pos: int, out: Option<seq<char>>) {
    match s
    case Found(k) => pos == k >= 0 && out == None
    case Broken => pos == -1 && out == None
    case More(st) => pos == -1 && out == Some(st)
  }

  /** Equal up to template brackets on the stack. */
  predicate Same(all: Scan, exact: Scan, angle: char) {
    if all.More? then exact == More(Real(all.stack, angle)) else exact == all
  }

  /** With nothing open, a closing bracket or ';' breaks both scans, and other characters are passed over. */
  lemma FwdEmptyAt(line: string, i: nat)
    requires i < |line| && !Open(line[i]) && line[i] != '<'
    ensures var whole, exact := FwdAll(line, i, []), Shift(Fwd(line[i..], []), i);
      if Close(line[i]) || line[i] == ';' then whole == exact == Broken
      else whole == FwdAll(line, i + 1, []) && exact == Shift(Fwd(line[i + 1..], []), i + 1)
  {
    assert line[i..][1..] == line[i + 1..];
  }

  lemma FwdFromOpen(line: string, i: nat)
    requires i < |line| && Open(line[i])
    ensures Same(FwdAll(line, i, []), Shift(Fwd(line[i..], []), i), '<')
  {
    assert line[i..][1..] == line[i + 1..];
    RealOne(line[i], '<');
    FwdAllIsFwd(line, i + 1, [line[i]]);
  }

  lemma {:induction false} FwdFromEmpty(line: string, i: nat)
    requires i <= |line| && forall j | i <= j < |line| :: line[j] != '<'
    ensures Same(FwdAll(line, i, []), Shift(Fwd(line[i..], []), i), '<')
    decreases |line| - i
  {
    if i == |line| {
      assert line[i..] == [];
    } else if Open(line[i]) {
      FwdFromOpen(line, i);
    } else {
      FwdEmptyAt(line, i);
      if !Close(line[i]) && line[i] != ';' { FwdFromEmpty(line, i + 1); }
    }
  }

  lemma FwdGuessesDontMatter(line: string, i: nat, st: seq<char>)
    requires i <= |line| && FwdClean(line, i, st)
    ensures Same(FwdAll(line, i, st), Shift(Fwd(line[i..], Real(st, '<')), i), '<')
  {
    if st != [] { FwdAllIsFwd(line, i, st); }
    else if i < |line| && Open(line[i]) { FwdFromOpen(line, i); }
    else { FwdFromEmpty(line, i); }
  }

  lemma BwdEmptyAt(line: string, i: nat)
    requires i < |line| && !Close(line[i]) && line[i] != '>'
    ensures var k := if line[i] == '<' && i > 0 && line[i - 1] == '<' then i - 2 else i - 1;
      var whole, exact := BwdAll(line, i, []), Bwd(line[..i + 1], []);
      if Open(line[i]) || line[i] == ';' then whole == exact == Broken
      else whole == BwdAll(line, k, []) && exact == Bwd(line[..k + 1], [])
  {
    assert line[..i + 1][..i] == line[..i];
    if i > 0 { assert line[..i][..i - 1] == line[..i - 1]; }
  }

  lemma BwdFromClose(line: string, i: nat)
    requires i < |line| && Close(line[i])
    ensures Same(BwdAll(line, i, []), Bwd(line[..i + 1], []), '>')
  {
    assert line[..i + 1][..i] == line[..i];
    RealOne(line[i], '>');
    BwdAllIsBwd(line, i - 1, [line[i]]);
  }

  lemma {:induction false} BwdFromEmpty(line: string, i: int)
    requires -1 <= i < |line| && forall j | 0 <= j <= i :: line[j] != '>'
    ensures Same(BwdAll(line, i, []), Bwd(line[..i + 1], []), '>')
    decreases i
  {
    if i == -1 {
      assert line[..i + 1] == [];
    } else if Close(line[i]) {
      BwdFromClose(line, i);
    } else {
      BwdEmptyAt(line, i);
      var k := if line[i] == '<' && i > 0 && line[i - 1] == '<' then i - 2 else i - 1;
      if !Open(line[i]) && line[i] != ';' { BwdFromEmpty(line, k); }
    }
  }

  lemma BwdGuessesDontMatter(line: string, i: int, st: seq<char>)
    requires -1 <= i < |line| && BwdClean(line, i, st)
    ensures Same(BwdAll(line, i, st), Bwd(line[..i + 1], Real(st, '>')), '>')
  {
    if st != [] { BwdAllIsBwd(line, i, st); }
    else if i >= 0 && Close(line[i]) { BwdFromClose(line, i); }
    else { BwdFromEmpty(line, i); }
  }

  // ------------------------------------------------------------------ across lines

  function FwdLinesAll(lines: seq<string>, l: nat, st: seq<char>): Option<(nat, int)>
    requires l <= |lines|
    decreases |lines| - l
  {
    if l == |lines| || st == [] then None
    else
      match FwdAll(lines[l], 0, st)
      case Found(q) => Some((l, q))
      case Broken => None
      case More(st') => FwdLinesAll(lines, l + 1, st')
  }

  /** Where the expression that begins at (l, p) ends, as the source decides it. */
  function CloseAll(lines: seq<string>, l: nat, p: nat): Option<(nat, int)>
    requires Position(lines, l, p)
  {
    var line := lines[l];
    if !Open(line[p]) && (line[p] != '<' || (p + 1 < |line| && (line[p + 1] == '<' || line[p + 1] == '='))) then None
    else
      match FwdAll(line, p, [])
      case Found(q) => Some((l, q))
      case Broken => None
      case More(st) => FwdLinesAll(lines, l + 1, st)
  }

  function BwdLinesAll(lines: seq<string>, l: nat, st: seq<char>): Option<(nat, int)>
    requires l <= |lines|
  {
    if l == 0 || st == [] then None
    else
      match BwdAll(lines[l - 1], |lines[l - 1]| - 1, st)
      case Found(p) => Some((l - 1, p))
      case Broken => None
      case More(st') => BwdLinesAll(lines, l - 1, st')
  }

  /** Where the expression that ends at (l, p) begins, as the source decides it. */
  function OpenAll(lines: seq<string>, l: nat, p: nat): Option<(nat, int)>
    requires Position(lines, l, p)
  {
    if !Close(lines[l][p]) && lines[l][p] != '>' then None
    else
      match BwdAll(lines[l], p, [])
      case Found(k) => Some((l, k))
      case Broken => None
      case More(st) => BwdLinesAll(lines, l, st)
  }

  lemma {:induction false} FwdLinesAllIsFwd(lines: seq<string>, l: nat, st: seq<char>)
    requires l <= |lines| && Grounded(st, '<')
    ensures FwdLinesAll(lines, l, st) == FwdLines(lines, l, Real(st, '<'))
    decreases |lines| - l
  {
    RealGrounded(st, '<');
    if l < |lines| {
      FwdAllIsFwd(lines[l], 0, st);
      assert lines[l][0..] == lines[l];
      var r := FwdAll(lines[l], 0, st);
      if r.More? { FwdLinesAllIsFwd(lines, l + 1, r.stack); }
    }
  }

  lemma {:induction false} BwdLinesAllIsBwd(lines: seq<string>, l: nat, st: seq<char>)
    requires l <= |lines| && Grounded(st, '>')
    ensures BwdLinesAll(lines, l, st) == BwdLines(lines, l, Real(st, '>'))
  {
    RealGrounded(st, '>');
    if l > 0 {
      var line := lines[l - 1];
      BwdAllIsBwd(line, |line| - 1, st);
      assert line[..|line|] == line;
      var r := BwdAll(line, |line| - 1, st);
      if r.More? { BwdLinesAllIsBwd(lines, l - 1, r.stack); }
    }
  }

  lemma RealOne(c: char, angle: char)
    requires c != angle
    ensures [] + [c] == [c] && Real([c], angle) == [c]
  {
    assert Init([c]) == [];
  }

  /** From every character but a template bracket, on every text, the guesses do not matter. */
  lemma CloseAllIsClose(lines: seq<string>, l: nat, p: nat)
    requires Position(lines, l, p) && lines[l][p] != '<'
    ensures CloseAll(lines, l, p) == CloseAt(lines, l, p)
  {
    var line, c := lines[l], lines[l][p];
    if Open(c) {
      RealOne(c, '<');
      FwdAllIsFwd(line, p + 1, [c]);
      assert line[p..][1..] == line[p + 1..];
      var r := FwdAll(line, p, []);
      if r.More? { FwdLinesAllIsFwd(lines, l + 1, r.stack); }
    }
  }

  lemma OpenAllIsOpen(lines: seq<string>, l: nat, p: nat)
    requires Position(lines, l, p) && lines[l][p] != '>'
    ensures OpenAll(lines, l, p) == OpenAt(lines, l, p)
  {
    var line, c := lines[l], lines[l][p];
    if Close(c) {
      RealOne(c, '>');
      BwdAllIsBwd(line, p - 1, [c]);
      assert line[..p + 1][..p] == line[..p];
      var r := BwdAll(line, p, []);
      if r.More? { BwdLinesAllIsBwd(lines, l, r.stack); }
    }
  }

  /** The code's two scans are inverse on every text, template brackets or not, between every two positions that
      are not template brackets themselves. */
  lemma CodeScansAreInverse(lines: seq<string>, l: nat, p: nat, m: nat, q: nat)
    requires Position(lines, l, p) && Position(lines, m, q) && lines[l][p] != '<' && lines[m][q] != '>'
    ensures CloseAll(lines, l, p) == Some((m, q + 1)) <==> OpenAll(lines, m, q) == Some((l, p))
  {
    CloseAllIsClose(lines, l, p);
    OpenAllIsOpen(lines, m, q);
    ScansAreInverse(lines, l, p, m, q);
  }

  // ---------------------------------------------------------------- what is found, on every line

  predicate NoAngles(w: string) { forall i | 0 <= i < |w| :: !Angle(w[i]) }

  /** `c` closes what `o` opened, template brackets included. */
  predicate Partner(o: char, c: char) { Pair(o, c) || (o == '<' && c == '>') }

  /** The bracket at the bottom of the stack, where position `p` is the first one scanned. */
  function Bottom(line: string, p: int, stack: seq<char>): Option<char> {
    if stack != [] then Some(stack[0])
    else if 0 <= p < |line| && (Open(line[p]) || Close(line[p])) then Some(line[p])
    else None
  }

  /** One turn of the scan: it ends, at a partner of the bottom bracket or broken, or goes on with a stack. */
  lemma FwdTurn(line: string, i: nat, st: seq<char>) returns (next: Option<seq<char>>)
    requires i < |line|
    ensures var r := FwdAll(line, i, st);
      match next
      case None => r == Broken || (r == Found(i + 1) && (st != [] ==> Partner(st[0], line[i])))
      case Some(st') => r == FwdAll(line, i + 1, st') && GoesOn(line, st, st')
  {
    var c, r := line[i], Popped(st, '<');
    if Open(c) { return Some(st + [c]); }
    if Close(c) { return if r == [] || !Pair(Last(r), c) || |r| == 1 then None else Some(Init(r)); }
    if c == ';' { return if r == [] then None else Some(r); }
    if FwdAll(line, i, st) == FwdAll(line, i + 1, st) { return Some(st); }
    if c == '<' && !(i > 0 && line[i - 1] == '<') { return Some(st + ['<']); }
    return if |st| == 1 then None else Some(Init(st));
  }

  predicate GoesOn(line: string, st: seq<char>, st': seq<char>) {
    (st != [] ==> st' != [] && st'[0] == st[0]) && (NoAngles(line) && NoAngles(st) ==> NoAngles(st'))
  }

  lemma {:induction false} FwdEnds(line: string, i: nat, st: seq<char>)
    requires i <= |line|
    ensures match FwdAll(line, i, st)
      case Found(k) => i < k <= |line| && (st != [] ==> Partner(st[0], line[k - 1]))
      case Broken => true
      case More(st') => GoesOn(line, st, st')
    decreases |line| - i
  {
    if i < |line| {
      var next := FwdTurn(line, i, st);
      if next.Some? { FwdEnds(line, i + 1, next.value); }
    }
  }

  lemma BwdTurn(line: string, i: nat, st: seq<char>) returns (k: int, next: Option<seq<char>>)
    requires i < |line|
    ensures -1 <= k < i
    ensures var r := BwdAll(line, i, st);
      match next
      case None => r == Broken || (r == Found(i) && (st != [] ==> Partner(line[i], st[0])))
      case Some(st') => r == BwdAll(line, k, st') && GoesOn(line, st, st')
  {
    var c, r := line[i], Popped(st, '>');
    k := i - 1;
    if Close(c) { next := Some(st + [c]); }
    else if Open(c) { next := if r == [] || !Pair(c, Last(r)) || |r| == 1 then None else Some(Init(r)); }
    else if c == ';' { next := if r == [] then None else Some(r); }
    else if c == '>' {
      if i > 0 && (line[i - 1] == '-' || SpacedAtLeast(line, i) || EndsInOperator(line[..i])) { k, next := i - 2, Some(st); }
      else { next := Some(st + ['>']); }
    } else if c == '<' && i > 0 && line[i - 1] == '<' {
      k, next := i - 2, Some(st);
    } else if c == '<' && st != [] && Last(st) == '>' {
      next := if |st| == 1 then None else Some(Init(st));
    } else {
      next := Some(st);
    }
  }

  lemma {:induction false} BwdEnds(line: string, i: int, st: seq<char>)
    requires -1 <= i < |line|
    ensures match BwdAll(line, i, st)
      case Found(k) => 0 <= k <= i && (st != [] ==> Partner(line[k], st[0]))
      case Broken => true
      case More(st') => GoesOn(line, st, st')
    decreases i
  {
    if i >= 0 {
      var k, next := BwdTurn(line, i, st);
      if next.Some? { BwdEnds(line, k, next.value); }
    }
  }

  /** The same, from the first bracket on: it takes the bottom of an empty stack. */
  lemma FwdEndsAt(line: string, i: nat, st: seq<char>)
    requires i <= |line|
    ensures var r := FwdAll(line, i, st); r.Found? ==> i < r.pos <= |line|
    ensures var b, r := Bottom(line, i, st), FwdAll(line, i, st); b.Some? && (st == [] ==> Open(b.value)) ==>
      && (r.Found? ==> Partner(b.value, line[r.pos - 1]))
      && (r.More? && (st != [] || i < |line|) ==> r.stack != [] && r.stack[0] == b.value)
    ensures var r := FwdAll(line, i, st); r.More? ==> GoesOn(line, st, r.stack)
  {
    FwdEnds(line, i, st);
    if st == [] && i < |line| && Open(line[i]) { FwdEnds(line, i + 1, [] + [line[i]]); }
  }

  lemma BwdEndsAt(line: string, i: int, st: seq<char>)
    requires -1 <= i < |line|
    ensures var r := BwdAll(line, i, st); r.Found? ==> 0 <= r.pos <= i
    ensures var b, r := Bottom(line, i, st), BwdAll(line, i, st); b.Some? && (st == [] ==> Close(b.value)) ==>
      && (r.Found? ==> Partner(line[r.pos], b.value))
      && (r.More? && (st != [] || i >= 0) ==> r.stack != [] && r.stack[0] == b.value)
    ensures var r := BwdAll(line, i, st); r.More? ==> GoesOn(line, st, r.stack)
  {
    BwdEnds(line, i, st);
    if st == [] && i >= 0 && Close(line[i]) { BwdEnds(line, i - 1, [] + [line[i]]); }
  }

  // ------------------------------------------------------- where the scans do guess

  /** From a template bracket the two scans need not agree: here the forward scan from '<' ends at the '>' of
      ">=", and the backward scan from that '>' finds nothing. */
  lemma GuessesDisagree()
    ensures var lines := ["a < b >= c"];
      CloseAll(lines, 0, 2) == Some((0, 7)) && OpenAll(lines, 0, 6) == None
  {
    var line := "a < b >= c";
    GuessForward(line);
    GuessBackward(line);
  }

  lemma GuessForward(line: string)
    requires line == "a < b >= c"
    ensures FwdAll(line, 2, []) == Found(7)
  {
    OperatorIs(line[..2]);
    OperatorIs(line[..5]);
    var st: seq<char> := ['<'];
    assert Last(st) == '<' && [] + ['<'] == st;
    assert FwdAll(line, 6, st) == Found(7);
    assert FwdAll(line, 4, st) == FwdAll(line, 5, st) && FwdAll(line, 3, st) == FwdAll(line, 4, st);
  }

  lemma GuessBackward(line: string)
    requires line == "a < b >= c"
    ensures BwdAll(line, 6, []) == More([])
  {
    assert SpacedAtLeast(line, 6) && BwdAll(line, 6, []) == BwdAll(line, 4, []);
    assert BwdAll(line, 4, []) == BwdAll(line, 3, []) && BwdAll(line, 3, []) == BwdAll(line, 2, []);
    assert BwdAll(line, 2, []) == BwdAll(line, 1, []) && BwdAll(line, 1, []) == BwdAll(line, 0, []);
  }

  // ------------------------------------------------------------------------ the loops

  lemma {:induction false} RealSame(st: seq<char>, angle: char)
    requires NoAngles(st) && Angle(angle)
    ensures Real(st, angle) == st
  {
    if st != [] {
      RealSame(Init(st), angle);
      assert st == Init(st) + [Last(st)];
    }
  }

  /** Template brackets still waiting for a partner turn out to be operators. */
  method PopAngles(stack: seq<char>, angle: char) returns (r: seq<char>)
    ensures r == Popped(stack, angle)
  {
    r := stack;
    while r != [] && r[|r| - 1] == angle
      invariant Popped(stack, angle) == Popped(r, angle)
    {
      r := r[..|r| - 1];
    }
  }

  /** On every line the loop decides as `FwdAll` does; an end is found only at the partner of the bottom bracket,
      which a carried stack keeps; and unless the bottom bracket is '<' the result is the exact scan's. */
  method FindEndOfExpressionInLine(line: string, startpos: nat, stack: seq<char>) returns (pos: int, out: Option<seq<char>>)
    requires startpos <= |line|
    ensures Reports(FwdAll(line, startpos, stack), pos, out) && (pos == -1 || startpos < pos <= |line|)
    ensures var b := Bottom(line, startpos, stack); b.Some? && (stack == [] ==> Open(b.value)) ==>
      && (pos >= 0 ==> Partner(b.value, line[pos - 1]))
      && (out.Some? && (stack != [] || startpos < |line|) ==> out.value != [] && out.value[0] == b.value)
    ensures FwdClean(line, startpos, stack) ==>
      ReportsReal(Shift(Fwd(line[startpos..], Real(stack, '<')), startpos), pos, out, '<')
    ensures NoAngles(line) && NoAngles(stack) && out.Some? ==> NoAngles(out.value)
  {
    FwdEndsAt(line, startpos, stack);
    if FwdClean(line, startpos, stack) { FwdGuessesDontMatter(line, startpos, stack); }
    var st := stack;
    for i := startpos to |line|
      invariant FwdAll(line, startpos, stack) == FwdAll(line, i, st)
    {
      var c := line[i];
      if Open(c) {
        st := st + [c];
      } else if c == '<' {
        if i > 0 && line[i - 1] == '<' {
          if st != [] && st[|st| - 1] == '<' {
            st := st[..|st| - 1];
            if st == [] { return -1, None; }
          }
        } else if i > 0 && EndsInOperator(line[..i]) {
        } else {
          st := st + ['<'];
        }
      } else if Close(c) {
        st := PopAngles(st, '<');
        if st == [] { return -1, None; }
        if Pair(st[|st| - 1], c) {
          st := st[..|st| - 1];
          if st == [] { return i + 1, None; }
        } else {
          return -1, None;
        }
      } else if c == '>' {
        if !(i > 0 && (line[i - 1] == '-' || EndsInOperator(line[..i - 1]))) && st != [] && st[|st| - 1] == '<' {
          st := st[..|st| - 1];
          if st == [] { return i + 1, None; }
        }
      } else if c == ';' {
        st := PopAngles(st, '<');
        if st == [] { return -1, None; }
      }
    }
    return -1, Some(st);
  }

  method FindStartOfExpressionInLine(line: string, endpos: int, stack: seq<char>) returns (pos: int, out: Option<seq<char>>)
    requires -1 <= endpos < |line|
    ensures Reports(BwdAll(line, endpos, stack), pos, out) && (pos == -1 || 0 <= pos <= endpos)
    ensures var b := Bottom(line, endpos, stack); b.Some? && (stack == [] ==> Close(b.value)) ==>
      && (pos >= 0 ==> Partner(line[pos], b.value))
      && (out.Some? && (stack != [] || endpos >= 0) ==> out.value != [] && out.value[0] == b.value)
    ensures BwdClean(line, endpos, stack) ==>
      ReportsReal(Bwd(line[..endpos + 1], Real(stack, '>')), pos, out, '>')
    ensures NoAngles(line) && NoAngles(stack) && out.Some? ==> NoAngles(out.value)
  {
    BwdEndsAt(line, endpos, stack);
    if BwdClean(line, endpos, stack) { BwdGuessesDontMatter(line, endpos, stack); }
    var st := stack;
    var i := endpos;
    while i >= 0
      invariant -1 <= i <= endpos
      invariant BwdAll(line, endpos, stack) == BwdAll(line, i, st)
    {
      var c := line[i];
      if Close(c) {
        st := st + [c];
      } else if c == '>' {
        if i > 0 && (line[i - 1] == '-' || SpacedAtLeast(line, i) || EndsInOperator(line[..i])) {
          i := i - 1;
        } else {
          st := st + ['>'];
        }
      } else if c == '<' {
        if i > 0 && line[i - 1] == '<' {
          i := i - 1;
        } else if st != [] && st[|st| - 1] == '>' {
          st := st[..|st| - 1];
          if st == [] { return i, None; }
        }
      } else if Open(c) {
        st := PopAngles(st, '>');
        if st == [] { return -1, None; }
        if Pair(c, st[|st| - 1]) {
          st := st[..|st| - 1];
          if st == [] { return i, None; }
        } else {
          return -1, None;
        }
      } else if c == ';' {
        st := PopAngles(st, '>');
        if st == [] { return -1, None; }
      }
      i := i - 1;
    }
    return -1, Some(st);
  }

  /** A position found, with its line, or the line number that stands for none and -1. */
  predicate Answers(r: Option<(nat, int)>, lines: seq<string>, none: nat, line: string, l: nat, p: int) {
    match r
    case Some(x) => l == x.0 < |lines| && line == lines[l] && p == x.1 >= 0
    case None => l == none && p == -1
  }

  /** On every text: the answer of `CloseAll`, which from a round, square or curly bracket is the exact scan's;
      the end is past a bracket of the same kind. */
  method CloseExpression(lines: seq<string>, linenum: nat, pos: nat) returns (line: string, l: nat, p: int)
    requires Position(lines, linenum, pos)
    ensures Answers(CloseAll(lines, linenum, pos), lines, |lines|, line, l, p)
    ensures lines[linenum][pos] != '<' ==> Answers(CloseAt(lines, linenum, pos), lines, |lines|, line, l, p)
    ensures p >= 0 ==> linenum <= l && 1 <= p <= |line|
    ensures p >= 0 ==> var rest := lines[linenum][pos..];
      Open(rest[0]) || (rest[0] == '<' && (|rest| == 1 || (rest[1] != '<' && rest[1] != '=')))
    ensures p >= 0 && Open(lines[linenum][pos]) ==> Pair(lines[linenum][pos], line[p - 1])
  {
    ghost var b := lines[linenum][pos];
    if b != '<' { CloseAllIsClose(lines, linenum, pos); }
    line := lines[linenum];
    var open := Open(line[pos]) || line[pos] == '<';
    if !open || (line[pos] == '<' && pos + 1 < |line| && (line[pos + 1] == '<' || line[pos + 1] == '=')) {
      return line, |lines|, -1;
    }
    var endPos, stack := FindEndOfExpressionInLine(line, pos, []);
    if endPos > -1 { return line, linenum, endPos; }
    l := linenum;
    while stack.Some? && stack.value != [] && l < |lines| - 1
      invariant linenum <= l < |lines|
      invariant Open(b) && stack.Some? ==> stack.value != [] && stack.value[0] == b
      invariant CloseAll(lines, linenum, pos) == if stack.None? then None else FwdLinesAll(lines, l + 1, stack.value)
      decreases |lines| - l
    {
      l := l + 1;
      line := lines[l];
      endPos, stack := FindEndOfExpressionInLine(line, 0, stack.value);
      if endPos > -1 { return line, l, endPos; }
    }
    return line, |lines|, -1;
  }

  method ReverseCloseExpression(lines: seq<string>, linenum: nat, pos: nat) returns (line: string, l: nat, p: int)
    requires Position(lines, linenum, pos)
    ensures Answers(OpenAll(lines, linenum, pos), lines, 0, line, l, p)
    ensures lines[linenum][pos] != '>' ==> Answers(OpenAt(lines, linenum, pos), lines, 0, line, l, p)
    ensures p >= 0 ==> l <= linenum && p < |line| && (Close(lines[linenum][pos]) || lines[linenum][pos] == '>')
    ensures p >= 0 && Close(lines[linenum][pos]) ==> Pair(line[p], lines[linenum][pos])
  {
    ghost var b := lines[linenum][pos];
    if b != '>' { OpenAllIsOpen(lines, linenum, pos); }
    line := lines[linenum];
    if !Close(line[pos]) && line[pos] != '>' { return line, 0, -1; }
    var startPos, stack := FindStartOfExpressionInLine(line, pos, []);
    if startPos > -1 { return line, linenum, startPos; }
    l := linenum;
    while stack.Some? && stack.value != [] && l > 0
      invariant l <= linenum
      invariant Close(b) && stack.Some? ==> stack.value != [] && stack.value[0] == b
      invariant OpenAll(lines, linenum, pos) == if stack.None? then None else BwdLinesAll(lines, l, stack.value)
      decreases l
    {
      l := l - 1;
      line := lines[l];
      startPos, stack := FindStartOfExpressionInLine(line, |line| - 1, stack.value);
      if startPos > -1 { return line, l, startPos; }
    }
    return line, 0, -1;
  }
}
