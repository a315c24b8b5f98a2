/** What the linter's guesses at template brackets are good for (paddle/scripts/cpplint.py): on text in which every
    '<' and '>' is a template bracket, an arrow, a shift or the name of an operator, well nested, both scans from a
    template bracket find its partner. */
module TemplateScans {
  import opened Common
  import opened Brackets
  import opened BracketScanners

  /** What a character is: `ShiftTail` the second of two '<', `Arrowhead` the '>' of "->", `LessName` and `GreaterName`
      the sign after the word "operator"; `Unclear` where the two scans would take it for different things. */
  datatype Role = Opener | Closer | Letter | Arrowhead | ShiftTail | LessName | GreaterName | End | Unclear

  function RoleAt(line: string, i: nat): Role
    requires i < |line|
  {
    var c := line[i];
    if Open(c) then Opener
    else if Close(c) then Closer
    else if c == ';' then End
    else if c == '<' then
      if i > 0 && line[i - 1] == '<' then ShiftTail
      else if i > 0 && EndsInOperator(line[..i]) then LessName
      else Opener
    else if c == '>' then
      if i > 0 && line[i - 1] == '-' then Arrowhead
      else if i > 0 && Space(line[i - 1]) && EndsInOperator(line[..i - 1]) then GreaterName
      else if SpacedAtLeast(line, i) || (i > 0 && (EndsInOperator(line[..i - 1]) || EndsInOperator(line[..i]))) then Unclear
      else Closer
    else Letter
  }

  /** Text with well-nested brackets of all four kinds; `Both` says where its parts meet. */
  datatype Tokens =
    | Empty | Other | Group(inner: Tokens) | Arrow | Shift | LessOperator | GreaterOperator
    | Both(left: Tokens, mid: nat, right: Tokens)

  /** The tokens stand in the line from position `i` up to `j`, given the roles of its characters. */
  predicate Stands(line: string, roles: seq<Role>, i: nat, j: nat, t: Tokens)
    requires |roles| == |line|
    decreases t
  {
    && i <= j <= |line|
    && match t
       case Empty => i == j
       case Other => j == i + 1 && roles[i].Letter?
       case Group(inner) =>
         i + 2 <= j && roles[i].Opener? && Stands(line, roles, i + 1, j - 1, inner) && roles[j - 1].Closer?
         && Partner(line[i], line[j - 1])
       case Arrow => j == i + 2 && roles[i].Letter? && roles[i + 1].Arrowhead?
       case Shift => j == i + 2 && roles[i].Opener? && line[i] == '<' && roles[i + 1].ShiftTail?
       case LessOperator => j == i + 1 && roles[i].LessName?
       case GreaterOperator => j == i + 2 && roles[i].Letter? && roles[i + 1].GreaterName?
       case Both(a, m, b) => Stands(line, roles, i, m, a) && Stands(line, roles, m, j, b)
  }

  /** No operator named "<" in it: the backward scan does not know such names. */
  predicate NoLessOperators(t: Tokens) {
    match t
    case Group(i) => NoLessOperators(i)
    case LessOperator => false
    case Both(a, _, b) => NoLessOperators(a) && NoLessOperators(b)
    case _ => true
  }

  function Roles(line: string): (r: seq<Role>)
    ensures |r| == |line| && forall i | 0 <= i < |line| :: r[i] == RoleAt(line, i)
  {
    seq(|line|, i requires 0 <= i < |line| => RoleAt(line, i))
  }

  // -------------------------------------------------------------------- the laws of a scan

  /** How a forward scan `f` treats the character at `i`, in each role, with `st` or `st + [o]` on the stack. */
  ghost predicate FwdLaw(f: (nat, seq<char>) -> Scan, line: string, roles: seq<Role>, i: nat, st: seq<char>, o: char)
    requires i < |line| == |roles|
  {
    var r, c := roles[i], line[i];
    && (r.Opener? ==> f(i, st) == f(i + 1, st + [c]))
    && (r.Closer? && Partner(o, c) ==> f(i, st + [o]) == if st == [] then Found(i + 1) else f(i + 1, st))
    && (st != [] && (r.Letter? || r.Arrowhead? || r.LessName? || r.GreaterName?) ==> f(i, st) == f(i + 1, st))
    && (st != [] && r.ShiftTail? ==> f(i, st + ['<']) == f(i + 1, st))
    && (r.End? || Close(c) ==> f(i, ['<']) == Broken)
  }

  ghost predicate FwdLaws(f: (nat, seq<char>) -> Scan, line: string, roles: seq<Role>)
    requires |roles| == |line|
  {
    forall i: nat, st, o | i < |line| :: FwdLaw(f, line, roles, i, st, o)
  }

  ghost predicate BwdLaw(f: (int, seq<char>) -> Scan, line: string, roles: seq<Role>, i: nat, st: seq<char>, o: char)
    requires i < |line| == |roles|
  {
    var r, c := roles[i], line[i];
    && (r.Closer? ==> f(i, st) == f(i - 1, st + [c]))
    && (r.Opener? && Partner(c, o) ==> f(i, st + [o]) == if st == [] then Found(i) else f(i - 1, st))
    && (r.Letter? ==> f(i, st) == f(i - 1, st))
    && (r.Arrowhead? || r.ShiftTail? || r.GreaterName? ==> f(i, st) == f(i - 2, st))
    && (r.End? || Open(c) ==> f(i, ['>']) == Broken)
  }

  ghost predicate BwdLaws(f: (int, seq<char>) -> Scan, line: string, roles: seq<Role>)
    requires |roles| == |line|
  {
    forall i: nat, st, o | i < |line| :: BwdLaw(f, line, roles, i, st, o)
  }

  lemma FwdPush(line: string, i: nat, st: seq<char>)
    requires i < |line| && RoleAt(line, i).Opener?
    ensures FwdAll(line, i, st) == FwdAll(line, i + 1, st + [line[i]])
  {}

  lemma FwdPop(line: string, i: nat, st: seq<char>, o: char)
    requires i < |line| && RoleAt(line, i).Closer? && Partner(o, line[i])
    ensures FwdAll(line, i, st + [o]) == if st == [] then Found(i + 1) else FwdAll(line, i + 1, st)
  {
    assert Last(st + [o]) == o && Init(st + [o]) == st;
  }

  lemma FwdSkip(line: string, i: nat, st: seq<char>)
    requires i < |line| && st != []
    ensures var r := RoleAt(line, i);
      r.Letter? || r.Arrowhead? || r.LessName? || r.GreaterName? ==> FwdAll(line, i, st) == FwdAll(line, i + 1, st)
  {}

  lemma FwdShift(line: string, i: nat, st: seq<char>)
    requires i < |line| && st != [] && RoleAt(line, i).ShiftTail?
    ensures FwdAll(line, i, st + ['<']) == FwdAll(line, i + 1, st)
  {
    assert Last(st + ['<']) == '<' && Init(st + ['<']) == st;
  }

  lemma FwdStops(line: string, i: nat)
    requires i < |line| && (line[i] == ';' || Close(line[i]))
    ensures FwdAll(line, i, ['<']) == Broken
  {
    assert Last(['<']) == '<' && Init(['<']) == [] && Popped(['<'], '<') == Popped([], '<');
  }

  function Forward(line: string): (nat, seq<char>) -> Scan { (i: nat, st) => FwdAll(line, i, st) }

  lemma FwdObeys(line: string)
    ensures FwdLaws(Forward(line), line, Roles(line))
  {
    forall i: nat, st, o | i < |line| ensures FwdLaw(Forward(line), line, Roles(line), i, st, o) {
      if RoleAt(line, i).Opener? { FwdPush(line, i, st); }
      if RoleAt(line, i).Closer? && Partner(o, line[i]) { FwdPop(line, i, st, o); }
      if st != [] { FwdSkip(line, i, st); }
      if st != [] && RoleAt(line, i).ShiftTail? { FwdShift(line, i, st); }
      if RoleAt(line, i).End? || Close(line[i]) { FwdStops(line, i); }
    }
  }

  lemma BwdPush(line: string, i: nat, st: seq<char>)
    requires i < |line| && RoleAt(line, i).Closer?
    ensures BwdAll(line, i, st) == BwdAll(line, i - 1, st + [line[i]])
  {}

  lemma BwdPop(line: string, i: nat, st: seq<char>, c: char)
    requires i < |line| && RoleAt(line, i).Opener? && Partner(line[i], c)
    ensures BwdAll(line, i, st + [c]) == if st == [] then Found(i) else BwdAll(line, i - 1, st)
  {
    assert Last(st + [c]) == c && Init(st + [c]) == st;
  }

  lemma BwdSkip(line: string, i: nat, st: seq<char>)
    requires i < |line|
    ensures RoleAt(line, i).Letter? ==> BwdAll(line, i, st) == BwdAll(line, i - 1, st)
    ensures var r := RoleAt(line, i); r.Arrowhead? || r.ShiftTail? || r.GreaterName? ==>
      i > 0 && BwdAll(line, i, st) == BwdAll(line, i - 2, st)
  {
    if RoleAt(line, i).GreaterName? { assert line[..i][..i - 1] == line[..i - 1]; }
  }

  lemma BwdStops(line: string, i: nat)
    requires i < |line| && (line[i] == ';' || Open(line[i]))
    ensures BwdAll(line, i, ['>']) == Broken
  {
    assert Last(['>']) == '>' && Init(['>']) == [] && Popped(['>'], '>') == Popped([], '>');
  }

  function Backward(line: string): (int, seq<char>) -> Scan {
    (i: int, st) => if i < |line| then BwdAll(line, i, st) else Broken
  }

  lemma BwdObeys(line: string)
    ensures BwdLaws(Backward(line), line, Roles(line))
  {
    forall i: nat, st, o | i < |line| ensures BwdLaw(Backward(line), line, Roles(line), i, st, o) {
      if RoleAt(line, i).Closer? { BwdPush(line, i, st); }
      if RoleAt(line, i).Opener? && Partner(line[i], o) { BwdPop(line, i, st, o); }
      BwdSkip(line, i, st);
      if RoleAt(line, i).End? || Open(line[i]) { BwdStops(line, i); }
    }
  }

  // -------------------------------------------------------------------- scans pass over tokens

  lemma {:induction false} FwdOver(f: (nat, seq<char>) -> Scan, line: string, roles: seq<Role>, i: nat, j: nat, t: Tokens,
                                   st: seq<char>)
    requires |roles| == |line| && FwdLaws(f, line, roles) && Stands(line, roles, i, j, t) && st != []
    ensures f(i, st) == f(j, st)
    decreases t
  {
    if i < j { assert FwdLaw(f, line, roles, i, st, '<'); }
    match t
    case Group(inner) =>
      FwdOver(f, line, roles, i + 1, j - 1, inner, st + [line[i]]);
      assert FwdLaw(f, line, roles, j - 1, st, line[i]);
    case Shift => assert FwdLaw(f, line, roles, j - 1, st, '<');
    case Arrow => assert FwdLaw(f, line, roles, j - 1, st, '<');
    case GreaterOperator => assert FwdLaw(f, line, roles, j - 1, st, '<');
    case Both(a, m, b) =>
      FwdOver(f, line, roles, i, m, a, st);
      FwdOver(f, line, roles, m, j, b, st);
    case _ =>
  }

  lemma {:induction false} BwdOver(f: (int, seq<char>) -> Scan, line: string, roles: seq<Role>, i: nat, j: nat, t: Tokens,
                                   st: seq<char>)
    requires |roles| == |line| && BwdLaws(f, line, roles) && Stands(line, roles, i, j, t) && NoLessOperators(t) && st != []
    ensures f(j - 1, st) == f(i - 1, st)
    decreases t
  {
    if i < j { assert BwdLaw(f, line, roles, j - 1, st, '>'); }
    match t
    case Group(inner) =>
      BwdOver(f, line, roles, i + 1, j - 1, inner, st + [line[j - 1]]);
      assert BwdLaw(f, line, roles, i, st, line[j - 1]);
    case Both(a, m, b) =>
      BwdOver(f, line, roles, m, j, b, st);
      BwdOver(f, line, roles, i, m, a, st);
    case _ =>
  }

  // -------------------------------------------------------------------- main results

  lemma FwdFinds(f: (nat, seq<char>) -> Scan, line: string, roles: seq<Role>, i: nat, inner: Tokens, q: nat)
    requires |roles| == |line| && FwdLaws(f, line, roles) && i < q < |line|
    requires line[i] == '<' && roles[i].Opener? && Stands(line, roles, i + 1, q, inner)
    ensures line[q] == '>' && roles[q].Closer? ==> f(i, []) == Found(q + 1)
    ensures roles[q].End? || Close(line[q]) ==> f(i, []) == Broken
  {
    assert [] + ['<'] == ['<'];
    assert FwdLaw(f, line, roles, i, [], '<');
    FwdOver(f, line, roles, i + 1, q, inner, ['<']);
    assert FwdLaw(f, line, roles, q, [], '<');
  }

  lemma BwdFinds(f: (int, seq<char>) -> Scan, line: string, roles: seq<Role>, i: nat, inner: Tokens, q: nat)
    requires |roles| == |line| && BwdLaws(f, line, roles) && i < q < |line|
    requires line[q] == '>' && roles[q].Closer? && Stands(line, roles, i + 1, q, inner) && NoLessOperators(inner)
    ensures line[i] == '<' && roles[i].Opener? ==> f(q, []) == Found(i)
    ensures roles[i].End? || Open(line[i]) ==> f(q, []) == Broken
  {
    assert [] + ['>'] == ['>'];
    assert BwdLaw(f, line, roles, q, [], '>');
    BwdOver(f, line, roles, i + 1, q, inner, ['>']);
    assert BwdLaw(f, line, roles, i, [], '>');
  }

  /** From a template bracket the forward scan finds the '>' that closes it, and finds nothing if a statement ends
      or an outer bracket closes first. */
  lemma TemplateCloses(line: string, i: nat, inner: Tokens, q: nat)
    requires i < q < |line| && Stands(line, Roles(line), i + 1, q, inner)
    requires line[i] == '<' && RoleAt(line, i).Opener?
    ensures line[q] == '>' && RoleAt(line, q).Closer? ==> FwdAll(line, i, []) == Found(q + 1)
    ensures line[q] == ';' || Close(line[q]) ==> FwdAll(line, i, []) == Broken
  {
    FwdObeys(line);
    FwdFinds(Forward(line), line, Roles(line), i, inner, q);
    assert Forward(line)(i, []) == FwdAll(line, i, []);
  }

  /** And backward from the '>', the '<' that opens it. */
  lemma TemplateOpens(line: string, i: nat, inner: Tokens, q: nat)
    requires i < q < |line| && Stands(line, Roles(line), i + 1, q, inner) && NoLessOperators(inner)
    requires line[q] == '>' && RoleAt(line, q).Closer?
    ensures line[i] == '<' && RoleAt(line, i).Opener? ==> BwdAll(line, q, []) == Found(i)
    ensures line[i] == ';' || Open(line[i]) ==> BwdAll(line, q, []) == Broken
  {
    BwdObeys(line);
    BwdFinds(Backward(line), line, Roles(line), i, inner, q);
    assert Backward(line)(q, []) == BwdAll(line, q, []);
  }

  /** So on a template argument list in one line the two scans agree. */
  lemma TemplateScansAgree(lines: seq<string>, l: nat, i: nat, inner: Tokens, q: nat)
    requires Position(lines, l, i) && i < q < |lines[l]|
    requires Stands(lines[l], Roles(lines[l]), i + 1, q, inner) && NoLessOperators(inner)
    requires lines[l][i] == '<' && RoleAt(lines[l], i).Opener? && lines[l][i + 1] != '<' && lines[l][i + 1] != '='
    requires lines[l][q] == '>' && RoleAt(lines[l], q).Closer?
    ensures CloseAll(lines, l, i) == Some((l, q + 1)) && OpenAll(lines, l, q) == Some((l, i))
  {
    var line := lines[l];
    assert FwdAll(line, i, []) == Found(q + 1) by { TemplateCloses(line, i, inner, q); }
    assert BwdAll(line, q, []) == Found(i) by { TemplateOpens(line, i, inner, q); }
    assert CloseAll(lines, l, i) == Some((l, q + 1));
    assert OpenAll(lines, l, q) == Some((l, i));
  }
}
