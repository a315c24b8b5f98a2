/** How the linter's nesting state follows preprocessor conditionals (paddle/scripts/cpplint.py,
    NestingState.UpdatePreprocessor): only the first branch of a conditional may change the nesting
    stack for good. What a line's own braces do to the stack is an arbitrary function `upd`. */
module Preprocessor {

  datatype Directive = If | Else | EndIf | Other

  datatype Line = Line(kind: Directive, text: string)

  datatype Info<S> = Info(beforeIf: seq<S>, beforeElse: seq<S>, seenElse: bool)

  datatype State<S> = State(stack: seq<S>, pp: seq<Info<S>>)

  function Preprocess<S>(st: State<S>, kind: Directive): State<S> {
    var n := |st.pp| - 1;
    match kind
    case If => st.(pp := st.pp + [Info(st.stack, [], false)])
    case Else =>
      if st.pp == [] then st
      else
        var top := if st.pp[n].seenElse then st.pp[n] else st.pp[n].(seenElse := true, beforeElse := st.stack);
        State(top.beforeIf, st.pp[n := top])
    case EndIf =>
      if st.pp == [] then st
      else State(if st.pp[n].seenElse then st.pp[n].beforeElse else st.stack, st.pp[..n])
    case Other => st
  }

  /** Update first follows the directive, then lets the line change the stack. */
  function Step<S>(upd: (Line, seq<S>) -> seq<S>, st: State<S>, l: Line): State<S> {
    var st' := Preprocess(st, l.kind);
    st'.(stack := upd(l, st'.stack))
  }

  function Run<S>(upd: (Line, seq<S>) -> seq<S>, st: State<S>, ls: seq<Line>): State<S>
    decreases |ls|
  {
    if ls == [] then st else Run(upd, Step(upd, st, ls[0]), ls[1..])
  }

  /** The object that the linter updates line by line. */
  class NestingState<S> {
    var stack: seq<S>
    var ppStack: seq<Info<S>>

    ghost function View(): State<S>
      reads this
    {
      State(stack, ppStack)
    }

    constructor ()
      ensures View() == State([], [])
    {
      stack := [];
      ppStack := [];
    }

    method UpdatePreprocessor(kind: Directive)
      modifies this
      ensures View() == Preprocess(old(View()), kind)
      ensures kind == If ==> stack == old(stack) && ppStack == old(ppStack) + [Info(old(stack), [], false)]
      ensures kind == Other || (kind != If && old(ppStack) == []) ==> stack == old(stack) && ppStack == old(ppStack)
      ensures kind == Else && old(ppStack) != [] ==>
        var n, top := |old(ppStack)| - 1, old(ppStack)[|old(ppStack)| - 1];
        && stack == top.beforeIf
        && ppStack == old(ppStack)[n := if top.seenElse then top else Info(top.beforeIf, old(stack), true)]
      ensures kind == EndIf && old(ppStack) != [] ==>
        var n, top := |old(ppStack)| - 1, old(ppStack)[|old(ppStack)| - 1];
        stack == (if top.seenElse then top.beforeElse else old(stack)) && ppStack == old(ppStack)[..n]
    {
      if kind == If {
        ppStack := ppStack + [Info(stack, [], false)];
      } else if kind == Else {
        if |ppStack| > 0 {
          var top := ppStack[|ppStack| - 1];
          if !top.seenElse {
            top := top.(seenElse := true);
            top := top.(beforeElse := stack);
            ppStack := ppStack[|ppStack| - 1 := top];
          }
          stack := ppStack[|ppStack| - 1].beforeIf;
        }
      } else if kind == EndIf {
        if |ppStack| > 0 {
          if ppStack[|ppStack| - 1].seenElse { stack := ppStack[|ppStack| - 1].beforeElse; }
          ppStack := ppStack[..|ppStack| - 1];
        }
      }
    }

    method Update(upd: (Line, seq<S>) -> seq<S>, ls: seq<Line>)
      modifies this
      ensures View() == Run(upd, old(View()), ls)
    {
      for i := 0 to |ls|
        invariant Run(upd, old(View()), ls) == Run(upd, View(), ls[i..])
      {
        assert ls[i..][1..] == ls[i + 1..];
        UpdatePreprocessor(ls[i].kind);
        stack := upd(ls[i], stack);
      }
    }
  }

  // ------------------------------------------------------------- well-nested texts

  datatype Items = Nil | Cons(head: Item, tail: Items)

  datatype Item = Text(l: Line) | Group(ifLine: Line, first: Items, rest: Branches, endLine: Line)

  /** The #else and #elif branches of a conditional. */
  datatype Branches = NoMore | Branch(elseLine: Line, body: Items, next: Branches)

  predicate NestedItems(t: Items) { t.Cons? ==> NestedItem(t.head) && NestedItems(t.tail) }

  predicate NestedItem(t: Item) {
    match t
    case Text(l) => l.kind.Other?
    case Group(i, f, r, e) => i.kind.If? && NestedItems(f) && NestedBranches(r) && e.kind.EndIf?
  }

  predicate NestedBranches(t: Branches) {
    t.Branch? ==> t.elseLine.kind.Else? && NestedItems(t.body) && NestedBranches(t.next)
  }

  function Lines(t: Items): seq<Line> { if t.Nil? then [] else ItemLines(t.head) + Lines(t.tail) }

  function ItemLines(t: Item): seq<Line> {
    match t
    case Text(l) => [l]
    case Group(i, f, r, e) => [i] + Lines(f) + BranchLines(r) + [e]
  }

  function BranchLines(t: Branches): seq<Line> {
    if t.NoMore? then [] else [t.elseLine] + Lines(t.body) + BranchLines(t.next)
  }

  /** The text with every branch but the first deleted, at all depths. */
  function FirstOnly(t: Items): Items { if t.Nil? then Nil else Cons(FirstOnlyItem(t.head), FirstOnly(t.tail)) }

  function FirstOnlyItem(t: Item): Item {
    match t
    case Text(l) => t
    case Group(i, f, r, e) => Group(i, FirstOnly(f), NoMore, e)
  }

  lemma {:induction false} RunConcat<S>(upd: (Line, seq<S>) -> seq<S>, st: State<S>, a: seq<Line>, b: seq<Line>)
    ensures Run(upd, st, a + b) == Run(upd, Run(upd, st, a), b)
    decreases |a|
  {
    if a == [] {
      assert a + b == b;
    } else {
      assert (a + b)[1..] == a[1..] + b;
      RunConcat(upd, Step(upd, st, a[0]), a[1..], b);
    }
  }

  lemma RunOne<S>(upd: (Line, seq<S>) -> seq<S>, st: State<S>, l: Line)
    ensures Run(upd, st, [l]) == Step(upd, st, l)
  {
    assert [l][1..] == [];
  }

  /** The nesting stack when every line simply changes it in turn and directives mean nothing. */
  function Fold<S>(upd: (Line, seq<S>) -> seq<S>, s: seq<S>, ls: seq<Line>): seq<S>
    decreases |ls|
  {
    if ls == [] then s else Fold(upd, upd(ls[0], s), ls[1..])
  }

  lemma {:induction false} FoldConcat<S>(upd: (Line, seq<S>) -> seq<S>, s: seq<S>, a: seq<Line>, b: seq<Line>)
    ensures Fold(upd, s, a + b) == Fold(upd, Fold(upd, s, a), b)
    decreases |a|
  {
    if a == [] {
      assert a + b == b;
    } else {
      assert (a + b)[1..] == a[1..] + b;
      FoldConcat(upd, upd(a[0], s), a[1..], b);
    }
  }

  lemma FoldOne<S>(upd: (Line, seq<S>) -> seq<S>, s: seq<S>, l: Line)
    ensures Fold(upd, s, [l]) == upd(l, s)
  {
    assert [l][1..] == [];
  }

  /** For every well-nested text, from every state: the nesting stack afterwards is the one obtained by
      deleting every branch but the first, at all depths, and letting the remaining lines change the stack
      in turn; and the stack of conditionals is as before. */
  lemma {:induction false} OnlyFirstBranchCounts<S>(upd: (Line, seq<S>) -> seq<S>, t: Items, s: seq<S>, pp: seq<Info<S>>)
    requires NestedItems(t)
    ensures Run(upd, State(s, pp), Lines(t)) == State(Fold(upd, s, Lines(FirstOnly(t))), pp)
    decreases t
  {
    if t.Cons? {
      RunConcat(upd, State(s, pp), ItemLines(t.head), Lines(t.tail));
      FoldConcat(upd, s, ItemLines(FirstOnlyItem(t.head)), Lines(FirstOnly(t.tail)));
      ItemKeeps(upd, t.head, s, pp);
      OnlyFirstBranchCounts(upd, t.tail, Fold(upd, s, ItemLines(FirstOnlyItem(t.head))), pp);
    }
  }

  lemma {:induction false} ItemKeeps<S>(upd: (Line, seq<S>) -> seq<S>, t: Item, s: seq<S>, pp: seq<Info<S>>)
    requires NestedItem(t)
    ensures Run(upd, State(s, pp), ItemLines(t)) == State(Fold(upd, s, ItemLines(FirstOnlyItem(t))), pp)
    decreases t
  {
    match t
    case Text(l) =>
      RunOne(upd, State(s, pp), l);
      FoldOne(upd, s, l);
    case Group(i, f, r, e) =>
      var pp1, s1 := pp + [Info(s, [], false)], upd(i, s);
      OnlyFirstBranchCounts(upd, f, s1, pp1);
      var s2 := Fold(upd, s1, Lines(FirstOnly(f)));
      GroupRun(upd, i, f, r, e, s, pp, s2);
      if r.Branch? { BranchesLeave(upd, r, s, s2, s2, pp, false); }
      GroupFold(upd, i, Lines(FirstOnly(f)), e, s);
  }

  lemma GroupFold<S>(upd: (Line, seq<S>) -> seq<S>, i: Line, body: seq<Line>, e: Line, s: seq<S>)
    ensures Fold(upd, s, [i] + body + [] + [e]) == upd(e, Fold(upd, upd(i, s), body))
  {
    assert [i] + body + [] == [i] + body;
    FoldConcat(upd, s, [i] + body, [e]);
    FoldConcat(upd, s, [i], body);
    FoldOne(upd, s, i);
    FoldOne(upd, Fold(upd, upd(i, s), body), e);
  }

  /** A conditional runs its first branch, then its other branches, then its #endif line. */
  lemma GroupRun<S>(upd: (Line, seq<S>) -> seq<S>, i: Line, f: Items, r: Branches, e: Line,
                    s: seq<S>, pp: seq<Info<S>>, s2: seq<S>)
    requires i.kind.If? && e.kind.EndIf?
    requires Run(upd, State(upd(i, s), pp + [Info(s, [], false)]), Lines(f)) == State(s2, pp + [Info(s, [], false)])
    ensures Run(upd, State(s, pp), ItemLines(Group(i, f, r, e)))
         == Step(upd, Run(upd, State(s2, pp + [Info(s, [], false)]), BranchLines(r)), e)
  {
    var st := State(s, pp);
    RunConcat(upd, st, [i] + Lines(f) + BranchLines(r), [e]);
    RunConcat(upd, st, [i] + Lines(f), BranchLines(r));
    RunConcat(upd, st, [i], Lines(f));
    RunOne(upd, st, i);
    RunOne(upd, Run(upd, st, [i] + Lines(f) + BranchLines(r)), e);
  }

  /** Whatever the other branches do to the stack, the conditional remembers the stack before its first
      #else and gives it back. */
  lemma {:induction false} BranchesLeave<S>(upd: (Line, seq<S>) -> seq<S>, t: Branches, before: seq<S>, saved: seq<S>,
                                           s: seq<S>, pp: seq<Info<S>>, seen: bool)
    requires NestedBranches(t) && (!seen ==> t.Branch? && s == saved)
    ensures var top := if seen then Info(before, saved, true) else Info(before, [], false);
      Run(upd, State(s, pp + [top]), BranchLines(t)).pp == pp + [Info(before, saved, true)]
    decreases t
  {
    if t.Branch? {
      var top := if seen then Info(before, saved, true) else Info(before, [], false);
      var st := State(s, pp + [top]);
      RunConcat(upd, st, [t.elseLine] + Lines(t.body), BranchLines(t.next));
      RunConcat(upd, st, [t.elseLine], Lines(t.body));
      RunOne(upd, st, t.elseLine);
      var pp' := pp + [Info(before, saved, true)];
      assert (pp + [top])[|pp| := Info(before, saved, true)] == pp';
      var s1 := upd(t.elseLine, before);
      OnlyFirstBranchCounts(upd, t.body, s1, pp');
      BranchesLeave(upd, t.next, before, saved, Run(upd, State(s1, pp'), Lines(t.body)).stack, pp, true);
    }
  }

  /** Inside a conditional entered with stack `s`: after its first lines up to any point between the items of the
      first branch, the stack is that of these lines alone. */
  lemma FirstBranchStack<S>(upd: (Line, seq<S>) -> seq<S>, i: Line, body: Items, s: seq<S>, pp: seq<Info<S>>)
    requires i.kind.If? && NestedItems(body)
    ensures Run(upd, State(s, pp), [i] + Lines(body))
         == State(Fold(upd, s, [i] + Lines(FirstOnly(body))), pp + [Info(s, [], false)])
  {
    RunConcat(upd, State(s, pp), [i], Lines(body));
    RunOne(upd, State(s, pp), i);
    FoldConcat(upd, s, [i], Lines(FirstOnly(body)));
    FoldOne(upd, s, i);
    OnlyFirstBranchCounts(upd, body, upd(i, s), pp + [Info(s, [], false)]);
  }

  /** And in every later branch, after its #else or #elif line and any point between its items, the stack is as if
      this branch had been entered from before the #if, whatever the earlier branches did; the conditional keeps
      the stack that the first branch left. */
  lemma LaterBranchStack<S>(upd: (Line, seq<S>) -> seq<S>, i: Line, first: Items, earlier: Branches, e: Line, body: Items,
                            s: seq<S>, pp: seq<Info<S>>)
    requires i.kind.If? && NestedItems(first) && NestedBranches(earlier) && e.kind.Else? && NestedItems(body)
    ensures Run(upd, State(s, pp), [i] + Lines(first) + BranchLines(earlier) + ([e] + Lines(body)))
         == State(Fold(upd, s, [e] + Lines(FirstOnly(body))),
                  pp + [Info(s, Fold(upd, s, [i] + Lines(FirstOnly(first))), true)])
  {
    var saved := Fold(upd, s, [i] + Lines(FirstOnly(first)));
    var st := State(s, pp);
    var before := Run(upd, st, [i] + Lines(first) + BranchLines(earlier));
    FirstBranchStack(upd, i, first, s, pp);
    RunConcat(upd, st, [i] + Lines(first), BranchLines(earlier));
    RunConcat(upd, st, [i] + Lines(first) + BranchLines(earlier), [e] + Lines(body));
    var top := if earlier.Branch? then Info(s, saved, true) else Info(s, [], false);
    assert before.pp == pp + [top] && (earlier.NoMore? ==> before.stack == saved) by {
      if earlier.Branch? { BranchesLeave(upd, earlier, s, saved, saved, pp, false); }
    }
    BranchStart(upd, before.stack, pp, top, saved, e, body);
  }

  lemma BranchStart<S>(upd: (Line, seq<S>) -> seq<S>, now: seq<S>, pp: seq<Info<S>>, top: Info<S>, saved: seq<S>, e: Line, body: Items)
    requires e.kind.Else? && NestedItems(body) && (if top.seenElse then top.beforeElse == saved else now == saved)
    ensures Run(upd, State(now, pp + [top]), [e] + Lines(body))
         == State(Fold(upd, top.beforeIf, [e] + Lines(FirstOnly(body))), pp + [Info(top.beforeIf, saved, true)])
  {
    var st, pp' := State(now, pp + [top]), pp + [Info(top.beforeIf, saved, true)];
    assert (pp + [top])[|pp| := Info(top.beforeIf, saved, true)] == pp';
    RunConcat(upd, st, [e], Lines(body));
    RunOne(upd, st, e);
    FoldConcat(upd, top.beforeIf, [e], Lines(FirstOnly(body)));
    FoldOne(upd, top.beforeIf, e);
    OnlyFirstBranchCounts(upd, body, upd(e, top.beforeIf), pp');
  }
}
