/** The float16 pass as it runs: an object that rewrites the block's op list, variables, scope
    and input map in place (paddle/contrib/float16/float16_transpiler.py). */
module TranspilerPass {
  import opened Common
  import opened Transpiler

  function InputMap(s: set<string>): map<string, string> { map n | n in s :: Half(n) }

  /** `vars'` is `vars` with a float16 variable for every name in `s`. */
  ghost predicate HalvesAdded(vars: map<string, Var>, s: set<string>, vars': map<string, Var>) {
    && s <= vars.Keys && vars'.Keys == vars.Keys + Halves(s)
    && (forall n | n in vars && n !in Halves(s) :: vars'[n] == vars[n])
    && (forall x | x in s :: vars'[Half(x)] == vars[x].(half := true))
  }

  // --------------------------------------------- the cast-inserting loop, step by step

  function Partial(b: Block, k: nat): seq<Op>
    requires k <= |b.ops|
  {
    Images(b.ops[..k], FetchTargets(b.ops[..k]), {})
  }

  lemma TargetsNext(ops: seq<Op>, k: nat)
    requires k < |ops|
    ensures FetchTargets(ops[..k + 1])
         == FetchTargets(ops[..k]) + if ops[k].kind.Fetch? && ops[k].inputs != [] then {ops[k].inputs[0]} else {}
    ensures FeedTargets(ops[..k + 1])
         == FeedTargets(ops[..k]) + if ops[k].kind.Feed? && ops[k].outputs != [] then {ops[k].outputs[0]} else {}
  {
    assert ops[..k + 1] == ops[..k] + [ops[k]];
    assert forall op :: op in ops[..k + 1] <==> op in ops[..k] || op == ops[k];
  }

  lemma FetchBefore(b: Block, k: nat, y: string) returns (i: nat, w: nat)
    requires Ready(b) && k <= |b.ops| && y in FetchTargets(b.ops[..k])
    ensures i < k && b.ops[i].kind.Fetch? && b.ops[i].inputs == [y] && GoodFetch(b, i, w)
  {
    var op :| op in b.ops[..k] && op.kind.Fetch? && op.inputs != [] && op.inputs[0] == y;
    i :| 0 <= i < k && b.ops[..k][i] == op;
    assert Plain(b.ops[i]);
    w :| GoodFetch(b, i, w);
  }

  lemma RenameNone(ns: seq<string>, s: set<string>)
    requires forall n | n in ns :: n !in s
    ensures RenameAll(ns, s) == ns
  {
    forall i | 0 <= i < |ns| ensures RenameAll(ns, s)[i] == ns[i] { assert ns[i] in ns; }
  }

  /** The op at `k` is untouched when the loop reaches it. */
  lemma Untouched(b: Block, k: nat)
    requires Ready(b) && k < |b.ops|
    ensures RenameIn(RenameOut(b.ops[k], FetchTargets(b.ops[..k + 1])), {}) == b.ops[k]
  {
    var fs, op := FetchTargets(b.ops[..k + 1]), b.ops[k];
    forall y | y in op.outputs ensures y !in fs {
      if y in fs { var _, _ := FetchBefore(b, k + 1, y); }
    }
    RenameNone(op.outputs, fs);
    RenameNone(op.inputs, {});
  }

  lemma PartialNext(b: Block, k: nat)
    requires Ready(b) && k < |b.ops| && !b.ops[k].kind.Fetch?
    ensures Partial(b, k + 1)
         == Partial(b, k) + if b.ops[k].kind.Feed? then [b.ops[k], CastIn(b.ops[k].outputs[0])] else [b.ops[k]]
  {
    assert Plain(b.ops[k]);
    TargetsNext(b.ops, k);
    assert FetchTargets(b.ops[..k + 1]) == FetchTargets(b.ops[..k]);
    Untouched(b, k);
    assert b.ops[..k + 1][..k] == b.ops[..k];
  }

  lemma ImageSkip(op: Op, fs: set<string>, x: string)
    requires Plain(op) && !IsHalf(x) && x !in op.outputs && x !in op.inputs
    ensures Image(op, fs + {x}, {}) == Image(op, fs, {})
    ensures forall c | c in Image(op, fs, {}) :: x !in c.outputs
  {
    assert RenameAll(op.outputs, fs + {x}) == RenameAll(op.outputs, fs);
    RenamedMiss(op.outputs, fs, x);
    forall c | c in Image(op, fs, {}) ensures x !in c.outputs {
      if op.kind.Feed? { HalfProps(op.outputs[0]); }
      if op.kind.Fetch? { assert op.inputs[0] in op.inputs; }
    }
  }

  lemma {:induction false} ImagesSkip(ops: seq<Op>, fs: set<string>, x: string)
    requires !IsHalf(x) && forall j | 0 <= j < |ops| :: Plain(ops[j]) && x !in ops[j].outputs && x !in ops[j].inputs
    ensures Images(ops, fs + {x}, {}) == Images(ops, fs, {})
    ensures forall op | op in Images(ops, fs, {}) :: x !in op.outputs
  {
    if ops != [] {
      ImagesSkip(ops[..|ops| - 1], fs, x);
      ImageSkip(ops[|ops| - 1], fs, x);
    }
  }

  lemma RenameTwice(ns: seq<string>, s: set<string>, x: string)
    requires x !in s && forall n | n in ns :: !IsHalf(n)
    requires !IsHalf(x)
    ensures RenameAll(RenameAll(ns, s), {x}) == RenameAll(ns, s + {x})
  {
    forall i | 0 <= i < |ns| ensures RenameAll(RenameAll(ns, s), {x})[i] == RenameAll(ns, s + {x})[i] {
      assert ns[i] in ns;
      HalfProps(ns[i]);
    }
  }

  /** At a fetch of `x`, the first op of the list that writes `x` is the image of its writer, and
      renaming its output is all that separates the list from one that also renames `x`. */
  lemma FetchRename(b: Block, k: nat, w: nat) returns (pos: nat)
    requires Ready(b) && k < |b.ops| && b.ops[k].kind.Fetch? && |b.ops[k].inputs| == 1 && GoodFetch(b, k, w)
    ensures var x, cur := b.ops[k].inputs[0], Partial(b, k) + b.ops[k..];
      && pos < |Partial(b, k)| && x in cur[pos].outputs && (forall j | 0 <= j < pos :: x !in cur[j].outputs)
      && cur[pos := RenameOut(cur[pos], {x})]
         == Images(b.ops[..k], FetchTargets(b.ops[..k]) + {x}, {}) + b.ops[k..]
  {
    var x, fs := b.ops[k].inputs[0], FetchTargets(b.ops[..k]);
    assert Plain(b.ops[k]) && x in b.ops[k].inputs && Plain(b.ops[w]);
    if x in fs { var _, _ := FetchBefore(b, k, x); }
    var A, C, o := Images(b.ops[0..w], fs, {}), Images(b.ops[w + 1..k], fs, {}), RenameOut(b.ops[w], fs);
    ImagesSkip(b.ops[0..w], fs, x);
    ImagesSkip(b.ops[w + 1..k], fs, x);
    assert Partial(b, k) == A + [o] + C
        && Images(b.ops[..k], fs + {x}, {}) == A + [RenameOut(o, {x})] + C by {
      SplitImages(b, w, k, fs);
      SplitImages(b, w, k, fs + {x});
      RenameTwice(b.ops[w].outputs, fs, x);
      RenameNone(b.ops[w].inputs, {});
    }
    RenameKeeps(b.ops[w].outputs, fs, x);
    pos := |A|;
    FirstWriter(A, o, C, b.ops[k..], x);
  }

  lemma RenameKeeps(ns: seq<string>, s: set<string>, x: string)
    requires x in ns && x !in s
    ensures x in RenameAll(ns, s)
  {
    var at :| 0 <= at < |ns| && ns[at] == x;
    assert RenameAll(ns, s)[at] == x;
  }

  lemma FirstWriter(A: seq<Op>, o: Op, C: seq<Op>, rest: seq<Op>, x: string)
    requires x in o.outputs && forall op | op in A :: x !in op.outputs
    ensures var cur := A + [o] + C + rest;
      && cur[|A|] == o && (forall j | 0 <= j < |A| :: x !in cur[j].outputs)
      && cur[|A| := RenameOut(o, {x})] == A + [RenameOut(o, {x})] + C + rest
  {
    var cur := A + [o] + C + rest;
    forall j | 0 <= j < |A| ensures x !in cur[j].outputs { assert cur[j] == A[j] && A[j] in A; }
  }

  lemma SplitImages(b: Block, w: nat, k: nat, fs: set<string>)
    requires w < k <= |b.ops| && Computing(b.ops[w])
    ensures Images(b.ops[..k], fs, {})
         == Images(b.ops[0..w], fs, {}) + [RenameIn(RenameOut(b.ops[w], fs), {})] + Images(b.ops[w + 1..k], fs, {})
  {
    var a, m, c := b.ops[0..w], [b.ops[w]], b.ops[w + 1..k];
    assert b.ops[..k] == (a + m) + c;
    ImagesConcat(a + m, c, fs, {});
    ImagesConcat(a, m, fs, {});
    assert m[..0] == [] && Images([], fs, {}) == [];
  }

  lemma FetchNext(b: Block, k: nat)
    requires Ready(b) && k < |b.ops| && b.ops[k].kind.Fetch? && |b.ops[k].inputs| == 1
    ensures var x := b.ops[k].inputs[0];
      Partial(b, k + 1) == Images(b.ops[..k], FetchTargets(b.ops[..k]) + {x}, {}) + [CastOut(x), b.ops[k]]
  {
    TargetsNext(b.ops, k);
    Untouched(b, k);
    assert b.ops[..k + 1][..k] == b.ops[..k];
  }

  lemma HalvesNext(vars: map<string, Var>, s: set<string>, cur: map<string, Var>, x: string)
    requires HalvesAdded(vars, s, cur) && x in vars && !IsHalf(x) && forall n | n in vars :: !IsHalf(n)
    ensures HalvesAdded(vars, s + {x}, cur[Half(x) := cur[x].(half := true)])
  {
    HalfProps(x);
    forall y | y in s ensures Half(y) == Half(x) ==> y == x { if Half(y) == Half(x) { HalfInjective(y, x); } }
    assert forall n | n in Halves(s) :: IsHalf(n) by { forall y | y in s ensures IsHalf(Half(y)) { HalfProps(y); } }
    assert Halves(s + {x}) == Halves(s) + {Half(x)};
  }

  function Targets(ops: seq<Op>): set<string> { FeedTargets(ops) + FetchTargets(ops) }

  /** The loop has rewritten the first `k` ops of `b` and stands at index `i`. */
  ghost predicate Reached(b: Block, k: nat, i: nat, ops: seq<Op>, vars: map<string, Var>, im: map<string, string>) {
    && k <= |b.ops| && i == |Partial(b, k)| && ops == Partial(b, k) + b.ops[k..]
    && im == InputMap(FeedTargets(b.ops[..k])) && HalvesAdded(b.vars, Targets(b.ops[..k]), vars)
  }

  lemma PassesOther(b: Block, k: nat, i: nat, ops: seq<Op>, vars: map<string, Var>, im: map<string, string>)
    requires Ready(b) && Reached(b, k, i, ops, vars, im) && i < |ops| && !ops[i].kind.Feed? && !ops[i].kind.Fetch?
    ensures Reached(b, k + 1, i + 1, ops, vars, im)
  {
    assert ops[i] == b.ops[k];
    assert Partial(b, k + 1) == Partial(b, k) + [b.ops[k]] by { PartialNext(b, k); }
    assert FeedTargets(b.ops[..k + 1]) == FeedTargets(b.ops[..k]) && Targets(b.ops[..k + 1]) == Targets(b.ops[..k]) by {
      TargetsNext(b.ops, k);
    }
    assert [b.ops[k]] + b.ops[k + 1..] == b.ops[k..];
    Assoc(Partial(b, k), [b.ops[k]], b.ops[k + 1..]);
  }

  function Insert(ops: seq<Op>, i: nat, c: Op): (r: seq<Op>)
    requires i <= |ops|
    ensures |r| == |ops| + 1
  {
    ops[..i] + [c] + ops[i..]
  }

  lemma PassesFeed(b: Block, k: nat, i: nat, ops: seq<Op>, vars: map<string, Var>, im: map<string, string>)
    requires Ready(b) && Reached(b, k, i, ops, vars, im) && i < |ops| && ops[i].kind.Feed?
    ensures |ops[i].outputs| == 1 && ops[i].outputs[0] in vars
    ensures var x := ops[i].outputs[0];
      Reached(b, k + 1, i + 2, Insert(ops, i + 1, CastIn(x)), vars[Half(x) := vars[x].(half := true)], im[x := Half(x)])
  {
    assert ops[i] == b.ops[k] && Plain(b.ops[k]);
    var x := ops[i].outputs[0];
    FeedOps(b, k, x);
    FeedMaps(b, k, x, vars, im);
  }

  lemma FeedOps(b: Block, k: nat, x: string)
    requires Ready(b) && k < |b.ops| && b.ops[k].kind.Feed? && b.ops[k].outputs == [x]
    ensures var ops', i := Insert(Partial(b, k) + b.ops[k..], |Partial(b, k)| + 1, CastIn(x)), |Partial(b, k)|;
      ops' == Partial(b, k + 1) + b.ops[k + 1..] && |Partial(b, k + 1)| == i + 2
  {
    PartialNext(b, k);
    InsertAfter(Partial(b, k), b.ops[k..], CastIn(x));
    assert b.ops[k..][1..] == b.ops[k + 1..];
  }

  lemma InputMapKeys(s: set<string>)
    ensures InputMap(s).Keys == s
  {}

  lemma InputMapNext(s: set<string>, x: string)
    ensures InputMap(s)[x := Half(x)] == InputMap(s + {x})
  {}

  lemma FeedMaps(b: Block, k: nat, x: string, vars: map<string, Var>, im: map<string, string>)
    requires Ready(b) && k < |b.ops| && b.ops[k].kind.Feed? && b.ops[k].outputs == [x]
    requires im == InputMap(FeedTargets(b.ops[..k])) && HalvesAdded(b.vars, Targets(b.ops[..k]), vars)
    ensures x in vars && im[x := Half(x)] == InputMap(FeedTargets(b.ops[..k + 1]))
    ensures HalvesAdded(b.vars, Targets(b.ops[..k + 1]), vars[Half(x) := vars[x].(half := true)])
  {
    assert Plain(b.ops[k]);
    TargetsNext(b.ops, k);
    InputMapNext(FeedTargets(b.ops[..k]), x);
    assert Targets(b.ops[..k + 1]) == Targets(b.ops[..k]) + {x};
    VarsNext(b, k, x, vars);
  }

  lemma VarsNext(b: Block, k: nat, x: string, vars: map<string, Var>)
    requires k < |b.ops| && x in b.vars && !IsHalf(x) && (forall n | n in b.vars :: !IsHalf(n))
    requires HalvesAdded(b.vars, Targets(b.ops[..k]), vars)
    requires Targets(b.ops[..k + 1]) == Targets(b.ops[..k]) + {x}
    ensures x in vars && HalvesAdded(b.vars, Targets(b.ops[..k + 1]), vars[Half(x) := vars[x].(half := true)])
  {
    HalvesNext(b.vars, Targets(b.ops[..k]), vars, x);
  }

  lemma InsertAfter(done: seq<Op>, rest: seq<Op>, c: Op)
    requires rest != []
    ensures Insert(done + rest, |done| + 1, c) == done + [rest[0], c] + rest[1..]
    ensures Insert(done + rest, |done|, c) == done + [c, rest[0]] + rest[1..]
  {}

  lemma PassesFetch(b: Block, k: nat, i: nat, ops: seq<Op>, vars: map<string, Var>, im: map<string, string>) returns (pos: nat)
    requires Ready(b) && Reached(b, k, i, ops, vars, im) && i < |ops| && ops[i].kind.Fetch?
    ensures |ops[i].inputs| == 1 && ops[i].inputs[0] in vars && pos < i
    ensures ops[i].inputs[0] in ops[pos].outputs && forall j | 0 <= j < pos :: ops[i].inputs[0] !in ops[j].outputs
    ensures var x := ops[i].inputs[0];
      var ops1 := ops[pos := RenameOut(ops[pos], {x})];
      Reached(b, k + 1, i + 2, Insert(ops1, i, CastOut(x)), vars[Half(x) := vars[x].(half := true)], im)
  {
    assert ops[i] == b.ops[k] && Plain(b.ops[k]);
    var x := ops[i].inputs[0];
    var w :| GoodFetch(b, k, w);
    pos := FetchRename(b, k, w);
    FetchOps(b, k, x);
    FetchMaps(b, k, x, vars);
  }

  lemma FetchOps(b: Block, k: nat, x: string)
    requires Ready(b) && k < |b.ops| && b.ops[k].kind.Fetch? && b.ops[k].inputs == [x]
    ensures var cur := Images(b.ops[..k], FetchTargets(b.ops[..k]) + {x}, {}) + b.ops[k..];
      && |cur| == |Partial(b, k)| + |b.ops[k..]|
      && Insert(cur, |Partial(b, k)|, CastOut(x)) == Partial(b, k + 1) + b.ops[k + 1..]
      && |Partial(b, k + 1)| == |Partial(b, k)| + 2
  {
    FetchNext(b, k);
    ImagesLength(b.ops[..k], FetchTargets(b.ops[..k]), FetchTargets(b.ops[..k]) + {x});
    InsertAfter(Images(b.ops[..k], FetchTargets(b.ops[..k]) + {x}, {}), b.ops[k..], CastOut(x));
    assert b.ops[k..][1..] == b.ops[k + 1..];
  }

  lemma FetchMaps(b: Block, k: nat, x: string, vars: map<string, Var>)
    requires Ready(b) && k < |b.ops| && b.ops[k].kind.Fetch? && b.ops[k].inputs == [x]
    requires HalvesAdded(b.vars, Targets(b.ops[..k]), vars)
    ensures x in vars && FeedTargets(b.ops[..k + 1]) == FeedTargets(b.ops[..k])
    ensures HalvesAdded(b.vars, Targets(b.ops[..k + 1]), vars[Half(x) := vars[x].(half := true)])
  {
    assert Plain(b.ops[k]);
    TargetsNext(b.ops, k);
    assert Targets(b.ops[..k + 1]) == Targets(b.ops[..k]) + {x};
    VarsNext(b, k, x, vars);
  }

  lemma {:induction false} ImagesLength(ops: seq<Op>, fs: set<string>, gs: set<string>)
    ensures |Images(ops, fs, {})| == |Images(ops, gs, {})|
  {
    if ops != [] { ImagesLength(ops[..|ops| - 1], fs, gs); }
  }

  lemma SameFirst(ops: seq<Op>, x: string, i: nat, j: nat)
    requires i < |ops| && x in ops[i].outputs && forall k | 0 <= k < i :: x !in ops[k].outputs
    requires j < |ops| && x in ops[j].outputs && forall k | 0 <= k < j :: x !in ops[k].outputs
    ensures i == j
  {}

  lemma Starts(b: Block)
    ensures Reached(b, 0, 0, b.ops, b.vars, map[])
  {
    assert b.ops[..0] == [] && Partial(b, 0) + b.ops[0..] == b.ops && Halves({}) == {} && Targets([]) == {};
  }

  lemma Completes(b: Block, k: nat, i: nat, ops: seq<Op>, vars: map<string, Var>, im: map<string, string>)
    requires Reached(b, k, i, ops, vars, im) && i == |ops|
    ensures ops == Images(b.ops, FetchTargets(b.ops), {}) && im == InputMap(FeedTargets(b.ops))
    ensures HalvesAdded(b.vars, Targets(b.ops), vars)
  {
    assert k == |b.ops| && b.ops[..k] == b.ops && b.ops[k..] == [];
  }

  ghost predicate Convertible<V>(ps: set<string>, scope: map<string, V>) {
    ps <= scope.Keys && forall p | p in ps :: !IsHalf(p)
  }

  // ------------------------------------------------ parameters, inputs and dead variables

  /** `vars'` is `vars` with every name in `ps` replaced by its float16 variable. */
  ghost predicate ParamsReplaced(vars: map<string, Var>, ps: set<string>, vars': map<string, Var>) {
    && vars'.Keys == (vars.Keys - ps) + Halves(ps)
    && (forall n | n in vars && n !in ps && n !in Halves(ps) :: vars'[n] == vars[n])
    && (forall p | p in ps :: vars'[Half(p)] == Var(Tensor, true, true))
  }

  lemma HalvesApart(ps: set<string>, p: string)
    requires !IsHalf(p)
    ensures Halves(ps + {p}) == Halves(ps) + {Half(p)} && p !in Halves(ps) && Half(p) != p
    ensures forall q | q in ps && Half(q) == Half(p) :: q == p
  {
    HalfProps(p);
    forall q | q in ps ensures Half(q) != p && (Half(q) == Half(p) ==> q == p) { HalfProps(q); }
  }

  lemma ReplaceNext(vars: map<string, Var>, ps: set<string>, cur: map<string, Var>, p: string)
    requires ParamsReplaced(vars, ps, cur) && p in vars && forall n | n in ps + {p} :: !IsHalf(n)
    ensures ParamsReplaced(vars, ps + {p}, cur[Half(p) := Var(Tensor, true, true)] - {p})
  {
    var next := cur[Half(p) := Var(Tensor, true, true)] - {p};
    HalvesApart(ps, p);
    assert next.Keys == (cur.Keys + {Half(p)}) - {p};
    assert next.Keys == (vars.Keys - (ps + {p})) + Halves(ps + {p}) by { KeysNext(vars.Keys, ps, p); }
    forall q | q in ps + {p} ensures next[Half(q)] == Var(Tensor, true, true) { assert Half(q) in Halves(ps + {p}); }
  }

  lemma KeysNext(keys: set<string>, ps: set<string>, p: string)
    requires p !in Halves(ps) && Half(p) != p && Halves(ps + {p}) == Halves(ps) + {Half(p)}
    ensures (keys - ps) + Halves(ps) + {Half(p)} - {p} == (keys - (ps + {p})) + Halves(ps + {p})
  {}

  lemma ScopeNext<V>(toHalf: V -> V, ps: set<string>, scope: map<string, V>, cur: map<string, V>, p: string)
    requires ScopeConverted(toHalf, ps, scope, cur) && p in scope && forall n | n in ps + {p} :: !IsHalf(n)
    ensures p in cur && ScopeConverted(toHalf, ps + {p}, scope, cur[Half(p) := toHalf(cur[p])])
  {
    assert p in ps + {p};
    HalfProps(p);
    forall q | q in ps ensures Half(q) == Half(p) ==> q == p { if Half(q) == Half(p) { HalfInjective(q, p); } }
  }

  /** The parameters `ps` of a block have been converted so far. */
  ghost predicate Converted<V>(toHalf: V -> V, ps: set<string>, vars: map<string, Var>, vars': map<string, Var>,
                               scope: map<string, V>, scope': map<string, V>,
                               im: map<string, string>, im': map<string, string>) {
    && ScopeConverted(toHalf, ps, scope, scope') && ParamsReplaced(vars, ps, vars') && im' == im + InputMap(ps)
  }

  lemma NoneConverted<V>(toHalf: V -> V, vars: map<string, Var>, scope: map<string, V>, im: map<string, string>)
    ensures Converted(toHalf, {}, vars, vars, scope, scope, im, im)
  {
    assert Halves({}) == {} && InputMap({}) == map[];
  }

  lemma ConvertNext<V>(toHalf: V -> V, ps: set<string>, vars: map<string, Var>, vars': map<string, Var>,
                       scope: map<string, V>, scope': map<string, V>,
                       im: map<string, string>, im': map<string, string>, p: string)
    requires Converted(toHalf, ps, vars, vars', scope, scope', im, im')
    requires p in vars && p in scope && forall n | n in ps + {p} :: !IsHalf(n)
    ensures p in scope' && Converted(toHalf, ps + {p}, vars, vars'[Half(p) := Var(Tensor, true, true)] - {p},
                                     scope, scope'[Half(p) := toHalf(scope'[p])], im, im'[p := Half(p)])
  {
    ReplaceNext(vars, ps, vars', p);
    ScopeNext(toHalf, ps, scope, scope', p);
    InputMapPlus(im, ps, p);
  }

  lemma InputMapPlus(im: map<string, string>, ps: set<string>, p: string)
    ensures (im + InputMap(ps))[p := Half(p)] == im + InputMap(ps + {p})
  {}

  function Adjust(ops: seq<Op>, s: set<string>): (r: seq<Op>)
    ensures |r| == |ops| && forall i | 0 <= i < |ops| :: r[i] == RenameIn(ops[i], s)
  {
    seq(|ops|, i requires 0 <= i < |ops| => RenameIn(ops[i], s))
  }

  function Replace(ns: seq<string>, from: string, to: string): (r: seq<string>)
    ensures |r| == |ns| && forall i | 0 <= i < |ns| :: r[i] == if ns[i] == from then to else ns[i]
  {
    seq(|ns|, i requires 0 <= i < |ns| => if ns[i] == from then to else ns[i])
  }

  lemma {:induction false} AdjustImages(ops: seq<Op>, fs: set<string>, s: set<string>)
    ensures Adjust(Images(ops, fs, {}), s) == Images(ops, fs, s)
  {
    if ops != [] {
      var init, op := ops[..|ops| - 1], ops[|ops| - 1];
      AdjustImages(init, fs, s);
      AdjustImage(op, fs, s);
      assert Adjust(Images(init, fs, {}) + Image(op, fs, {}), s)
          == Adjust(Images(init, fs, {}), s) + Adjust(Image(op, fs, {}), s);
    }
  }

  lemma AdjustImage(op: Op, fs: set<string>, s: set<string>)
    ensures Adjust(Image(op, fs, {}), s) == Image(op, fs, s)
  {
    RenameNone(op.inputs, {});
  }

  lemma {:induction false} NormInputsKept(ops: seq<Op>, fs: set<string>)
    ensures NormInputs(Images(ops, fs, {})) == NormInputs(ops)
  {
    if ops != [] {
      NormInputsKept(ops[..|ops| - 1], fs);
      NormInputsImage(Images(ops[..|ops| - 1], fs, {}), ops[|ops| - 1], fs);
    }
  }

  lemma NormInputsImage(a: seq<Op>, op: Op, fs: set<string>)
    ensures NormInputs(a + Image(op, fs, {})) == NormInputs(a) + if op.kind.BatchNorm? then Elements(op.inputs) else {}
  {
    var op' := RenameIn(RenameOut(op, fs), {});
    assert op'.inputs == op.inputs && op'.kind == op.kind by { RenameNone(op.inputs, {}); }
    NormInputsAppend(a, op');
    if op.kind.Feed? && op.outputs != [] {
      NormInputsAppend(a + [op'], CastIn(op.outputs[0]));
      assert a + [op', CastIn(op.outputs[0])] == a + [op'] + [CastIn(op.outputs[0])];
    } else if op.kind.Fetch? && op.inputs != [] {
      NormInputsAppend(a, CastOut(op.inputs[0]));
      NormInputsAppend(a + [CastOut(op.inputs[0])], op');
      assert a + [CastOut(op.inputs[0]), op'] == a + [CastOut(op.inputs[0])] + [op'];
    }
  }

  lemma NormInputsAppend(a: seq<Op>, op: Op)
    ensures NormInputs(a + [op]) == NormInputs(a) + if op.kind.BatchNorm? then Elements(op.inputs) else {}
  {
    assert (a + [op])[..|a|] == a;
  }

  /** The parameters to convert are the same before and after the casts were inserted. */
  lemma ParamsKept(b: Block, vars: map<string, Var>)
    requires Ready(b) && HalvesAdded(b.vars, Targets(b.ops), vars)
    ensures Params(Block(Images(b.ops, FetchTargets(b.ops), {}), vars)) == Params(b)
  {
    NormInputsKept(b.ops, FetchTargets(b.ops));
    forall x | x in Targets(b.ops) ensures !vars[Half(x)].persistable && IsHalf(Half(x)) {
      HalfProps(x);
      if x in FeedTargets(b.ops) { var _ := FeedIndex(b, x); } else { var _, _ := FetchIndex(b, x); }
    }
  }

  lemma MappedPlain(b: Block)
    requires Ready(b)
    ensures InputMap(FeedTargets(b.ops)) + InputMap(Params(b)) == InputMap(Mapped(b))
    ensures forall n | n in Mapped(b) :: !IsHalf(n) && Half(n) !in Mapped(b)
  {
    forall n | n in Mapped(b) ensures !IsHalf(n) {
      if n in FeedTargets(b.ops) { var _ := FeedIndex(b, n); }
    }
    forall n | n in Mapped(b) ensures Half(n) !in Mapped(b) { HalfProps(n); }
  }

  lemma VarsCover(b: Block, vars1: map<string, Var>, vars2: map<string, Var>)
    requires Ready(b) && Used(b.ops) <= b.vars.Keys
    requires HalvesAdded(b.vars, Targets(b.ops), vars1) && ParamsReplaced(vars1, Params(b), vars2)
    ensures Used(Result(b)) <= vars2.Keys
  {
    assert Used(Result(b)) <= Declarable(b) by {
      assert b.ops[..|b.ops|] == b.ops;
      ResultUses(b, |b.ops|);
    }
    assert Halves(Targets(b.ops) + Params(b)) == Halves(Targets(b.ops)) + Halves(Params(b)) by {
      HalvesUnion(Targets(b.ops), Params(b));
    }
    forall x | x in Targets(b.ops) ensures Half(x) !in Params(b) { HalfProps(x); }
  }

  lemma HalvesUnion(s: set<string>, t: set<string>)
    ensures Halves(s + t) == Halves(s) + Halves(t)
  {}

  /** The casts are in place. */
  ghost predicate CastsIn(b: Block, ops: seq<Op>, vars: map<string, Var>, im: map<string, string>) {
    && ops == Images(b.ops, FetchTargets(b.ops), {})
    && im == InputMap(FeedTargets(b.ops)) && HalvesAdded(b.vars, Targets(b.ops), vars)
  }

  /** What is left to do is to rename the inputs and drop unused variables. */
  ghost predicate ReadyToRename<V>(toHalf: V -> V, b: Block, scope: map<string, V>,
                                ops: seq<Op>, vars: map<string, Var>, scope': map<string, V>, im: map<string, string>) {
    && Plainly(im) && Adjust(ops, im.Keys) == Result(b) && ScopeConverted(toHalf, Params(b), scope, scope')
    && (Used(b.ops) <= b.vars.Keys ==> Used(Result(b)) <= vars.Keys) && VarsFollow(b.vars, vars, Params(b))
  }

  /** Variables are those of before, but for the converted ones, and float16 copies of some of them. */
  ghost predicate VarsFollow(vars: map<string, Var>, vars': map<string, Var>, converted: set<string>) {
    && (forall n | n in vars && n !in converted :: n in vars' && vars'[n] == vars[n])
    && (forall n | n in vars' :: (n in vars && n !in converted) || CopyOf(vars, n, vars'[n]))
  }

  ghost predicate CopyOf(vars: map<string, Var>, n: string, v: Var) {
    exists x | x in vars :: n == x + ".fp16" && v == Var(vars[x].typ, vars[x].persistable, true)
  }

  lemma VarsCompose(b: Block, vars1: map<string, Var>, vars2: map<string, Var>)
    requires Ready(b) && HalvesAdded(b.vars, Targets(b.ops), vars1) && ParamsReplaced(vars1, Params(b), vars2)
    ensures VarsFollow(b.vars, vars2, Params(b))
  {
    CopiesAreNew(b);
    forall n | n in vars2 ensures (n in b.vars && n !in Params(b)) || CopyOf(b.vars, n, vars2[n]) {
      if n in Halves(Params(b)) {
        var p :| p in Params(b) && Half(p) == n;
        IsCopy(b.vars, p, vars2[n]);
      } else if n !in b.vars {
        var x :| x in Targets(b.ops) && Half(x) == n;
        IsCopy(b.vars, x, vars2[n]);
      }
    }
  }

  lemma IsCopy(vars: map<string, Var>, x: string, v: Var)
    requires x in vars && v == Var(vars[x].typ, vars[x].persistable, true)
    ensures CopyOf(vars, Half(x), v)
  {
    HalfProps(x);
  }

  lemma CopiesAreNew(b: Block)
    requires Ready(b)
    ensures Halves(Targets(b.ops)) !! b.vars.Keys && Halves(Params(b)) !! b.vars.Keys
  {
    forall x | x in Targets(b.ops) + Params(b) ensures Half(x) !in b.vars { HalfProps(x); }
  }

  /** The input map appends the suffix, and no renamed name is renamed again. */
  ghost predicate Plainly(im: map<string, string>) {
    im == InputMap(im.Keys) && forall n | n in im :: Half(n) !in im
  }

  lemma StepsCompose<V>(toHalf: V -> V, b: Block, ops: seq<Op>, vars1: map<string, Var>, vars2: map<string, Var>,
                        scope: map<string, V>, scope2: map<string, V>, im: map<string, string>, im2: map<string, string>)
    requires Ready(b) && CastsIn(b, ops, vars1, im)
    requires Converted(toHalf, Params(b), vars1, vars2, scope, scope2, im, im2)
    ensures ReadyToRename(toHalf, b, scope, ops, vars2, scope2, im2)
  {
    MappedPlain(b);
    InputMapKeys(Mapped(b));
    AdjustImages(b.ops, FetchTargets(b.ops), Mapped(b));
    if Used(b.ops) <= b.vars.Keys { VarsCover(b, vars1, vars2); }
    VarsCompose(b, vars1, vars2);
  }

  /** What holds once unused variables are gone. */
  lemma AtTheEnd<V>(toHalf: V -> V, b: Block, before: map<string, V>, ops: seq<Op>, declared: map<string, Var>,
                    vars: map<string, Var>, scope: map<string, V>)
    requires Ready(b) && ops == Result(b) && vars == map n | n in declared && n in Used(ops) :: declared[n]
    requires VarsFollow(b.vars, declared, Params(b)) && ScopeConverted(toHalf, Params(b), before, scope)
    ensures Used(ops) <= declared.Keys ==> forall n :: n in vars <==> UsedBy(ops, n)
    ensures forall n | n in vars :: (n in b.vars && vars[n] == b.vars[n]) || CopyOf(b.vars, n, vars[n])
    ensures NormsKept(b.vars, b.ops, ops)
    ensures forall n | n in b.vars && b.vars[n].persistable && ReadByNorm(b.ops, n) ::
      (UsedBy(ops, n) ==> n in vars && vars[n] == b.vars[n]) && (n in before ==> n in scope && scope[n] == before[n])
  {
    forall n ensures n in Used(ops) <==> UsedBy(ops, n) { UsedAre(ops, n); }
    NormsAreKept(b);
    forall n | n in b.vars && ReadByNorm(b.ops, n) ensures n !in Params(b) { ConvertedExactly(b, n); }
  }

  class Float16Transpiler<V> {
    var ops: seq<Op>
    var vars: map<string, Var>
    var scope: map<string, V>
    var inputMap: map<string, string>

    ghost function B(): Block
      reads this
    {
      Block(ops, vars)
    }

    constructor (b: Block, scope: map<string, V>)
      ensures B() == b && this.scope == scope && inputMap == map[]
    {
      ops := b.ops;
      vars := b.vars;
      this.scope := scope;
      inputMap := map[];
    }

    /** The first op that writes `name`, or -1. */
    method FindOp(name: string) returns (k: int)
      ensures -1 <= k < |ops| && (k >= 0 ==> name in ops[k].outputs)
      ensures forall j | 0 <= j < (if k >= 0 then k else |ops|) :: name !in ops[j].outputs
    {
      k := 0;
      while k < |ops|
        invariant 0 <= k <= |ops| && forall j | 0 <= j < k :: name !in ops[j].outputs
      {
        if name in ops[k].outputs { return; }
        k := k + 1;
      }
      k := -1;
    }

    /** The feed branch of the loop; false where the source raises an error. */
    method CastFeed(i: nat) returns (ok: bool)
      requires i < |ops|
      modifies this`ops, this`vars, this`inputMap
      ensures ok <==> old(ops[i].outputs != [] && ops[i].outputs[0] in vars)
      ensures ok ==> var x := old(ops[i]).outputs[0];
        && ops == Insert(old(ops), i + 1, CastIn(x)) && vars == old(vars)[Half(x) := old(vars)[x].(half := true)]
        && inputMap == old(inputMap)[x := Half(x)]
    {
      if ops[i].outputs == [] { return false; }
      var x := ops[i].outputs[0];
      if x !in vars { return false; }
      vars := vars[Half(x) := vars[x].(half := true)];
      ops := Insert(ops, i + 1, CastIn(x));
      inputMap := inputMap[x := Half(x)];
      ok := true;
    }

    /** The fetch branch of the loop; false where the source raises an error. */
    method CastFetch(i: nat) returns (ok: bool, ghost w: nat)
      requires i < |ops|
      modifies this`ops, this`vars
      ensures ok <==> old(ops[i].inputs != [] && ops[i].inputs[0] in vars
                          && exists j :: 0 <= j < |ops| && ops[i].inputs[0] in ops[j].outputs)
      ensures ok ==> var x := old(ops[i]).inputs[0];
        && w < |old(ops)| && x in old(ops)[w].outputs && (forall j | 0 <= j < w :: x !in old(ops)[j].outputs)
        && ops == Insert(old(ops)[w := RenameOut(old(ops)[w], {x})], i, CastOut(x))
        && vars == old(vars)[Half(x) := old(vars)[x].(half := true)]
    {
      w := 0;
      if ops[i].inputs == [] { return false, w; }
      var x := ops[i].inputs[0];
      if x !in vars { return false, w; }
      vars := vars[Half(x) := vars[x].(half := true)];
      var writer := FindOp(x);
      if writer < 0 { return false, w; }
      w := writer;
      ops := ops[writer := RenameOut(ops[writer], {x})];
      ops := Insert(ops, i, CastOut(x));
      ok := true;
    }

    /** One turn of the loop at a feed op, the `k`-th op of the block `b` that it started from. */
    method FeedTurn(ghost b: Block, ghost k: nat, i: nat) returns (ok: bool)
      requires i < |ops| && ops[i].kind.Feed?
      modifies this`ops, this`vars, this`inputMap
      ensures ok ==> |ops| == |old(ops)| + 1
      ensures Ready(b) && old(Reached(b, k, i, ops, vars, inputMap)) ==>
        ok && Reached(b, k + 1, i + 2, ops, vars, inputMap)
    {
      if Ready(b) && Reached(b, k, i, ops, vars, inputMap) { PassesFeed(b, k, i, ops, vars, inputMap); }
      ok := CastFeed(i);
    }

    method FetchTurn(ghost b: Block, ghost k: nat, i: nat) returns (ok: bool)
      requires i < |ops| && ops[i].kind.Fetch?
      modifies this`ops, this`vars
      ensures ok ==> |ops| == |old(ops)| + 1
      ensures Ready(b) && old(Reached(b, k, i, ops, vars, inputMap)) ==>
        ok && Reached(b, k + 1, i + 2, ops, vars, inputMap)
    {
      ghost var good, pos, w := Ready(b) && Reached(b, k, i, ops, vars, inputMap), 0, 0;
      if good { pos := PassesFetch(b, k, i, ops, vars, inputMap); }
      ok, w := CastFetch(i);
      if good { SameFirst(old(ops), old(ops)[i].inputs[0], w, pos); }
    }

    /** The cast-inserting loop: its index runs over the op list that it is growing. Returns false where
        the source raises an error. */
    method ModifyFeedFetch() returns (ok: bool)
      requires inputMap == map[]
      modifies this
      ensures scope == old(scope)
      ensures Ready(old(B())) ==>
        ok && CastsIn(old(B()), ops, vars, inputMap)
    {
      ghost var b := B();
      ghost var good := Ready(b);
      ghost var k := 0;
      var i := 0;
      Starts(b);
      while i < |ops|
        invariant 0 <= i <= |ops| && scope == old(scope)
        invariant good ==> Reached(b, k, i, ops, vars, inputMap)
        decreases |ops| - i
      {
        if ops[i].kind.Feed? {
          ok := FeedTurn(b, k, i);
          if !ok { return; }
          i := i + 1;
        } else if ops[i].kind.Fetch? {
          ok := FetchTurn(b, k, i);
          if !ok { return; }
          i := i + 1;
        } else if good {
          PassesOther(b, k, i, ops, vars, inputMap);
        }
        i := i + 1;
        k := k + 1;
      }
      if good { Completes(b, k, i, ops, vars, inputMap); }
      ok := true;
    }

    method ConvertParams(toHalf: V -> V) returns (ok: bool)
      modifies this
      ensures ops == old(ops)
      ensures Convertible(Params(old(B())), old(scope)) ==>
        ok && Converted(toHalf, Params(old(B())), old(vars), vars, old(scope), scope, old(inputMap), inputMap)
    {
      var params := Params(Block(ops, vars));
      var rest := params;
      ghost var done: set<string> := {};
      NoneConverted(toHalf, vars, scope, inputMap);
      while rest != {}
        invariant done + rest == params && ops == old(ops)
        invariant Convertible(params, old(scope)) ==>
          Converted(toHalf, done, old(vars), vars, old(scope), scope, old(inputMap), inputMap)
        decreases rest
      {
        var p := Choose(rest);
        if Convertible(params, old(scope)) {
          ConvertNext(toHalf, done, old(vars), vars, old(scope), scope, old(inputMap), inputMap, p);
        }
        vars := vars[Half(p) := Var(Tensor, true, true)];
        if p !in scope { return false; }
        scope := scope[Half(p) := toHalf(scope[p])];
        inputMap := inputMap[p := Half(p)];
        vars := vars - {p};
        rest := rest - {p};
        done := done + {p};
      }
      assert done == params;
      ok := true;
    }

    /** The inner loop of _adjust_input: rename every input that the input map names. */
    method RenameInputs(op: Op) returns (r: Op)
      ensures Plainly(inputMap) ==> r == op.(inputs := RenameAll(op.inputs, inputMap.Keys))
    {
      ghost var s := inputMap.Keys;
      ghost var plain := Plainly(inputMap);
      var args := op.inputs;
      r := op;
      for a := 0 to |args|
        invariant |r.inputs| == |args| && r == op.(inputs := r.inputs)
        invariant plain ==> forall j | 0 <= j < |args| ::
          r.inputs[j] == if args[j] in args[..a] then Rename(args[j], s) else args[j]
      {
        assert args[..a + 1] == args[..a] + [args[a]];
        if args[a] in inputMap {
          r := r.(inputs := Replace(r.inputs, args[a], inputMap[args[a]]));
        }
      }
      assert args[..|args|] == args;
      assert plain ==> r.inputs == RenameAll(args, s);
    }

    method AdjustInput()
      modifies this`ops
      ensures Plainly(inputMap) ==> ops == Adjust(old(ops), inputMap.Keys)
    {
      ghost var s := inputMap.Keys;
      ghost var plain := Plainly(inputMap);
      for i := 0 to |ops|
        invariant |ops| == |old(ops)|
        invariant plain ==> forall j | 0 <= j < i :: ops[j] == RenameIn(old(ops)[j], s)
        invariant forall j | i <= j < |ops| :: ops[j] == old(ops)[j]
      {
        if !ops[i].kind.Cast? {
          var op := RenameInputs(ops[i]);
          ops := ops[i := op];
        }
      }
    }

    method RemoveUnusedVars()
      modifies this`vars
      ensures vars == map n | n in old(vars) && n in Used(ops) :: old(vars)[n]
      ensures forall n :: n in vars <==> n in old(vars) && UsedBy(ops, n)
    {
      forall n ensures n in Used(ops) <==> UsedBy(ops, n) { UsedAre(ops, n); }
      var used := Used(ops);
      var rest := vars.Keys;
      while rest != {}
        invariant rest <= old(vars).Keys
        invariant vars == map n | n in old(vars) && (n in rest || n in used) :: old(vars)[n]
        decreases rest
      {
        var n := Choose(rest);
        if n !in used { vars := vars - {n}; }
        rest := rest - {n};
      }
    }

    /** Steps one and two of the pass. */
    method CastAndConvert(toHalf: V -> V) returns (ok: bool)
      requires inputMap == map[]
      modifies this
      ensures Ready(old(B())) && Params(old(B())) <= old(scope).Keys ==>
        ok && ReadyToRename(toHalf, old(B()), old(scope), ops, vars, scope, inputMap)
    {
      ghost var b, good := B(), Ready(B()) && Params(B()) <= scope.Keys;
      ok := ModifyFeedFetch();
      if !ok { return; }
      ghost var vars1, scope1, im1 := vars, scope, inputMap;
      if good { ParamsKept(b, vars); }
      ok := ConvertParams(toHalf);
      if !ok { return; }
      if good { StepsCompose(toHalf, b, ops, vars1, vars, scope1, scope, im1, inputMap); }
    }

    /** The whole pass: it makes `Result` of the block, converts the scope's parameters, and leaves
        exactly the variables that the ops use declared. */
    method Transpile(toHalf: V -> V) returns (ok: bool)
      requires inputMap == map[]
      modifies this
      ensures Ready(old(B())) && Params(old(B())) <= old(scope).Keys ==>
        && ok && ops == Result(old(B()))
        && ScopeConverted(toHalf, Params(old(B())), old(scope), scope)
        && (Used(old(ops)) <= old(vars).Keys ==> forall n :: n in vars <==> UsedBy(ops, n))
        && (forall n | n in vars :: (n in old(vars) && vars[n] == old(vars)[n]) || CopyOf(old(vars), n, vars[n]))
        && NormsKept(old(vars), old(ops), ops)
        && (forall n | n in old(vars) && old(vars)[n].persistable && ReadByNorm(old(ops), n) ::
              (UsedBy(ops, n) ==> n in vars && vars[n] == old(vars)[n]) && (n in old(scope) ==> n in scope && scope[n] == old(scope)[n]))
    {
      ghost var b, before, good := B(), scope, Ready(B()) && Params(B()) <= scope.Keys;
      ok := CastAndConvert(toHalf);
      if !ok { return; }
      AdjustInput();
      ghost var declared := vars;
      RemoveUnusedVars();
      if good { AtTheEnd(toHalf, b, before, ops, declared, vars, scope); }
    }
  }
}
