/** The float16 transpiler (paddle/contrib/float16/float16_transpiler.py): what the pass does
    to a block, a semantics for op lists, and the proof that the pass preserves meaning. */
module Transpiler {
  import opened Common

  datatype Kind = Feed | Fetch | Cast(toHalf: bool) | BatchNorm | Compute(name: string)

  datatype Op = Op(kind: Kind, inputs: seq<string>, outputs: seq<string>, attr: int)

  datatype VarType = Tensor | FeedMinibatch | FetchList
  datatype Var = Var(typ: VarType, persistable: bool, half: bool)

  datatype Block = Block(ops: seq<Op>, vars: map<string, Var>)

  // -------------------------------------------------------------------- names

  const SUFFIX := ".fp16"

  function Half(n: string): string { n + SUFFIX }

  predicate IsHalf(n: string) { |n| >= 5 && n[|n| - 5..] == SUFFIX }

  function Strip(n: string): string { if IsHalf(n) then n[..|n| - 5] else n }

  lemma HalfProps(n: string)
    ensures IsHalf(Half(n)) && Strip(Half(n)) == n && Half(n) == n + ".fp16"
  {}

  lemma HalfInjective(a: string, b: string)
    requires Half(a) == Half(b)
    ensures a == b
  {
    HalfProps(a);
    HalfProps(b);
  }

  function Rename(n: string, s: set<string>): string { if n in s then Half(n) else n }

  function RenameAll(ns: seq<string>, s: set<string>): (r: seq<string>)
    ensures |r| == |ns| && forall i | 0 <= i < |ns| :: r[i] == Rename(ns[i], s)
  {
    seq(|ns|, i requires 0 <= i < |ns| => Rename(ns[i], s))
  }

  // ---------------------------------------------------------------- semantics

  /** Meanings of the ops are uninterpreted: `apply` gives output number `j` of an op from its
      kind, attribute and inputs; `feed` the value of a feed column; `deliver` what is done to
      a fetched value on its way out. A variable that was never written reads as `undef`. */
  datatype Sem<!V> = Sem(feed: int -> V, apply: (Kind, int, seq<V>, nat) -> V,
                         toHalf: V -> V, toFull: V -> V, deliver: V -> V, undef: V)

  datatype Machine<V> = Machine(env: map<string, V>, fetched: seq<(int, V)>)

  function Get<V>(sem: Sem<V>, env: map<string, V>, n: string): V { if n in env then env[n] else sem.undef }

  function GetAll<V>(sem: Sem<V>, env: map<string, V>, ns: seq<string>): (r: seq<V>)
    ensures |r| == |ns| && forall i | 0 <= i < |ns| :: r[i] == Get(sem, env, ns[i])
    ensures forall i | 0 <= i < |ns| :: r[i] == if ns[i] in env then env[ns[i]] else sem.undef
  {
    seq(|ns|, i requires 0 <= i < |ns| => Get(sem, env, ns[i]))
  }

  function Write<V>(env: map<string, V>, outs: seq<string>, value: nat -> V, j: nat): map<string, V>
    requires j <= |outs|
    decreases |outs| - j
  {
    if j == |outs| then env else Write(env[outs[j] := value(j)], outs, value, j + 1)
  }

  function Computes<V>(sem: Sem<V>, env: map<string, V>, op: Op): nat -> V {
    var args := GetAll(sem, env, op.inputs);
    (j: nat) => sem.apply(op.kind, op.attr, args, j)
  }

  function ExecOp<V>(sem: Sem<V>, m: Machine<V>, op: Op): Machine<V> {
    match op.kind
    case Feed => if op.outputs == [] then m else m.(env := m.env[op.outputs[0] := sem.feed(op.attr)])
    case Fetch =>
      if op.inputs == [] then m
      else m.(fetched := m.fetched + [(op.attr, sem.deliver(Get(sem, m.env, op.inputs[0])))])
    case Cast(h) =>
      if op.inputs == [] || op.outputs == [] then m
      else
        var v := Get(sem, m.env, op.inputs[0]);
        m.(env := m.env[op.outputs[0] := if h then sem.toHalf(v) else sem.toFull(v)])
    case _ => m.(env := Write(m.env, op.outputs, Computes(sem, m.env, op), 0))
  }

  function Exec<V>(sem: Sem<V>, m: Machine<V>, ops: seq<Op>): Machine<V>
    decreases |ops|
  {
    if ops == [] then m else ExecOp(sem, Exec(sem, m, ops[..|ops| - 1]), ops[|ops| - 1])
  }

  // ------------------------------------------------------- what a run of ops means

  predicate Writes(op: Op, n: string) {
    match op.kind
    case Feed => op.outputs != [] && n == op.outputs[0]
    case Cast(_) => op.inputs != [] && op.outputs != [] && n == op.outputs[0]
    case Fetch => false
    case _ => n in op.outputs
  }

  /** `v` is what op `op` makes of the values in `env` for its output `n`, the last one of that name. */
  ghost predicate Makes<V>(sem: Sem<V>, env: map<string, V>, op: Op, n: string, v: V) {
    match op.kind
    case Feed => v == sem.feed(op.attr)
    case Cast(h) =>
      op.inputs != [] &&
      var x := if op.inputs[0] in env then env[op.inputs[0]] else sem.undef;
      v == if h then sem.toHalf(x) else sem.toFull(x)
    case Fetch => false
    case _ =>
      exists j: nat ::
        && j < |op.outputs| && op.outputs[j] == n && (forall i | j < i < |op.outputs| :: op.outputs[i] != n)
        && v == sem.apply(op.kind, op.attr, GetAll(sem, env, op.inputs), j)
  }

  lemma {:induction false} WriteLast<V>(env: map<string, V>, outs: seq<string>, value: nat -> V, j: nat, n: string) returns (i: nat)
    requires j <= |outs|
    ensures var env' := Write(env, outs, value, j);
      if n in outs[j..]
      then n in env' && j <= i < |outs| && outs[i] == n && (forall k | i < k < |outs| :: outs[k] != n) && env'[n] == value(i)
      else (n in env' <==> n in env) && (n in env ==> env'[n] == env[n])
    decreases |outs| - j
  {
    i := j;
    if j < |outs| {
      assert outs[j..] == [outs[j]] + outs[j + 1..];
      i := WriteLast(env[outs[j] := value(j)], outs, value, j + 1, n);
      if n !in outs[j + 1..] {
        i := j;
        forall k | j < k < |outs| ensures outs[k] != n { assert outs[k] == outs[j + 1..][k - j - 1]; }
      }
    }
  }

  /** An op changes exactly the names it writes, to what it makes; and only a fetch delivers something: its attribute
      with the value of its input. */
  lemma OpMeans<V>(sem: Sem<V>, m: Machine<V>, op: Op, n: string)
    ensures var m' := ExecOp(sem, m, op);
      && (if Writes(op, n) then n in m'.env && Makes(sem, m.env, op, n, m'.env[n])
          else (n in m'.env <==> n in m.env) && (n in m.env ==> m'.env[n] == m.env[n]))
      && m'.fetched == m.fetched +
           (if op.kind.Fetch? && op.inputs != []
            then [(op.attr, sem.deliver(if op.inputs[0] in m.env then m.env[op.inputs[0]] else sem.undef))] else [])
  {
    assert m.fetched + [] == m.fetched;
    if Computing(op) {
      var i := WriteLast(m.env, op.outputs, Computes(sem, m.env, op), 0, n);
      assert op.outputs[0..] == op.outputs;
      var args := GetAll(sem, m.env, op.inputs);
      assert Computes(sem, m.env, op)(i) == sem.apply(op.kind, op.attr, args, i);
    }
  }

  // ------------------------------------------------------------- what the pass makes

  function FeedTargets(ops: seq<Op>): set<string> {
    set op | op in ops && op.kind.Feed? && op.outputs != [] :: op.outputs[0]
  }

  function FetchTargets(ops: seq<Op>): set<string> {
    set op | op in ops && op.kind.Fetch? && op.inputs != [] :: op.inputs[0]
  }

  function CastIn(x: string): Op { Op(Cast(true), [x], [Half(x)], 0) }

  function CastOut(x: string): Op { Op(Cast(false), [Half(x)], [x], 0) }

  function RenameOut(op: Op, s: set<string>): Op { op.(outputs := RenameAll(op.outputs, s)) }

  function RenameIn(op: Op, s: set<string>): Op {
    if op.kind.Cast? then op else op.(inputs := RenameAll(op.inputs, s))
  }

  /** What an op becomes: a cast after a feed, a cast before a fetch, fetch targets `fs` renamed
      in outputs and feed targets and converted parameters `ms` renamed in inputs. */
  function Image(op: Op, fs: set<string>, ms: set<string>): seq<Op> {
    var op' := RenameIn(RenameOut(op, fs), ms);
    match op.kind
    case Feed => if op.outputs == [] then [op'] else [op', CastIn(op.outputs[0])]
    case Fetch => if op.inputs == [] then [op'] else [CastOut(op.inputs[0]), op']
    case _ => [op']
  }

  function Images(ops: seq<Op>, fs: set<string>, ms: set<string>): seq<Op> {
    if ops == [] then [] else Images(ops[..|ops| - 1], fs, ms) + Image(ops[|ops| - 1], fs, ms)
  }

  function NormInputs(ops: seq<Op>): set<string> {
    if ops == [] then {}
    else NormInputs(ops[..|ops| - 1]) + if ops[|ops| - 1].kind.BatchNorm? then Elements(ops[|ops| - 1].inputs) else {}
  }

  function Elements(ns: seq<string>): set<string> { set n | n in ns }

  /** The parameters converted to float16: persistable tensors that no batch_norm op reads. */
  function Params(b: Block): set<string> {
    set n | n in b.vars && b.vars[n].persistable && n !in NormInputs(b.ops) && b.vars[n].typ.Tensor?
  }

  function Mapped(b: Block): set<string> { FeedTargets(b.ops) + Params(b) }

  function Result(b: Block): seq<Op> { Images(b.ops, FetchTargets(b.ops), Mapped(b)) }

  // ------------------------------------------------------------- preconditions

  ghost predicate Plain(op: Op) {
    && !op.kind.Cast?
    && (op.kind.Feed? ==> |op.outputs| == 1) && (op.kind.Fetch? ==> |op.inputs| == 1)
    && (forall n | n in op.inputs || n in op.outputs :: !IsHalf(n))
  }

  /** Op `i` feeds a non-persistable variable that nothing else writes, before its readers. */
  ghost predicate GoodFeed(b: Block, i: nat)
    requires i < |b.ops| && |b.ops[i].outputs| == 1
  {
    var x := b.ops[i].outputs[0];
    && x in b.vars && !b.vars[x].persistable
    && (forall j | 0 <= j < |b.ops| && x in b.ops[j].outputs :: j == i)
    && (forall j | 0 <= j < |b.ops| && x in b.ops[j].inputs :: i < j)
  }

  predicate Computing(op: Op) { !op.kind.Feed? && !op.kind.Fetch? && !op.kind.Cast? }

  /** Op `i` is the only reader of the non-persistable variable it fetches, and comes after the
      one computing op `w` that writes it. */
  ghost predicate GoodFetch(b: Block, i: nat, w: nat)
    requires i < |b.ops| && |b.ops[i].inputs| == 1
  {
    var x := b.ops[i].inputs[0];
    && x in b.vars && !b.vars[x].persistable
    && w < i && Computing(b.ops[w]) && x in b.ops[w].outputs
    && (forall j | 0 <= j < |b.ops| && x in b.ops[j].outputs :: j == w)
    && (forall j | 0 <= j < |b.ops| && x in b.ops[j].inputs :: j == i)
  }

  ghost predicate Ready(b: Block) {
    && (forall i | 0 <= i < |b.ops| :: Plain(b.ops[i]))
    && (forall i | 0 <= i < |b.ops| && b.ops[i].kind.Feed? :: GoodFeed(b, i))
    && (forall i | 0 <= i < |b.ops| && b.ops[i].kind.Fetch? :: exists w :: GoodFetch(b, i, w))
    && (forall i, p | 0 <= i < |b.ops| && p in Params(b) :: p !in b.ops[i].outputs)
    && (forall n | n in b.vars :: !IsHalf(n))
  }

  // ----------------------------------------------------------------- simulation

  /** The original program with every feed replaced by its float16 cast and every fetched value
      cast back. */
  function Reference<V>(sem: Sem<V>): Sem<V> {
    sem.(feed := c => sem.toHalf(sem.feed(c)), deliver := v => sem.deliver(sem.toFull(v)))
  }

  ghost predicate Written(ops: seq<Op>, n: string) { exists i | 0 <= i < |ops| :: n in ops[i].outputs }

  /** Where the transpiled program keeps the value that the original keeps in `n`, once the first
      ops `done` have run; a feed or fetch target counts only after it was written. */
  ghost predicate Agree<V>(sem: Sem<V>, b: Block, done: seq<Op>, ref: map<string, V>, env: map<string, V>, n: string) {
    if n in FeedTargets(b.ops) + FetchTargets(b.ops)
    then Written(done, n) ==> Get(sem, ref, n) == Get(sem, env, Half(n))
    else if n in Params(b) then Get(sem, ref, n) == Get(sem, env, Half(n))
    else Get(sem, ref, n) == Get(sem, env, n)
  }

  ghost predicate Simulates<V>(sem: Sem<V>, b: Block, k: nat, ref: Machine<V>, m: Machine<V>)
    requires k <= |b.ops|
  {
    && ref.fetched == m.fetched
    && forall n | !IsHalf(n) :: Agree(sem, b, b.ops[..k], ref.env, m.env, n)
  }

  lemma FeedIndex(b: Block, x: string) returns (i: nat)
    requires Ready(b) && x in FeedTargets(b.ops)
    ensures i < |b.ops| && b.ops[i].kind.Feed? && b.ops[i].outputs == [x] && GoodFeed(b, i)
  {
    var op :| op in b.ops && op.kind.Feed? && op.outputs != [] && op.outputs[0] == x;
    i :| 0 <= i < |b.ops| && b.ops[i] == op;
    assert Plain(b.ops[i]);
  }

  lemma FetchIndex(b: Block, x: string) returns (i: nat, w: nat)
    requires Ready(b) && x in FetchTargets(b.ops)
    ensures i < |b.ops| && b.ops[i].kind.Fetch? && b.ops[i].inputs == [x] && GoodFetch(b, i, w)
  {
    var op :| op in b.ops && op.kind.Fetch? && op.inputs != [] && op.inputs[0] == x;
    i :| 0 <= i < |b.ops| && b.ops[i] == op;
    assert Plain(b.ops[i]);
    w :| GoodFetch(b, i, w);
  }

  lemma TargetsDisjoint(b: Block, x: string)
    requires Ready(b)
    ensures x in FeedTargets(b.ops) ==> x !in FetchTargets(b.ops) && x !in Params(b)
    ensures x in FetchTargets(b.ops) ==> x !in Params(b)
  {
    if x in FeedTargets(b.ops) {
      var i := FeedIndex(b, x);
      if x in FetchTargets(b.ops) {
        var _, _ := FetchIndex(b, x);
      }
    }
    if x in FetchTargets(b.ops) { var _, _ := FetchIndex(b, x); }
  }

  /** An op's input is where the transpiled op looks for it. */
  lemma ReadAgrees<V>(sem: Sem<V>, b: Block, k: nat, ref: map<string, V>, env: map<string, V>, n: string)
    requires Ready(b) && k < |b.ops| && n in b.ops[k].inputs && n !in FetchTargets(b.ops)
    requires Agree(sem, b, b.ops[..k], ref, env, n)
    ensures Get(sem, ref, n) == Get(sem, env, Rename(n, Mapped(b)))
  {
    if n in FeedTargets(b.ops) {
      var i := FeedIndex(b, n);
      assert b.ops[..k][i] == b.ops[i];
    }
  }

  lemma {:induction false} WriteOther<V>(env: map<string, V>, outs: seq<string>, g: nat -> V, j: nat, n: string)
    requires j <= |outs| && n !in outs[j..]
    ensures var e := Write(env, outs, g, j); (n in e <==> n in env) && (n in env ==> e[n] == env[n])
    decreases |outs| - j
  {
    if j < |outs| {
      assert outs[j] in outs[j..];
      assert forall x | x in outs[j + 1..] :: x in outs[j..];
      WriteOther(env[outs[j] := g(j)], outs, g, j + 1, n);
    }
  }

  lemma {:induction false} WriteSame<V>(r: map<string, V>, e: map<string, V>, outs: seq<string>, fs: set<string>,
                                        g: nat -> V, j: nat, n: string)
    requires j <= |outs| && n in outs[j..] && forall x | x in outs :: !IsHalf(x)
    ensures var r', e' := Write(r, outs, g, j), Write(e, RenameAll(outs, fs), g, j);
      n in r' && Rename(n, fs) in e' && r'[n] == e'[Rename(n, fs)]
    decreases |outs| - j
  {
    var outs' := RenameAll(outs, fs);
    var r1, e1 := r[outs[j] := g(j)], e[outs'[j] := g(j)];
    if n in outs[j + 1..] {
      WriteSame(r1, e1, outs, fs, g, j + 1, n);
    } else {
      assert n == outs[j];
      WriteOther(r1, outs, g, j + 1, n);
      forall i | j + 1 <= i < |outs| ensures outs'[i] != Rename(n, fs) {
        assert outs[i] in outs[j + 1..];
        HalfApart(outs[i], n, fs);
      }
      WriteOther(e1, outs', g, j + 1, Rename(n, fs));
    }
  }

  lemma HalfApart(a: string, b: string, s: set<string>)
    requires a != b && !IsHalf(a) && !IsHalf(b)
    ensures Rename(a, s) != Rename(b, s) && Half(a) != Half(b) && Half(a) != b && a != Half(b)
  {
    HalfProps(a);
    HalfProps(b);
  }

  lemma RenamedMiss(outs: seq<string>, fs: set<string>, n: string)
    requires n !in outs && !IsHalf(n) && forall x | x in outs :: !IsHalf(x)
    ensures n !in RenameAll(outs, fs) && Half(n) !in RenameAll(outs, fs)
  {
    forall i | 0 <= i < |outs| ensures RenameAll(outs, fs)[i] != n && RenameAll(outs, fs)[i] != Half(n) {
      HalfApart(outs[i], n, fs);
    }
  }

  lemma WrittenNext(ops: seq<Op>, k: nat, n: string)
    requires k < |ops|
    ensures Written(ops[..k + 1], n) <==> Written(ops[..k], n) || n in ops[k].outputs
  {
    var a, c := ops[..k], ops[..k + 1];
    if n in ops[k].outputs { assert c[k] == ops[k]; }
    if Written(a, n) {
      var i :| 0 <= i < |a| && n in a[i].outputs;
      assert c[i] == a[i];
    }
    if Written(c, n) && n !in ops[k].outputs {
      var i :| 0 <= i < |c| && n in c[i].outputs;
      assert c[i] == ops[i] && a[i] == ops[i];
    }
  }

  lemma ComputeStep<V>(sem: Sem<V>, b: Block, k: nat, ref: Machine<V>, m: Machine<V>)
    requires Ready(b) && k < |b.ops| && Computing(b.ops[k]) && Simulates(sem, b, k, ref, m)
    ensures var op := b.ops[k];
      Simulates(sem, b, k + 1, ExecOp(Reference(sem), ref, op),
                ExecOp(sem, m, RenameIn(RenameOut(op, FetchTargets(b.ops)), Mapped(b))))
  {
    var op, fs, ms := b.ops[k], FetchTargets(b.ops), Mapped(b);
    var op' := RenameIn(RenameOut(op, fs), ms);
    assert Plain(op);
    var args, args' := GetAll(sem, ref.env, op.inputs), GetAll(sem, m.env, op'.inputs);
    assert args == args' by {
      forall i | 0 <= i < |args| ensures args[i] == args'[i] {
        var n := op.inputs[i];
        if n in fs {
          var _, _ := FetchIndex(b, n);
        }
        ReadAgrees(sem, b, k, ref.env, m.env, n);
      }
    }
    assert GetAll(Reference(sem), ref.env, op.inputs) == args;
    var r, e := Write(ref.env, op.outputs, Computes(Reference(sem), ref.env, op), 0),
                Write(m.env, op'.outputs, Computes(sem, m.env, op'), 0);
    assert op.outputs[0..] == op.outputs && op'.outputs[0..] == op'.outputs;
    forall n | !IsHalf(n) ensures Agree(sem, b, b.ops[..k + 1], r, e, n) {
      ComputedAgrees(sem, b, k, ref, m, Computes(Reference(sem), ref.env, op), Computes(sem, m.env, op'), n);
    }
  }

  lemma ComputedAgrees<V>(sem: Sem<V>, b: Block, k: nat, ref: Machine<V>, m: Machine<V>, g: nat -> V, g': nat -> V, n: string)
    requires Ready(b) && k < |b.ops| && Computing(b.ops[k]) && Simulates(sem, b, k, ref, m) && !IsHalf(n)
    requires forall j: nat :: g(j) == g'(j)
    ensures Agree(sem, b, b.ops[..k + 1], Write(ref.env, b.ops[k].outputs, g, 0),
                  Write(m.env, RenameAll(b.ops[k].outputs, FetchTargets(b.ops)), g', 0), n)
  {
    var outs, fs := b.ops[k].outputs, FetchTargets(b.ops);
    assert Plain(b.ops[k]);
    assert outs[0..] == outs && RenameAll(outs, fs)[0..] == RenameAll(outs, fs);
    WriteExt(m.env, RenameAll(outs, fs), g, g', 0);
    TargetsDisjoint(b, n);
    WrittenNext(b.ops, k, n);
    if n in outs {
      if n in FeedTargets(b.ops) { var _ := FeedIndex(b, n); }
      WriteSame(ref.env, m.env, outs, fs, g, 0, n);
    } else {
      RenamedMiss(outs, fs, n);
      WriteOther(ref.env, outs, g, 0, n);
      WriteOther(m.env, RenameAll(outs, fs), g, 0, n);
      WriteOther(m.env, RenameAll(outs, fs), g, 0, Half(n));
    }
  }

  lemma {:induction false} WriteExt<V>(env: map<string, V>, outs: seq<string>, g: nat -> V, g': nat -> V, j: nat)
    requires j <= |outs| && forall i: nat :: g(i) == g'(i)
    ensures Write(env, outs, g, j) == Write(env, outs, g', j)
    decreases |outs| - j
  {
    if j < |outs| { WriteExt(env[outs[j] := g(j)], outs, g, g', j + 1); }
  }

  lemma FeedStep<V>(sem: Sem<V>, b: Block, k: nat, ref: Machine<V>, m: Machine<V>)
    requires Ready(b) && k < |b.ops| && b.ops[k].kind.Feed? && Simulates(sem, b, k, ref, m)
    ensures Simulates(sem, b, k + 1, ExecOp(Reference(sem), ref, b.ops[k]),
                      Exec(sem, m, Image(b.ops[k], FetchTargets(b.ops), Mapped(b))))
  {
    var op := b.ops[k];
    assert Plain(op);
    var x := op.outputs[0];
    assert x in FeedTargets(b.ops) && x in op.outputs;
    TargetsDisjoint(b, x);
    var op' := RenameIn(RenameOut(op, FetchTargets(b.ops)), Mapped(b));
    assert op'.outputs == [x];
    FeedExec(sem, m, op', x);
    var ref' := ExecOp(Reference(sem), ref, op);
    var m' := Exec(sem, m, [op', CastIn(x)]);
    forall n | !IsHalf(n) ensures Agree(sem, b, b.ops[..k + 1], ref'.env, m'.env, n) {
      FedAgrees(sem, b, k, ref.env, m.env, x, sem.feed(op.attr), n);
    }
  }

  lemma FeedExec<V>(sem: Sem<V>, m: Machine<V>, op: Op, x: string)
    requires op.kind.Feed? && op.outputs == [x]
    ensures Exec(sem, m, [op, CastIn(x)])
         == m.(env := m.env[x := sem.feed(op.attr)][Half(x) := sem.toHalf(sem.feed(op.attr))])
  {
    ExecTwo(sem, m, op, CastIn(x));
  }

  lemma FetchExec<V>(sem: Sem<V>, m: Machine<V>, op: Op, x: string)
    requires op.kind.Fetch? && op.inputs == [x]
    ensures var v := sem.toFull(Get(sem, m.env, Half(x)));
      Exec(sem, m, [CastOut(x), op]) == Machine(m.env[x := v], m.fetched + [(op.attr, sem.deliver(v))])
  {
    ExecTwo(sem, m, CastOut(x), op);
  }

  lemma FedAgrees<V>(sem: Sem<V>, b: Block, k: nat, ref: map<string, V>, env: map<string, V>, x: string, v: V, n: string)
    requires Ready(b) && k < |b.ops| && b.ops[k].outputs == [x] && x in FeedTargets(b.ops) && !IsHalf(x) && !IsHalf(n)
    requires Agree(sem, b, b.ops[..k], ref, env, n)
    ensures Agree(sem, b, b.ops[..k + 1], ref[x := sem.toHalf(v)], env[x := v][Half(x) := sem.toHalf(v)], n)
  {
    WrittenNext(b.ops, k, n);
    HalfProps(x);
    if n != x { HalfApart(n, x, {}); }
  }

  lemma FetchStep<V>(sem: Sem<V>, b: Block, k: nat, ref: Machine<V>, m: Machine<V>)
    requires Ready(b) && k < |b.ops| && b.ops[k].kind.Fetch? && Simulates(sem, b, k, ref, m)
    ensures Simulates(sem, b, k + 1, ExecOp(Reference(sem), ref, b.ops[k]),
                      Exec(sem, m, Image(b.ops[k], FetchTargets(b.ops), Mapped(b))))
  {
    var op := b.ops[k];
    assert Plain(op);
    var x := op.inputs[0];
    assert x in FetchTargets(b.ops) && x in op.inputs;
    TargetsDisjoint(b, x);
    var op' := RenameIn(RenameOut(op, FetchTargets(b.ops)), Mapped(b));
    assert op'.inputs == [x];
    FetchExec(sem, m, op', x);
    var ref' := ExecOp(Reference(sem), ref, op);
    var m' := Exec(sem, m, [CastOut(x), op']);
    var _, w := FetchIndex(b, x);
    assert b.ops[..k][w] == b.ops[w] && Written(b.ops[..k], x);
    assert Agree(sem, b, b.ops[..k], ref.env, m.env, x);
    HalfProps(x);
    forall n | !IsHalf(n) ensures Agree(sem, b, b.ops[..k + 1], ref'.env, m'.env, n) {
      FetchedAgrees(sem, b, k, ref.env, m.env, x, sem.toFull(Get(sem, m.env, Half(x))), n);
    }
  }

  lemma FetchedAgrees<V>(sem: Sem<V>, b: Block, k: nat, ref: map<string, V>, env: map<string, V>, x: string, v: V, n: string)
    requires Ready(b) && k < |b.ops| && b.ops[k].kind.Fetch? && x in FetchTargets(b.ops) && !IsHalf(x) && !IsHalf(n)
    requires Agree(sem, b, b.ops[..k], ref, env, n)
    ensures Agree(sem, b, b.ops[..k + 1], ref, env[x := v], n)
  {
    WrittenNext(b.ops, k, n);
    HalfProps(n);
    if n in FeedTargets(b.ops) { var _ := FeedIndex(b, n); }
    if n in FetchTargets(b.ops) { var _, _ := FetchIndex(b, n); }
  }

  lemma ExecTwo<V>(sem: Sem<V>, m: Machine<V>, p: Op, q: Op)
    ensures Exec(sem, m, [p, q]) == ExecOp(sem, ExecOp(sem, m, p), q)
    ensures Exec(sem, m, [p]) == ExecOp(sem, m, p)
  {
    assert [p, q][..1] == [p] && [p][..0] == [];
    assert Exec(sem, m, []) == m;
  }

  lemma {:induction false} ExecConcat<V>(sem: Sem<V>, m: Machine<V>, a: seq<Op>, c: seq<Op>)
    ensures Exec(sem, m, a + c) == Exec(sem, Exec(sem, m, a), c)
    decreases |c|
  {
    if c == [] {
      assert a + c == a;
    } else {
      assert (a + c)[..|a + c| - 1] == a + c[..|c| - 1];
      ExecConcat(sem, m, a, c[..|c| - 1]);
    }
  }

  /** One op of the original, and its image. */
  lemma SimulatesOp<V>(sem: Sem<V>, b: Block, k: nat, r: Machine<V>, e: Machine<V>)
    requires Ready(b) && k < |b.ops| && Simulates(sem, b, k, r, e)
    ensures Simulates(sem, b, k + 1, ExecOp(Reference(sem), r, b.ops[k]),
                      Exec(sem, e, Image(b.ops[k], FetchTargets(b.ops), Mapped(b))))
  {
    var fs, ms, op := FetchTargets(b.ops), Mapped(b), b.ops[k];
    assert Plain(op);
    if op.kind.Feed? { FeedStep(sem, b, k, r, e); }
    else if op.kind.Fetch? { FetchStep(sem, b, k, r, e); }
    else {
      ExecTwo(sem, e, RenameIn(RenameOut(op, fs), ms), op);
      ComputeStep(sem, b, k, r, e);
    }
  }

  lemma {:induction false} SimulatesPrefix<V>(sem: Sem<V>, b: Block, k: nat, ref: Machine<V>, m: Machine<V>)
    requires Ready(b) && k <= |b.ops| && Simulates(sem, b, 0, ref, m)
    ensures Simulates(sem, b, k, Exec(Reference(sem), ref, b.ops[..k]),
                      Exec(sem, m, Images(b.ops[..k], FetchTargets(b.ops), Mapped(b))))
  {
    var fs, ms := FetchTargets(b.ops), Mapped(b);
    if k == 0 {
      assert b.ops[..0] == [];
    } else {
      var before := b.ops[..k - 1];
      assert b.ops[..k] == before + [b.ops[k - 1]] && b.ops[..k][..k - 1] == before;
      SimulatesPrefix(sem, b, k - 1, ref, m);
      var r, e := Exec(Reference(sem), ref, before), Exec(sem, m, Images(before, fs, ms));
      assert Exec(sem, m, Images(b.ops[..k], fs, ms)) == Exec(sem, e, Image(b.ops[k - 1], fs, ms)) by {
        ExecConcat(sem, m, Images(before, fs, ms), Image(b.ops[k - 1], fs, ms));
      }
      SimulatesOp(sem, b, k - 1, r, e);
    }
  }

  /** `scope'` is `scope` with a float16 copy of every converted parameter. */
  ghost predicate ScopeConverted<V>(toHalf: V -> V, ps: set<string>, scope: map<string, V>, scope': map<string, V>) {
    && (forall p | p in ps :: p in scope && Half(p) in scope' && scope'[Half(p)] == toHalf(scope[p]))
    && (forall n | !IsHalf(n) :: (n in scope' <==> n in scope) && (n in scope ==> scope'[n] == scope[n]))
  }

  function CastParams<V>(sem: Sem<V>, ps: set<string>, scope: map<string, V>): map<string, V> {
    map n | n in scope :: if n in ps then sem.toHalf(scope[n]) else scope[n]
  }

  /** Transpiling preserves meaning: the transpiled ops over the converted scope fetch exactly
      what the original ops compute when each feed and each converted parameter is replaced by
      its float16 cast and each fetched value is cast back. */
  lemma TranspilePreservesMeaning<V>(sem: Sem<V>, b: Block, scope: map<string, V>, scope': map<string, V>)
    requires Ready(b) && ScopeConverted(sem.toHalf, Params(b), scope, scope')
    ensures Exec(sem, Machine(scope', []), Result(b)).fetched
         == Exec(Reference(sem), Machine(CastParams(sem, Params(b), scope), []), b.ops).fetched
  {
    var ref, m := Machine(CastParams(sem, Params(b), scope), []), Machine(scope', []);
    forall n | !IsHalf(n) ensures Agree(sem, b, b.ops[..0], ref.env, m.env, n) { TargetsDisjoint(b, n); }
    SimulatesPrefix(sem, b, |b.ops|, ref, m);
    assert b.ops[..|b.ops|] == b.ops;
  }

  /** If the casts lose nothing, the fetched results are those of the original program. */
  lemma IdentityCastChangesNothing<V(!new)>(sem: Sem<V>, b: Block, scope: map<string, V>, scope': map<string, V>)
    requires Ready(b) && ScopeConverted(sem.toHalf, Params(b), scope, scope')
    requires forall v :: sem.toHalf(v) == v && sem.toFull(v) == v
    ensures Exec(sem, Machine(scope', []), Result(b)).fetched == Exec(sem, Machine(scope, []), b.ops).fetched
  {
    TranspilePreservesMeaning(sem, b, scope, scope');
    assert CastParams(sem, Params(b), scope) == scope;
    ReferenceIsIdentity(sem, Machine(scope, []), b.ops);
  }

  lemma {:induction false} ReferenceIsIdentity<V(!new)>(sem: Sem<V>, m: Machine<V>, ops: seq<Op>)
    requires forall v :: sem.toHalf(v) == v && sem.toFull(v) == v
    ensures Exec(Reference(sem), m, ops) == Exec(sem, m, ops)
  {
    if ops != [] {
      var op := ops[|ops| - 1];
      ReferenceIsIdentity(sem, m, ops[..|ops| - 1]);
      var e := Exec(sem, m, ops[..|ops| - 1]);
      WriteExt(e.env, op.outputs, Computes(Reference(sem), e.env, op), Computes(sem, e.env, op), 0) by {
        assert GetAll(Reference(sem), e.env, op.inputs) == GetAll(sem, e.env, op.inputs);
      }
    }
  }

  // ------------------------------------------------------------------ structure

  lemma {:induction false} ImagesConcat(a: seq<Op>, c: seq<Op>, fs: set<string>, ms: set<string>)
    ensures Images(a + c, fs, ms) == Images(a, fs, ms) + Images(c, fs, ms)
    decreases |c|
  {
    if c == [] {
      assert a + c == a;
    } else {
      CutLast(a, c);
      ImagesConcat(a, c[..|c| - 1], fs, ms);
      Assoc(Images(a, fs, ms), Images(c[..|c| - 1], fs, ms), Image(c[|c| - 1], fs, ms));
    }
  }

  function StripAll(ns: seq<string>): (r: seq<string>)
    ensures |r| == |ns| && forall i | 0 <= i < |ns| :: r[i] == Strip(ns[i])
  {
    seq(|ns|, i requires 0 <= i < |ns| => Strip(ns[i]))
  }

  /** What is left of one op once casts are erased and renames undone. */
  function Kept(op: Op): seq<Op> {
    if op.kind.Cast? then [] else [op.(inputs := StripAll(op.inputs), outputs := StripAll(op.outputs))]
  }

  function Erase(ops: seq<Op>): seq<Op> {
    if ops == [] then [] else Erase(ops[..|ops| - 1]) + Kept(ops[|ops| - 1])
  }

  function Ends(ops: seq<Op>): nat {
    if ops == [] then 0
    else Ends(ops[..|ops| - 1]) + if ops[|ops| - 1].kind.Feed? || ops[|ops| - 1].kind.Fetch? then 1 else 0
  }

  lemma {:induction false} EraseConcat(a: seq<Op>, c: seq<Op>)
    ensures Erase(a + c) == Erase(a) + Erase(c)
    decreases |c|
  {
    if c == [] {
      assert a + c == a;
    } else {
      CutLast(a, c);
      EraseConcat(a, c[..|c| - 1]);
      Assoc(Erase(a), Erase(c[..|c| - 1]), Kept(c[|c| - 1]));
    }
  }

  lemma StripRename(ns: seq<string>, s: set<string>)
    requires forall n | n in ns :: !IsHalf(n)
    ensures StripAll(RenameAll(ns, s)) == ns
  {
    forall i | 0 <= i < |ns| ensures StripAll(RenameAll(ns, s))[i] == ns[i] { HalfProps(ns[i]); }
  }

  lemma EraseImage(op: Op, fs: set<string>, ms: set<string>)
    requires Plain(op)
    ensures Erase(Image(op, fs, ms)) == [op]
  {
    var op' := RenameIn(RenameOut(op, fs), ms);
    StripRename(op.inputs, ms);
    StripRename(op.outputs, fs);
    assert [op'][..0] == [] && Erase([]) == [];
    assert Erase([op']) == [op];
    forall c: Op | c.kind.Cast? ensures Erase([op', c]) == [op] && Erase([c, op']) == [op] {
      assert [op', c][..1] == [op'] && [c, op'][..1] == [c] && [c][..0] == [];
    }
  }

  /** Erasing the casts and undoing the renames gives back the original op list, and there is
      exactly one new op for every feed and fetch op. */
  lemma {:induction false} ErasureRestores(ops: seq<Op>, fs: set<string>, ms: set<string>)
    requires forall i | 0 <= i < |ops| :: Plain(ops[i])
    ensures Erase(Images(ops, fs, ms)) == ops && |Images(ops, fs, ms)| == |ops| + Ends(ops)
  {
    if ops != [] {
      var init, op := ops[..|ops| - 1], ops[|ops| - 1];
      assert Plain(op) && ops == init + [op];
      ErasureRestores(init, fs, ms);
      EraseImage(op, fs, ms);
      EraseConcat(Images(init, fs, ms), Image(op, fs, ms));
    }
  }

  // ------------------------------------------------------------- batch_norm is left alone

  /** Some batch_norm op of `ops` has `n` among its inputs. */
  ghost predicate ReadByNorm(ops: seq<Op>, n: string) {
    exists i | 0 <= i < |ops| :: ops[i].kind.BatchNorm? && n in ops[i].inputs
  }

  lemma {:induction false} NormInputsAre(ops: seq<Op>, n: string)
    ensures n in NormInputs(ops) <==> ReadByNorm(ops, n)
  {
    if ops != [] {
      var init, op := ops[..|ops| - 1], ops[|ops| - 1];
      NormInputsAre(init, n);
      if ReadByNorm(init, n) {
        var i :| 0 <= i < |init| && init[i].kind.BatchNorm? && n in init[i].inputs;
        assert ops[i] == init[i];
      }
      if i :| 0 <= i < |ops| && ops[i].kind.BatchNorm? && n in ops[i].inputs {
        assert i < |init| ==> init[i] == ops[i];
      }
    }
  }

  /** Converted are exactly the persistable variables, but for feed and fetch lists, that no batch_norm op reads. */
  lemma ConvertedExactly(b: Block, n: string)
    ensures n in Params(b) <==>
      n in b.vars && b.vars[n].persistable && b.vars[n].typ != FeedMinibatch && b.vars[n].typ != FetchList
      && !ReadByNorm(b.ops, n)
  {
    NormInputsAre(b.ops, n);
  }

  /** `op'` is `op` under new names, except that persistable inputs keep theirs. */
  predicate NormOf(vars: map<string, Var>, op: Op, op': Op) {
    && op'.kind == op.kind && op'.attr == op.attr && |op'.inputs| == |op.inputs| && |op'.outputs| == |op.outputs|
    && forall k | 0 <= k < |op.inputs| && op.inputs[k] in vars && vars[op.inputs[k]].persistable :: op'.inputs[k] == op.inputs[k]
  }

  /** The batch_norm ops are those of before, and read their persistable inputs under the old names. */
  ghost predicate NormsKept(vars: map<string, Var>, ops: seq<Op>, ops': seq<Op>) {
    && (forall i | 0 <= i < |ops| && ops[i].kind.BatchNorm? :: exists j | 0 <= j < |ops'| :: NormOf(vars, ops[i], ops'[j]))
    && (forall j | 0 <= j < |ops'| && ops'[j].kind.BatchNorm? :: exists i | 0 <= i < |ops| :: NormOf(vars, ops[i], ops'[j]))
  }

  lemma {:induction false} ImagesHave(ops: seq<Op>, fs: set<string>, ms: set<string>, op: Op)
    ensures op in Images(ops, fs, ms) <==> exists i | 0 <= i < |ops| :: op in Image(ops[i], fs, ms)
  {
    if ops != [] {
      var init := ops[..|ops| - 1];
      ImagesHave(init, fs, ms, op);
      if op in Images(init, fs, ms) {
        var i :| 0 <= i < |init| && op in Image(init[i], fs, ms);
        assert ops[i] == init[i];
      }
      if i :| 0 <= i < |ops| && op in Image(ops[i], fs, ms) {
        assert i < |init| ==> init[i] == ops[i];
      }
    }
  }

  lemma NormImage(b: Block, i: nat)
    requires Ready(b) && i < |b.ops| && b.ops[i].kind.BatchNorm?
    ensures NormOf(b.vars, b.ops[i], RenameIn(RenameOut(b.ops[i], FetchTargets(b.ops)), Mapped(b)))
  {
    var op := b.ops[i];
    forall k | 0 <= k < |op.inputs| && op.inputs[k] in b.vars && b.vars[op.inputs[k]].persistable
      ensures op.inputs[k] !in Mapped(b)
    {
      var n := op.inputs[k];
      assert ReadByNorm(b.ops, n);
      ConvertedExactly(b, n);
      if n in FeedTargets(b.ops) { var _ := FeedIndex(b, n); }
    }
  }

  lemma NormSurvives(b: Block, i: nat) returns (j: nat)
    requires Ready(b) && i < |b.ops| && b.ops[i].kind.BatchNorm?
    ensures j < |Result(b)| && NormOf(b.vars, b.ops[i], Result(b)[j])
  {
    var fs, ms := FetchTargets(b.ops), Mapped(b);
    var op' := RenameIn(RenameOut(b.ops[i], fs), ms);
    NormImage(b, i);
    assert Image(b.ops[i], fs, ms) == [op'] && op' in Image(b.ops[i], fs, ms);
    ImagesHave(b.ops, fs, ms, op');
    j :| 0 <= j < |Result(b)| && Result(b)[j] == op';
  }

  lemma NormComesFrom(b: Block, j: nat) returns (i: nat)
    requires Ready(b) && j < |Result(b)| && Result(b)[j].kind.BatchNorm?
    ensures i < |b.ops| && NormOf(b.vars, b.ops[i], Result(b)[j])
  {
    var fs, ms, op' := FetchTargets(b.ops), Mapped(b), Result(b)[j];
    assert op' in Result(b);
    ImagesHave(b.ops, fs, ms, op');
    i :| 0 <= i < |b.ops| && op' in Image(b.ops[i], fs, ms);
    NormImage(b, i);
  }

  lemma NormsAreKept(b: Block)
    requires Ready(b)
    ensures NormsKept(b.vars, b.ops, Result(b))
  {
    forall i | 0 <= i < |b.ops| && b.ops[i].kind.BatchNorm?
      ensures exists j | 0 <= j < |Result(b)| :: NormOf(b.vars, b.ops[i], Result(b)[j])
    {
      var j := NormSurvives(b, i);
    }
    forall j | 0 <= j < |Result(b)| && Result(b)[j].kind.BatchNorm?
      ensures exists i | 0 <= i < |b.ops| :: NormOf(b.vars, b.ops[i], Result(b)[j])
    {
      var i := NormComesFrom(b, j);
    }
  }

  // --------------------------------------------------------------------- names

  function Names(op: Op): set<string> { Elements(op.inputs) + Elements(op.outputs) }

  function Used(ops: seq<Op>): set<string> {
    if ops == [] then {} else Used(ops[..|ops| - 1]) + Names(ops[|ops| - 1])
  }

  function Halves(s: set<string>): set<string> { set n | n in s :: Half(n) }

  /** What may be declared after the pass: the block's variables without the converted parameters,
      and a float16 variable for each feed target, fetch target and converted parameter. */
  function Declarable(b: Block): set<string> {
    (b.vars.Keys - Params(b)) + Halves(FeedTargets(b.ops) + FetchTargets(b.ops) + Params(b))
  }

  lemma {:induction false} UsedConcat(a: seq<Op>, c: seq<Op>)
    ensures Used(a + c) == Used(a) + Used(c)
    decreases |c|
  {
    if c == [] {
      assert a + c == a;
    } else {
      assert (a + c)[..|a + c| - 1] == a + c[..|c| - 1];
      UsedConcat(a, c[..|c| - 1]);
    }
  }

  /** Some op of `ops` reads or writes `n`. */
  ghost predicate UsedBy(ops: seq<Op>, n: string) {
    exists i | 0 <= i < |ops| :: n in ops[i].inputs || n in ops[i].outputs
  }

  lemma {:induction false} UsedAre(ops: seq<Op>, n: string)
    ensures n in Used(ops) <==> UsedBy(ops, n)
  {
    if ops != [] {
      var init := ops[..|ops| - 1];
      UsedAre(init, n);
      if UsedBy(init, n) {
        var i :| 0 <= i < |init| && (n in init[i].inputs || n in init[i].outputs);
        assert ops[i] == init[i];
      }
      if i :| 0 <= i < |ops| && (n in ops[i].inputs || n in ops[i].outputs) {
        assert i < |init| ==> init[i] == ops[i];
      }
    }
  }

  lemma RenamedUses(b: Block, op: Op)
    requires Names(op) <= b.vars.Keys && (forall p | p in Params(b) :: p !in op.outputs) && !op.kind.Cast?
    ensures Names(RenameIn(RenameOut(op, FetchTargets(b.ops)), Mapped(b))) <= Declarable(b)
  {
    var op' := RenameIn(RenameOut(op, FetchTargets(b.ops)), Mapped(b));
    forall i | 0 <= i < |op.inputs| ensures op'.inputs[i] in Declarable(b) {
      assert op.inputs[i] in Names(op);
    }
    forall i | 0 <= i < |op.outputs| ensures op'.outputs[i] in Declarable(b) {
      assert op.outputs[i] in Names(op) && op.outputs[i] in op.outputs;
    }
  }

  /** A target and its float16 variable are declared. */
  lemma TargetDeclared(b: Block, x: string)
    requires Ready(b) && x in b.vars && (x in FeedTargets(b.ops) || x in FetchTargets(b.ops))
    ensures x in Declarable(b) && Half(x) in Declarable(b)
  {
    TargetsDisjoint(b, x);
  }

  lemma ImageUses(b: Block, k: nat)
    requires Ready(b) && k < |b.ops| && Names(b.ops[k]) <= b.vars.Keys
    ensures Used(Image(b.ops[k], FetchTargets(b.ops), Mapped(b))) <= Declarable(b)
  {
    var op, fs, ms := b.ops[k], FetchTargets(b.ops), Mapped(b);
    var op' := RenameIn(RenameOut(op, fs), ms);
    assert Plain(op) && op in b.ops;
    assert Names(op') <= Declarable(b) by { RenamedUses(b, op); }
    UsedPair(op', op');
    if op.kind.Feed? {
      var x := op.outputs[0];
      assert x in FeedTargets(b.ops) && x in Names(op);
      TargetDeclared(b, x);
      UsedPair(op', CastIn(x));
    } else if op.kind.Fetch? {
      var x := op.inputs[0];
      assert x in FetchTargets(b.ops) && x in Names(op);
      TargetDeclared(b, x);
      UsedPair(CastOut(x), op');
    }
  }

  lemma UsedPair(p: Op, q: Op)
    ensures Used([p, q]) == Names(p) + Names(q) && Used([p]) == Names(p)
  {
    assert [p, q][..1] == [p] && [p][..0] == [] && Used([]) == {};
  }

  lemma {:induction false} ResultUses(b: Block, k: nat)
    requires Ready(b) && Used(b.ops) <= b.vars.Keys && k <= |b.ops| && Used(b.ops[..k]) <= b.vars.Keys
    ensures Used(Images(b.ops[..k], FetchTargets(b.ops), Mapped(b))) <= Declarable(b)
  {
    if k > 0 {
      assert b.ops[..k][..k - 1] == b.ops[..k - 1];
      ResultUses(b, k - 1);
      ImageUses(b, k - 1);
      UsedConcat(Images(b.ops[..k - 1], FetchTargets(b.ops), Mapped(b)),
                 Image(b.ops[k - 1], FetchTargets(b.ops), Mapped(b)));
    }
  }
}
