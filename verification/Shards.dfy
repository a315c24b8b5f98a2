/** The sharded parameter store as the client uses it: handlers of one parameter server
    (go/pserver/service.go) and the client's sharding, fan-out and fan-in (go/pserver/client/client.go).
    Each RPC handler is one step. The optimizer's arithmetic and the name hash are uninterpreted. */
module Shards {
  import opened Common

  datatype Gradient = Gradient(name: string, elementType: int, content: seq<int>)

  datatype Optimizer<O> = Optimizer(elementType: int, contentLen: nat, opt: O)

  datatype Parameter = Parameter(name: string, elementType: int, content: seq<int>)

  /** `update` gives the optimizer after a gradient and the error code, `weights` its current weights. */
  datatype Library<!O> = Library(update: (O, seq<int>) -> (O, int), weights: O -> seq<int>)

  datatype Error = NoGradient | AlreadyInitialized | Uninitialized | NoSuchParameter(name: string)
                 | WrongElementType(name: string) | WrongLength(name: string) | UpdateFailed(code: int)

  datatype Shard<O> = Shard(initialized: bool, optMap: map<string, Optimizer<O>>)

  // ------------------------------------------------------------------- one server

  function Update<O>(lib: Library<O>, o: Optimizer<O>, g: Gradient): (Optimizer<O>, Option<Error>) {
    if o.elementType != g.elementType then (o, Some(WrongElementType(g.name)))
    else if o.contentLen != |g.content| then (o, Some(WrongLength(g.name)))
    else
      var (opt, code) := lib.update(o.opt, g.content);
      (o.(opt := opt), if code != 0 then Some(UpdateFailed(code)) else None)
  }

  predicate Matches<O>(o: Optimizer<O>, g: Gradient) { o.elementType == g.elementType && o.contentLen == |g.content| }

  function InitParamStep<O>(s: Shard<O>, p: Parameter, opt: O): (Shard<O>, Option<Error>) {
    if s.initialized then (s, Some(AlreadyInitialized))
    else (s.(optMap := s.optMap[p.name := Optimizer(p.elementType, |p.content|, opt)]), None)
  }

  function SendGradStep<O>(lib: Library<O>, s: Shard<O>, g: Gradient): (Shard<O>, Option<Error>) {
    if !s.initialized then (s, Some(Uninitialized))
    else if g.name !in s.optMap then (s, Some(NoSuchParameter(g.name)))
    else
      var (o, e) := Update(lib, s.optMap[g.name], g);
      (s.(optMap := s.optMap[g.name := o]), e)
  }

  function GetParamStep<O>(lib: Library<O>, s: Shard<O>, name: string): Option<Parameter> {
    if name !in s.optMap then None
    else Some(Parameter(name, s.optMap[name].elementType, lib.weights(s.optMap[name].opt)))
  }

  class Server<O> {
    var initialized: bool
    var optMap: map<string, Optimizer<O>>

    ghost function View(): Shard<O>
      reads this
    {
      Shard(initialized, optMap)
    }

    constructor ()
      ensures View() == Shard(false, map[])
    {
      initialized := false;
      optMap := map[];
    }

    method InitParam(p: Parameter, opt: O) returns (err: Option<Error>)
      modifies this`optMap
      ensures (View(), err) == InitParamStep(old(View()), p, opt)
      ensures initialized ==> optMap == old(optMap) && err == Some(AlreadyInitialized)
      ensures !initialized ==> err == None && optMap == old(optMap)[p.name := Optimizer(p.elementType, |p.content|, opt)]
    {
      if initialized { return Some(AlreadyInitialized); }
      optMap := optMap[p.name := Optimizer(p.elementType, |p.content|, opt)];
      err := None;
    }

    method FinishInitParams() returns (err: Option<Error>)
      modifies this`initialized
      ensures initialized && err == if old(initialized) then Some(AlreadyInitialized) else None
    {
      if initialized { return Some(AlreadyInitialized); }
      initialized := true;
      err := None;
    }

    method SendGrad(lib: Library<O>, g: Gradient) returns (err: Option<Error>)
      modifies this`optMap
      ensures (View(), err) == SendGradStep(lib, old(View()), g)
      ensures initialized && g.name in old(optMap) && Matches(old(optMap)[g.name], g) ==>
        var o := old(optMap)[g.name];
        var (opt, code) := lib.update(o.opt, g.content);
        && optMap == old(optMap)[g.name := Optimizer(o.elementType, o.contentLen, opt)]
        && err == if code == 0 then None else Some(UpdateFailed(code))
      ensures !(initialized && g.name in old(optMap) && Matches(old(optMap)[g.name], g)) ==> optMap == old(optMap)
      ensures !initialized ==> err == Some(Uninitialized)
      ensures initialized && g.name !in old(optMap) ==> err == Some(NoSuchParameter(g.name))
      ensures initialized && g.name in old(optMap) && old(optMap)[g.name].elementType != g.elementType ==>
        err == Some(WrongElementType(g.name))
      ensures initialized && g.name in old(optMap) && old(optMap)[g.name].elementType == g.elementType ==>
        old(optMap)[g.name].contentLen != |g.content| ==> err == Some(WrongLength(g.name))
    {
      if !initialized { return Some(Uninitialized); }
      if g.name !in optMap { return Some(NoSuchParameter(g.name)); }
      var (o, e) := Update(lib, optMap[g.name], g);
      optMap := optMap[g.name := o];
      err := e;
    }

    /** The handler waits until the server is initialised. */
    method GetParam(lib: Library<O>, name: string) returns (p: Option<Parameter>)
      requires initialized
      ensures p == GetParamStep(lib, View(), name)
      ensures p == if name in optMap then Some(Parameter(name, optMap[name].elementType, lib.weights(optMap[name].opt))) else None
    {
      if name !in optMap { return None; }
      p := Some(Parameter(name, optMap[name].elementType, lib.weights(optMap[name].opt)));
    }
  }

  /** The client's FinishInitParams: tell every server in turn, and stop at the first error. */
  method FinishInitParams<O>(servers: seq<Server<O>>) returns (err: Option<Error>)
    requires forall i, j | 0 <= i < j < |servers| :: servers[i] != servers[j]
    modifies servers
    ensures forall i | 0 <= i < |servers| :: servers[i].optMap == old(servers[i].optMap)
    ensures err.None? <==> forall i | 0 <= i < |servers| :: !old(servers[i].initialized)
    ensures err.None? ==> forall i | 0 <= i < |servers| :: servers[i].initialized
    ensures forall i | 0 <= i < |servers| :: servers[i].initialized <==>
      old(servers[i].initialized) || forall j | 0 <= j < i :: !old(servers[j].initialized)
  {
    for k := 0 to |servers|
      invariant forall i | 0 <= i < |servers| :: servers[i].optMap == old(servers[i].optMap)
      invariant forall i | 0 <= i < k :: servers[i].initialized && !old(servers[i].initialized)
      invariant forall i | k <= i < |servers| :: servers[i].initialized == old(servers[i].initialized)
    {
      err := servers[k].FinishInitParams();
      if err.Some? { return; }
    }
    err := None;
  }

  // ------------------------------------------------------------------- the cluster

  /** The client sends a name to server `hash(name) % n`; the hash is a 32-bit unsigned value. */
  function Home<O>(hash: string -> nat, shards: seq<Shard<O>>, name: string): (i: nat)
    requires shards != []
    ensures i < |shards|
  {
    hash(name) % |shards|
  }

  /** Home is the remainder of the hash. */
  lemma HomeIsRemainder<O>(hash: string -> nat, shards: seq<Shard<O>>, name: string, q: nat, r: nat)
    requires r < |shards| && hash(name) == q * |shards| + r
    ensures Home(hash, shards, name) == r
  {
    ModUnique(hash(name), q, r, |shards|);
  }

  ghost predicate Ready<O>(hash: string -> nat, shards: seq<Shard<O>>) {
    shards != [] && forall i | 0 <= i < |shards| :: shards[i].initialized
  }

  /** The flat map that the shards stand for, seen at one name. */
  function At<O>(hash: string -> nat, shards: seq<Shard<O>>, name: string): Option<Optimizer<O>>
    requires shards != []
  {
    var m := shards[Home(hash, shards, name)].optMap;
    if name in m then Some(m[name]) else None
  }

  function Send<O>(lib: Library<O>, hash: string -> nat, shards: seq<Shard<O>>, g: Gradient): seq<Shard<O>>
    requires shards != []
  {
    var i := Home(hash, shards, g.name);
    shards[i := SendGradStep(lib, shards[i], g).0]
  }

  /** The gradients handled in the order `gs`. */
  function SendAll<O>(lib: Library<O>, hash: string -> nat, shards: seq<Shard<O>>, gs: seq<Gradient>): (r: seq<Shard<O>>)
    requires shards != []
    ensures |r| == |shards|
    decreases |gs|
  {
    if gs == [] then shards else Send(lib, hash, SendAll(lib, hash, shards, gs[..|gs| - 1]), gs[|gs| - 1])
  }

  function ByName(gs: seq<Gradient>, name: string): seq<Gradient> {
    if gs == [] then []
    else ByName(gs[..|gs| - 1], name) + if gs[|gs| - 1].name == name then [gs[|gs| - 1]] else []
  }

  function Updates<O>(lib: Library<O>, o: Optimizer<O>, gs: seq<Gradient>): Optimizer<O>
    decreases |gs|
  {
    if gs == [] then o else Update(lib, Updates(lib, o, gs[..|gs| - 1]), gs[|gs| - 1]).0
  }

  lemma {:induction false} SendsAt<O>(lib: Library<O>, hash: string -> nat, shards: seq<Shard<O>>, gs: seq<Gradient>,
                                    i: nat, name: string)
    requires Ready(hash, shards) && i < |shards|
    ensures var m, m' := shards[i].optMap, SendAll(lib, hash, shards, gs)[i].optMap;
      && SendAll(lib, hash, shards, gs)[i].initialized
      && (name in m' <==> name in m)
      && (name in m ==> m'[name] == if Home(hash, shards, name) == i then Updates(lib, m[name], ByName(gs, name)) else m[name])
  {
    if gs != [] {
      var g, rest := gs[|gs| - 1], gs[..|gs| - 1];
      SendsAt(lib, hash, shards, rest, i, name);
      SendsAt(lib, hash, shards, rest, Home(hash, shards, g.name), name);
      if g.name == name {
        assert (ByName(rest, name) + [g])[..|ByName(rest, name)|] == ByName(rest, name);
      } else {
        assert ByName(rest, name) + [] == ByName(rest, name);
      }
    }
  }

  /** Sharding is invisible: handling gradients on the shards does to each name of the flat map exactly
      what the gradients of that name do, in their order. */
  lemma ShardsRefineFlatMap<O>(lib: Library<O>, hash: string -> nat, shards: seq<Shard<O>>, gs: seq<Gradient>, name: string)
    requires Ready(hash, shards)
    ensures var before := At(hash, shards, name);
      At(hash, SendAll(lib, hash, shards, gs), name)
      == if before.None? then None else Some(Updates(lib, before.value, ByName(gs, name)))
  {
    SendsAt(lib, hash, shards, gs, Home(hash, shards, name), name);
  }

  /** The library's update, over the contents of `gs` in turn. */
  function Applied<O>(lib: Library<O>, opt: O, gs: seq<Gradient>): O
    decreases |gs|
  {
    if gs == [] then opt else lib.update(Applied(lib, opt, gs[..|gs| - 1]), gs[|gs| - 1].content).0
  }

  lemma {:induction false} UpdatesApply<O>(lib: Library<O>, o: Optimizer<O>, gs: seq<Gradient>)
    requires forall i | 0 <= i < |gs| :: Matches(o, gs[i])
    ensures Updates(lib, o, gs) == Optimizer(o.elementType, o.contentLen, Applied(lib, o.opt, gs))
    decreases |gs|
  {
    if gs != [] { UpdatesApply(lib, o, gs[..|gs| - 1]); }
  }

  lemma {:induction false} ByNameAre(gs: seq<Gradient>, name: string, g: Gradient)
    ensures g in ByName(gs, name) <==> g in gs && g.name == name
  {
    if gs != [] {
      ByNameAre(gs[..|gs| - 1], name, g);
      assert gs == gs[..|gs| - 1] + [gs[|gs| - 1]];
    }
  }

  /** On the flat map, gradients that match a parameter are applied to it by the library, one after the other. */
  lemma GradientsAreApplied<O>(lib: Library<O>, hash: string -> nat, shards: seq<Shard<O>>, gs: seq<Gradient>, name: string)
    requires Ready(hash, shards) && At(hash, shards, name).Some?
    requires forall g | g in gs && g.name == name :: Matches(At(hash, shards, name).value, g)
    ensures var o := At(hash, shards, name).value;
      At(hash, SendAll(lib, hash, shards, gs), name)
      == Some(Optimizer(o.elementType, o.contentLen, Applied(lib, o.opt, ByName(gs, name))))
  {
    var o, mine := At(hash, shards, name).value, ByName(gs, name);
    ShardsRefineFlatMap(lib, hash, shards, gs, name);
    forall i | 0 <= i < |mine| ensures Matches(o, mine[i]) { ByNameAre(gs, name, mine[i]); }
    UpdatesApply(lib, o, mine);
  }

  /** Gradients that do not match leave the flat map as it is. */
  lemma MismatchesAreIgnored<O>(lib: Library<O>, hash: string -> nat, shards: seq<Shard<O>>, g: Gradient)
    requires Ready(hash, shards) && (At(hash, shards, g.name).Some? ==> !Matches(At(hash, shards, g.name).value, g))
    ensures Send(lib, hash, shards, g) == shards
  {
    var i := Home(hash, shards, g.name);
    var s := SendGradStep(lib, shards[i], g).0;
    if g.name in shards[i].optMap { assert shards[i].optMap[g.name := shards[i].optMap[g.name]] == shards[i].optMap; }
    assert s == shards[i] && shards[i := s] == shards;
  }

  /** Only the order among gradients of one name matters. */
  lemma SameByName<O>(lib: Library<O>, hash: string -> nat, shards: seq<Shard<O>>, gs: seq<Gradient>, hs: seq<Gradient>)
    requires Ready(hash, shards) && forall name :: ByName(gs, name) == ByName(hs, name)
    ensures SendAll(lib, hash, shards, gs) == SendAll(lib, hash, shards, hs)
  {
    var a, b := SendAll(lib, hash, shards, gs), SendAll(lib, hash, shards, hs);
    forall i | 0 <= i < |shards| ensures a[i] == b[i] {
      forall name ensures (name in a[i].optMap <==> name in b[i].optMap)
        && (name in a[i].optMap ==> a[i].optMap[name] == b[i].optMap[name])
      {
        SendsAt(lib, hash, shards, gs, i, name);
        SendsAt(lib, hash, shards, hs, i, name);
      }
      SendsAt(lib, hash, shards, gs, i, "");
      SendsAt(lib, hash, shards, hs, i, "");
      assert a[i].optMap == b[i].optMap;
    }
  }

  /** The client's InitParam: the parameter goes to its home server. */
  function InitParam<O>(hash: string -> nat, shards: seq<Shard<O>>, p: Parameter, opt: O): (seq<Shard<O>>, Option<Error>)
    requires shards != []
  {
    var i := Home(hash, shards, p.name);
    var (s, err) := InitParamStep(shards[i], p, opt);
    (shards[i := s], err)
  }

  /** InitParam sets one name of the flat map and no other, unless that name's server is initialised already. */
  lemma InitParamSetsOne<O>(hash: string -> nat, shards: seq<Shard<O>>, p: Parameter, opt: O, name: string)
    requires shards != []
    ensures var (after, err) := InitParam(hash, shards, p, opt);
      && (err.None? <==> !shards[Home(hash, shards, p.name)].initialized)
      && (err.Some? ==> after == shards)
      && |after| == |shards| && (forall i | 0 <= i < |shards| :: after[i].initialized == shards[i].initialized)
      && (err.None? ==> At(hash, after, name) == if name == p.name then Some(Optimizer(p.elementType, |p.content|, opt))
                                                 else At(hash, shards, name))
  {
    var i := Home(hash, shards, p.name);
    if shards[i].initialized { assert shards[i := shards[i]] == shards; }
  }

  // ------------------------------------------------------------- fan-out and fan-in

  /** `order` lists 0..n, each once: the order in which n goroutines are served. */
  ghost predicate Permutation(order: seq<nat>, n: nat) {
    && |order| == n && (forall i | 0 <= i < n :: order[i] < n)
    && (forall i, j | 0 <= i < j < n :: order[i] != order[j])
    && (forall k: nat | k < n :: Serves(order, k))
  }

  ghost predicate Serves(order: seq<nat>, k: nat) { exists i | 0 <= i < |order| :: order[i] == k }

  function Reordered<T>(s: seq<T>, order: seq<nat>): (r: seq<T>)
    requires |order| == |s| && forall i | 0 <= i < |s| :: order[i] < |s|
    ensures |r| == |s| && forall i | 0 <= i < |s| :: r[i] == s[order[i]]
  {
    seq(|s|, i requires 0 <= i < |s| => s[order[i]])
  }

  predicate DistinctNames(gs: seq<Gradient>) { forall i, j | 0 <= i < j < |gs| :: gs[i].name != gs[j].name }

  lemma {:induction false} ByNameOne(gs: seq<Gradient>, name: string)
    requires DistinctNames(gs)
    ensures forall k | 0 <= k < |gs| && gs[k].name == name :: ByName(gs, name) == [gs[k]]
    ensures (forall k | 0 <= k < |gs| :: gs[k].name != name) ==> ByName(gs, name) == []
  {
    if gs != [] { ByNameOne(gs[..|gs| - 1], name); }
  }

  /** SendGrads with distinct names ends in the same state for every interleaving of its goroutines. */
  lemma SendOrderIrrelevant<O>(lib: Library<O>, hash: string -> nat, shards: seq<Shard<O>>, gs: seq<Gradient>, order: seq<nat>)
    requires Ready(hash, shards) && DistinctNames(gs) && Permutation(order, |gs|)
    ensures SendAll(lib, hash, shards, Reordered(gs, order)) == SendAll(lib, hash, shards, gs)
  {
    var hs := Reordered(gs, order);
    forall i, j | 0 <= i < j < |hs| ensures hs[i].name != hs[j].name {
      assert order[i] != order[j];
      assert hs[i] == gs[order[i]] && hs[j] == gs[order[j]];
      if order[i] < order[j] { assert gs[order[i]].name != gs[order[j]].name; }
      else { assert gs[order[j]].name != gs[order[i]].name; }
    }
    forall name ensures ByName(hs, name) == ByName(gs, name) {
      ByNameOne(gs, name);
      ByNameOne(hs, name);
      if k :| 0 <= k < |gs| && gs[k].name == name {
        assert Serves(order, k);
        var i :| 0 <= i < |order| && order[i] == k;
        assert hs[i] == gs[k];
      }
    }
    SameByName(lib, hash, shards, hs, gs);
  }

  /** SendGrads refuses an empty list; otherwise it receives one error value per goroutine, in arrival order. */
  method AwaitGrads(arrivals: seq<Option<Error>>) returns (err: Option<Error>)
    ensures arrivals == [] ==> err == Some(NoGradient)
    ensures err.None? <==> arrivals != [] && forall i | 0 <= i < |arrivals| :: arrivals[i].None?
    ensures arrivals != [] && err.Some? ==>
      exists i :: 0 <= i < |arrivals| && arrivals[i] == err && forall j | 0 <= j < i :: arrivals[j].None?
  {
    if arrivals == [] { return Some(NoGradient); }
    var recv := 0;
    while recv < |arrivals|
      invariant 0 <= recv <= |arrivals| && forall i | 0 <= i < recv :: arrivals[i].None?
    {
      if arrivals[recv].Some? { return arrivals[recv]; }
      recv := recv + 1;
    }
    err := None;
  }

  datatype Reply = Reply(idx: int, param: Parameter, err: Option<Error>)

  predicate SortedByIdx(rs: seq<Reply>) { forall i, j | 0 <= i < j < |rs| :: rs[i].idx < rs[j].idx }

  /** sort.Sort by index, for replies whose indices differ. */
  method SortByIdx(arrivals: seq<Reply>) returns (rs: seq<Reply>)
    requires forall i, j | 0 <= i < j < |arrivals| :: arrivals[i].idx != arrivals[j].idx
    ensures |rs| == |arrivals| && SortedByIdx(rs) && SameMembers(rs, arrivals)
  {
    rs := [];
    for n := 0 to |arrivals|
      invariant |rs| == n && SortedByIdx(rs) && SameMembers(rs, arrivals[..n])
    {
      var x, k := arrivals[n], |rs|;
      while k > 0 && rs[k - 1].idx > x.idx
        invariant 0 <= k <= |rs| && forall i | k <= i < |rs| :: x.idx < rs[i].idx
      {
        k := k - 1;
      }
      Inserted(rs, arrivals, n, k);
      rs := rs[..k] + [x] + rs[k..];
    }
    assert arrivals[..|arrivals|] == arrivals;
  }

  ghost predicate SameMembers(a: seq<Reply>, b: seq<Reply>) { forall x :: x in a <==> x in b }

  /** One insertion: position `k` is where the next reply belongs. */
  lemma Inserted(rs: seq<Reply>, arrivals: seq<Reply>, n: nat, k: nat)
    requires n < |arrivals| && SortedByIdx(rs) && SameMembers(rs, arrivals[..n]) && k <= |rs|
    requires forall i, j | 0 <= i < j < |arrivals| :: arrivals[i].idx != arrivals[j].idx
    requires (forall i | k <= i < |rs| :: arrivals[n].idx < rs[i].idx) && (k > 0 ==> rs[k - 1].idx <= arrivals[n].idx)
    ensures var rs' := rs[..k] + [arrivals[n]] + rs[k..];
      SortedByIdx(rs') && SameMembers(rs', arrivals[..n + 1])
  {
    var x := arrivals[n];
    if k > 0 {
      assert rs[k - 1] in rs;
      IdxNew(arrivals, n, rs[k - 1]);
    }
    InsertSorted(rs, k, x);
    InsertMembers(rs, k, x);
    assert arrivals[..n + 1] == arrivals[..n] + [x];
  }

  lemma InsertSorted(rs: seq<Reply>, k: nat, x: Reply)
    requires SortedByIdx(rs) && k <= |rs| && (k > 0 ==> rs[k - 1].idx < x.idx) && (k < |rs| ==> x.idx < rs[k].idx)
    ensures SortedByIdx(rs[..k] + [x] + rs[k..])
  {}

  lemma InsertMembers(rs: seq<Reply>, k: nat, x: Reply)
    requires k <= |rs|
    ensures forall y :: y in rs[..k] + [x] + rs[k..] <==> y in rs || y == x
  {
    assert rs == rs[..k] + rs[k..];
  }

  lemma IdxNew(arrivals: seq<Reply>, n: nat, r: Reply)
    requires n < |arrivals| && r in arrivals[..n]
    requires forall i, j | 0 <= i < j < |arrivals| :: arrivals[i].idx != arrivals[j].idx
    ensures r.idx != arrivals[n].idx
  {
    var i :| 0 <= i < n && arrivals[..n][i] == r;
  }

  /** n sorted distinct indices below n are 0, 1, ..., n - 1. */
  lemma {:induction false} SortedDense(rs: seq<Reply>, lo: int, hi: int, i: nat)
    requires SortedByIdx(rs) && |rs| == hi - lo && (forall k | 0 <= k < |rs| :: lo <= rs[k].idx < hi) && i < |rs|
    ensures rs[i].idx == lo + i
    decreases |rs|
  {
    var last := |rs| - 1;
    if last > 0 {
      forall k | 0 <= k < last ensures rs[k].idx < hi - 1 { assert rs[k].idx < rs[last].idx; }
      SortedDense(rs[..last], lo, hi - 1, if i < last then i else 0);
      SortedDense(rs[..last], lo, hi - 1, last - 1);
    }
  }

  /** What GetParams comes to; with no names it waits for a reply that never arrives. */
  datatype Answer = Params(ps: seq<Parameter>) | Refused(err: Error) | WaitsForEver

  /** For every arrival order of the goroutines' replies, GetParams returns an error if and only if some reply
      has one, and otherwise the reply for names[i] at position i. */
  method GetParams(arrivals: seq<Reply>, ghost replies: seq<Reply>, ghost order: seq<nat>) returns (r: Answer)
    requires forall i | 0 <= i < |replies| :: replies[i].idx == i
    requires Permutation(order, |replies|) && arrivals == Reordered(replies, order)
    ensures r.WaitsForEver? <==> replies == []
    ensures r.Refused? <==> exists i :: 0 <= i < |replies| && replies[i].err.Some?
    ensures r.Refused? ==> exists i :: 0 <= i < |replies| && replies[i].err == Some(r.err)
    ensures r.Params? ==> |r.ps| == |replies| && forall i | 0 <= i < |replies| :: r.ps[i] == replies[i].param
  {
    if arrivals == [] { return WaitsForEver; }
    var recv := 0;
    while recv < |arrivals|
      invariant 0 <= recv <= |arrivals| && forall i | 0 <= i < recv :: arrivals[i].err.None?
    {
      if arrivals[recv].err.Some? {
        assert replies[order[recv]].err == arrivals[recv].err;
        return Refused(arrivals[recv].err.value);
      }
      recv := recv + 1;
    }
    var rs := SortByIdx(arrivals);
    SortedIsReplies(arrivals, replies, order, rs);
    var ps := [];
    for i := 0 to |rs|
      invariant |ps| == i && forall k | 0 <= k < i :: ps[k] == replies[k].param
    {
      ps := ps + [rs[i].param];
    }
    r := Params(ps);
  }

  lemma SortedIsReplies(arrivals: seq<Reply>, replies: seq<Reply>, order: seq<nat>, rs: seq<Reply>)
    requires forall i | 0 <= i < |replies| :: replies[i].idx == i
    requires Permutation(order, |replies|) && arrivals == Reordered(replies, order)
    requires |rs| == |arrivals| && SortedByIdx(rs) && SameMembers(rs, arrivals)
    requires forall i | 0 <= i < |arrivals| :: arrivals[i].err.None?
    ensures rs == replies && forall i | 0 <= i < |replies| :: replies[i].err.None?
  {
    forall i | 0 <= i < |rs| ensures 0 <= rs[i].idx < |replies| && rs[i] == replies[rs[i].idx] && rs[i].err.None? {
      assert rs[i] in rs;
      var k :| 0 <= k < |arrivals| && arrivals[k] == rs[i];
      assert arrivals[k] == replies[order[k]];
    }
    forall i | 0 <= i < |rs| ensures rs[i] == replies[i] { SortedDense(rs, 0, |rs|, i); }
  }

  function ReplyOf<O>(lib: Library<O>, hash: string -> nat, shards: seq<Shard<O>>, names: seq<string>, i: nat): Reply
    requires shards != [] && i < |names|
  {
    match GetParamStep(lib, shards[Home(hash, shards, names[i])], names[i])
    case Some(p) => Reply(i, p, None)
    case None => Reply(i, Parameter("", 0, []), Some(NoSuchParameter(names[i])))
  }

  /** Without concurrent updates, GetParams reads the flat map: it fails exactly if some name is missing. */
  method GetParamsQuiet<O>(lib: Library<O>, hash: string -> nat, shards: seq<Shard<O>>, names: seq<string>, order: seq<nat>)
    returns (r: Answer)
    requires Ready(hash, shards) && Permutation(order, |names|)
    ensures r.WaitsForEver? <==> names == []
    ensures r.Refused? <==> exists i :: 0 <= i < |names| && At(hash, shards, names[i]).None?
    ensures r.Params? ==> |r.ps| == |names| && forall i | 0 <= i < |names| ::
      var o := At(hash, shards, names[i]).value; r.ps[i] == Parameter(names[i], o.elementType, lib.weights(o.opt))
  {
    var replies := seq(|names|, i requires 0 <= i < |names| => ReplyOf(lib, hash, shards, names, i));
    r := GetParams(Reordered(replies, order), replies, order);
    assert forall i | 0 <= i < |names| :: replies[i].err.Some? <==> At(hash, shards, names[i]).None?;
  }
}
