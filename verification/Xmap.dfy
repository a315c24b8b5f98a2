/** xmap_readers (benchmark/fluid/imagenet_reader.py): one reader thread, n mapping workers and
    the consuming generator over two bounded FIFO queues. Every queue operation and every access
    to the shared counter `out_order[0]` is one step; a run is any interleaving of enabled steps.
    In unordered mode the index carried by a queued sample is only bookkeeping. */
module Xmap {
  import opened Common

  datatype Msg<T> = Item(order: nat, sample: T) | End

  datatype Out<R> = Value(r: R) | OutEnd

  /** Where a worker stands. `Mapped` waits to put its result (in ordered mode it spins until the
      counter reaches its index), `Cleared` has passed that test, `Loading` and `Storing` are the
      two halves of `out_order[0] += 1`, `Returning` has taken the end token, `Reporting` has put
      it back. */
  datatype Worker<R> =
    | Idle | Mapped(order: nat, r: R) | Cleared(order: nat, r: R) | Loading | Storing(seen: nat)
    | Returning | Reporting | Exited

  /** `taken` (samples taken off the input queue) is history. */
  datatype Sys<T, R> = Sys(next: nat, readerDone: bool, inQ: seq<Msg<T>>, taken: nat, workers: seq<Worker<R>>,
                           outOrder: nat, outQ: seq<Out<R>>, yielded: seq<R>, finish: nat)

  datatype Setup<!T, !R> = Setup(input: seq<T>, mapper: T -> R, n: nat, cap: int, ordered: bool)

  datatype Action = Read | Take(i: nat) | Clear(i: nat) | Put(i: nat) | Load(i: nat) | Store(i: nat)
                  | ReturnEnd(i: nat) | ReportEnd(i: nat) | Consume

  /** Queue(maxsize) is unbounded when maxsize is not positive. */
  predicate Room(cap: int, size: nat) { cap <= 0 || size < cap }

  predicate Stopped<T, R>(c: Setup<T, R>, s: Sys<T, R>) { s.finish == c.n }

  predicate Enabled<T, R>(c: Setup<T, R>, s: Sys<T, R>, a: Action) {
    if a.Read? then !s.readerDone && Room(c.cap, |s.inQ|)
    else if a.Consume? then !Stopped(c, s) && s.outQ != []
    else
      a.i < |s.workers| &&
      var w := s.workers[a.i];
      match a
      case Take(_) => w.Idle? && s.inQ != []
      case Clear(_) => c.ordered && w.Mapped? && w.order == s.outOrder
      case Put(_) => (if c.ordered then w.Cleared? else w.Mapped?) && Room(c.cap, |s.outQ|)
      case Load(_) => w.Loading?
      case Store(_) => w.Storing?
      case ReturnEnd(_) => w.Returning? && Room(c.cap, |s.inQ|)
      case ReportEnd(_) => w.Reporting? && Room(c.cap, |s.outQ|)
  }

  function Do<T, R>(c: Setup<T, R>, s: Sys<T, R>, a: Action): Sys<T, R>
    requires Enabled(c, s, a)
  {
    match a
    case Read =>
      if s.next < |c.input| then s.(inQ := s.inQ + [Item(s.next, c.input[s.next])], next := s.next + 1)
      else s.(inQ := s.inQ + [End], readerDone := true)
    case Consume =>
      var s' := s.(outQ := s.outQ[1..]);
      if s.outQ[0].Value? then s'.(yielded := s.yielded + [s.outQ[0].r]) else s'.(finish := s.finish + 1)
    case Take(i) =>
      if s.inQ[0].Item?
      then s.(inQ := s.inQ[1..], taken := s.taken + 1,
              workers := s.workers[i := Mapped(s.inQ[0].order, c.mapper(s.inQ[0].sample))])
      else s.(inQ := s.inQ[1..], workers := s.workers[i := Returning])
    case Clear(i) => s.(workers := s.workers[i := Cleared(s.workers[i].order, s.workers[i].r)])
    case Put(i) =>
      s.(outQ := s.outQ + [Value(s.workers[i].r)], workers := s.workers[i := if c.ordered then Loading else Idle])
    case Load(i) => s.(workers := s.workers[i := Storing(s.outOrder)])
    case Store(i) => s.(outOrder := s.workers[i].seen + 1, workers := s.workers[i := Idle])
    case ReturnEnd(i) => s.(inQ := s.inQ + [End], workers := s.workers[i := Reporting])
    case ReportEnd(i) => s.(outQ := s.outQ + [OutEnd], workers := s.workers[i := Exited])
  }

  function Init<T, R>(c: Setup<T, R>): Sys<T, R> {
    Sys(0, false, [], 0, seq(c.n, _ => Idle), 0, [], [], 0)
  }

  /** The state after the steps `run`, if each is enabled in its turn. */
  function Run<T, R>(c: Setup<T, R>, run: seq<Action>): Option<Sys<T, R>> {
    if run == [] then Some(Init(c))
    else
      var p := Run(c, run[..|run| - 1]);
      if p.Some? && Enabled(c, p.value, run[|run| - 1]) then Some(Do(c, p.value, run[|run| - 1])) else None
  }

  // -------------------------------------------------------------- sums over workers

  function Sum<R>(ws: seq<Worker<R>>, f: Worker<R> -> nat): nat {
    if ws == [] then 0 else Sum(ws[..|ws| - 1], f) + f(ws[|ws| - 1])
  }

  lemma {:induction false} SumUpdate<R>(ws: seq<Worker<R>>, i: nat, w: Worker<R>, f: Worker<R> -> nat)
    requires i < |ws|
    ensures Sum(ws[i := w], f) == Sum(ws, f) - f(ws[i]) + f(w) && f(ws[i]) <= Sum(ws, f)
  {
    var n := |ws| - 1;
    if i == n {
      assert ws[i := w][..n] == ws[..n];
    } else {
      assert ws[i := w][..n] == ws[..n][i := w];
      SumUpdate(ws[..n], i, w, f);
    }
  }

  lemma {:induction false} SumAll<R>(ws: seq<Worker<R>>, f: Worker<R> -> nat, v: nat)
    requires forall i | 0 <= i < |ws| :: f(ws[i]) == v
    ensures Sum(ws, f) == v * |ws|
  {
    if ws != [] {
      SumAll(ws[..|ws| - 1], f, v);
      assert v * |ws| == v * (|ws| - 1) + v;
    }
  }

  lemma {:induction false} SumWitness<R>(ws: seq<Worker<R>>, f: Worker<R> -> nat) returns (i: nat)
    requires Sum(ws, f) > 0
    ensures i < |ws| && f(ws[i]) > 0
  {
    if f(ws[|ws| - 1]) > 0 { i := |ws| - 1; } else { i := SumWitness(ws[..|ws| - 1], f); }
  }

  function IsReturning<R>(): Worker<R> -> nat { (w: Worker<R>) => if w.Returning? then 1 else 0 }

  function IsEnded<R>(): Worker<R> -> nat { (w: Worker<R>) => if w.Returning? || w.Reporting? || w.Exited? then 1 else 0 }

  function IsExited<R>(): Worker<R> -> nat { (w: Worker<R>) => if w.Exited? then 1 else 0 }

  function Weight<R>(): Worker<R> -> nat {
    (w: Worker<R>) => match w
      case Idle => 4 case Mapped(_, _) => 9 case Cleared(_, _) => 8 case Loading => 6 case Storing(_) => 5
      case Returning => 3 case Reporting => 2 case Exited => 0
  }

  ghost function InHand<R>(r: R): Worker<R> -> nat { (w: Worker<R>) => if (w.Mapped? || w.Cleared?) && w.r == r then 1 else 0 }

  ghost function Count<R>(q: seq<R>, r: R): nat {
    if q == [] then 0 else Count(q[..|q| - 1], r) + if q[|q| - 1] == r then 1 else 0
  }

  lemma CountAppend<R>(q: seq<R>, x: R, r: R)
    ensures Count(q + [x], r) == Count(q, r) + if x == r then 1 else 0
  {
    assert (q + [x])[..|q|] == q;
  }

  lemma {:induction false} CountConcat<R>(a: seq<R>, b: seq<R>, r: R)
    ensures Count(a + b, r) == Count(a, r) + Count(b, r)
    decreases |b|
  {
    if b == [] {
      assert a + b == a;
    } else {
      CountConcat(a, b[..|b| - 1], r);
      assert (a + b)[..|a + b| - 1] == a + b[..|b| - 1];
    }
  }

  lemma {:induction false} CountIsMultiplicity<R>(q: seq<R>, r: R)
    ensures Count(q, r) == multiset(q)[r]
  {
    if q != [] {
      CountIsMultiplicity(q[..|q| - 1], r);
      assert q == q[..|q| - 1] + [q[|q| - 1]];
    }
  }

  lemma SameCounts<R>(a: seq<R>, b: seq<R>)
    requires forall r: R :: Count(a, r) == Count(b, r)
    ensures multiset(a) == multiset(b)
  {
    forall r: R ensures multiset(a)[r] == multiset(b)[r] {
      CountIsMultiplicity(a, r);
      CountIsMultiplicity(b, r);
    }
  }

  function Values<R>(q: seq<Out<R>>): seq<R> {
    if q == [] then [] else Values(q[..|q| - 1]) + if q[|q| - 1].Value? then [q[|q| - 1].r] else []
  }

  function Ends<R>(q: seq<Out<R>>): nat {
    if q == [] then 0 else Ends(q[..|q| - 1]) + if q[|q| - 1].Value? then 0 else 1
  }

  lemma ValuesAppend<R>(q: seq<Out<R>>, o: Out<R>)
    ensures Values(q + [o]) == Values(q) + (if o.Value? then [o.r] else [])
    ensures Ends(q + [o]) == Ends(q) + (if o.Value? then 0 else 1)
  {
    assert (q + [o])[..|q|] == q;
  }

  lemma {:induction false} ValuesTail<R>(q: seq<Out<R>>)
    requires q != []
    ensures Values(q) == (if q[0].Value? then [q[0].r] else []) + Values(q[1..])
    ensures Ends(q) == (if q[0].Value? then 0 else 1) + Ends(q[1..])
  {
    if |q| > 1 {
      var p := q[..|q| - 1];
      ValuesTail(p);
      assert q[1..][..|q| - 2] == p[1..];
    }
  }

  // -------------------------------------------------------------------- invariants

  function Mapping<T, R>(c: Setup<T, R>, k: nat): (r: seq<R>)
    requires k <= |c.input|
    ensures |r| == k && forall i | 0 <= i < k :: r[i] == c.mapper(c.input[i])
  {
    seq(k, i requires 0 <= i < k => c.mapper(c.input[i]))
  }

  function Items<T, R>(c: Setup<T, R>, lo: nat, hi: nat): (r: seq<Msg<T>>)
    requires lo <= hi <= |c.input|
    ensures |r| == hi - lo && forall j | 0 <= j < hi - lo :: r[j] == Item(lo + j, c.input[lo + j])
  {
    seq(hi - lo, j requires 0 <= j < hi - lo => Item(lo + j, c.input[lo + j]))
  }

  /** There is one end token: with the reader, at the back of the input queue, or in the hands of
      one worker, who finds the queue empty. */
  ghost predicate InputOk<T, R>(c: Setup<T, R>, s: Sys<T, R>) {
    && |s.workers| == c.n && s.taken <= s.next <= |c.input| && (s.readerDone ==> s.next == |c.input|)
    && Sum(s.workers, IsReturning()) <= 1
    && s.inQ == Items(c, s.taken, s.next) + (if s.readerDone && Sum(s.workers, IsReturning()) == 0 then [End] else [])
    && (Sum(s.workers, IsEnded()) > 0 ==> s.readerDone && s.taken == |c.input|)
  }

  /** Every exited worker has reported once; after the last report no value follows. */
  ghost predicate OutputOk<T, R>(c: Setup<T, R>, s: Sys<T, R>) {
    && |s.workers| == c.n
    && s.finish + Ends(s.outQ) == Sum(s.workers, IsExited()) <= c.n
    && (s.outQ != [] && Sum(s.workers, IsExited()) == c.n ==> s.outQ[|s.outQ| - 1].OutEnd?)
  }

  /** Samples taken so far are exactly those in a worker's hands, queued or yielded. */
  ghost predicate Conserves<T, R>(c: Setup<T, R>, s: Sys<T, R>, r: R) {
    && s.taken <= |c.input|
    && Count(Mapping(c, s.taken), r) == Sum(s.workers, InHand(r)) + Count(Values(s.outQ), r) + Count(s.yielded, r)
  }

  function Measure<T, R>(c: Setup<T, R>, s: Sys<T, R>): int {
    7 * (|c.input| - s.next) + 6 * (s.next - s.taken) + (if s.readerDone then 0 else 1)
    + Sum(s.workers, Weight()) + |s.outQ|
  }

  // Each step keeps them.

  lemma StepInput<T, R>(c: Setup<T, R>, s: Sys<T, R>, a: Action)
    requires InputOk(c, s) && Enabled(c, s, a)
    ensures InputOk(c, Do(c, s, a))
  {
    if a.Read? { InputRead(c, s); }
    else if a.Take? { InputTake(c, s, a.i); }
    else { InputRest(c, s, a); }
  }

  lemma InputRead<T, R>(c: Setup<T, R>, s: Sys<T, R>)
    requires InputOk(c, s) && Enabled(c, s, Read)
    ensures InputOk(c, Do(c, s, Read))
  {
    if s.next < |c.input| {
      assert Items(c, s.taken, s.next) + [Item(s.next, c.input[s.next])] == Items(c, s.taken, s.next + 1);
    }
    if Sum(s.workers, IsReturning()) > 0 {
      var i := SumWitness(s.workers, IsReturning());
      ReturningIsEnded(s.workers, i);
    }
  }

  lemma InputTake<T, R>(c: Setup<T, R>, s: Sys<T, R>, i: nat)
    requires InputOk(c, s) && Enabled(c, s, Take(i))
    ensures InputOk(c, Do(c, s, Take(i)))
  {
    var s' := Do(c, s, Take(i));
    SumUpdate(s.workers, i, s'.workers[i], IsReturning());
    SumUpdate(s.workers, i, s'.workers[i], IsEnded());
    TakeQueue(c, s);
  }

  lemma InputRest<T, R>(c: Setup<T, R>, s: Sys<T, R>, a: Action)
    requires InputOk(c, s) && Enabled(c, s, a) && !a.Read? && !a.Take?
    ensures InputOk(c, Do(c, s, a))
  {
    if !a.Consume? {
      var s' := Do(c, s, a);
      SumUpdate(s.workers, a.i, s'.workers[a.i], IsReturning());
      SumUpdate(s.workers, a.i, s'.workers[a.i], IsEnded());
    }
  }

  lemma TakeQueue<T, R>(c: Setup<T, R>, s: Sys<T, R>)
    requires InputOk(c, s) && s.inQ != []
    ensures if s.taken < s.next
      then s.inQ[0] == Item(s.taken, c.input[s.taken]) && s.inQ[1..] == Items(c, s.taken + 1, s.next) + s.inQ[s.next - s.taken..]
      else s.inQ == [End]
  {
    if s.taken < s.next {
      assert Items(c, s.taken, s.next)[1..] == Items(c, s.taken + 1, s.next);
    }
  }

  lemma ReturningIsEnded<R>(ws: seq<Worker<R>>, i: nat)
    requires i < |ws| && ws[i].Returning?
    ensures Sum(ws, IsEnded()) > 0 && Sum(ws, IsReturning()) > 0
  {
    SumUpdate(ws, i, ws[i], IsEnded());
    SumUpdate(ws, i, ws[i], IsReturning());
  }

  lemma StepOutput<T, R>(c: Setup<T, R>, s: Sys<T, R>, a: Action)
    requires OutputOk(c, s) && Enabled(c, s, a)
    ensures OutputOk(c, Do(c, s, a))
  {
    if a.Consume? { ValuesTail(s.outQ); }
    else if !a.Read? { WorkerOutput(c, s, a); }
  }

  lemma WorkerOutput<T, R>(c: Setup<T, R>, s: Sys<T, R>, a: Action)
    requires OutputOk(c, s) && Enabled(c, s, a) && !a.Read? && !a.Consume?
    ensures OutputOk(c, Do(c, s, a))
  {
    if a.Put? { PutOutput(c, s, a.i); }
    else if a.ReportEnd? { ReportOutput(c, s, a.i); }
    else { QuietOutput(c, s, a); }
  }

  lemma PutOutput<T, R>(c: Setup<T, R>, s: Sys<T, R>, i: nat)
    requires OutputOk(c, s) && Enabled(c, s, Put(i))
    ensures OutputOk(c, Do(c, s, Put(i)))
  {
    var s' := Do(c, s, Put(i));
    assert Sum(s'.workers, IsExited()) == Sum(s.workers, IsExited()) by {
      SumUpdate(s.workers, i, s'.workers[i], IsExited());
    }
    assert Sum(s.workers, IsExited()) < c.n by { NotAllExited(s.workers, i); }
    ValuesAppend(s.outQ, Value(s.workers[i].r));
  }

  lemma ReportOutput<T, R>(c: Setup<T, R>, s: Sys<T, R>, i: nat)
    requires OutputOk(c, s) && Enabled(c, s, ReportEnd(i))
    ensures OutputOk(c, Do(c, s, ReportEnd(i)))
  {
    assert Sum(s.workers[i := Exited], IsExited()) == Sum(s.workers, IsExited()) + 1 by {
      SumUpdate(s.workers, i, Exited, IsExited());
    }
    assert Sum(s.workers, IsExited()) < c.n by { NotAllExited(s.workers, i); }
    ValuesAppend(s.outQ, OutEnd);
  }

  lemma QuietOutput<T, R>(c: Setup<T, R>, s: Sys<T, R>, a: Action)
    requires OutputOk(c, s) && Enabled(c, s, a) && !a.Read? && !a.Consume? && !a.Put? && !a.ReportEnd?
    ensures OutputOk(c, Do(c, s, a))
  {
    var s' := Do(c, s, a);
    assert s'.outQ == s.outQ && s'.finish == s.finish && |s'.workers| == |s.workers|;
    assert Sum(s'.workers, IsExited()) == Sum(s.workers, IsExited()) by {
      SumUpdate(s.workers, a.i, s'.workers[a.i], IsExited());
    }
  }

  lemma {:induction false} ExitedBound<R>(ws: seq<Worker<R>>)
    ensures Sum(ws, IsExited()) <= |ws|
  {
    if ws != [] { ExitedBound(ws[..|ws| - 1]); }
  }

  lemma NotAllExited<R>(ws: seq<Worker<R>>, i: nat)
    requires i < |ws| && !ws[i].Exited?
    ensures Sum(ws, IsExited()) < |ws|
  {
    SumUpdate(ws, i, Exited, IsExited());
    ExitedBound(ws[i := Exited]);
  }

  lemma StepConserves<T, R>(c: Setup<T, R>, s: Sys<T, R>, a: Action, r: R)
    requires InputOk(c, s) && Conserves(c, s, r) && Enabled(c, s, a)
    ensures Conserves(c, Do(c, s, a), r)
  {
    if a.Consume? { ConsumeConserves(s.outQ, s.yielded, r); }
    else if a.Take? { TakeConserves(c, s, a.i, r); }
    else if !a.Read? { WorkerConserves(c, s, a, r); }
  }

  lemma TakeConserves<T, R>(c: Setup<T, R>, s: Sys<T, R>, i: nat, r: R)
    requires InputOk(c, s) && Conserves(c, s, r) && Enabled(c, s, Take(i))
    ensures Conserves(c, Do(c, s, Take(i)), r)
  {
    var s' := Do(c, s, Take(i));
    TakeQueue(c, s);
    if s.taken < s.next {
      var x := c.mapper(c.input[s.taken]);
      assert Sum(s'.workers, InHand(r)) == Sum(s.workers, InHand(r)) + (if x == r then 1 else 0) by {
        SumUpdate(s.workers, i, s'.workers[i], InHand(r));
      }
      assert Mapping(c, s.taken + 1) == Mapping(c, s.taken) + [x];
      CountAppend(Mapping(c, s.taken), x, r);
    } else {
      SumUpdate(s.workers, i, Returning, InHand(r));
    }
  }

  lemma WorkerConserves<T, R>(c: Setup<T, R>, s: Sys<T, R>, a: Action, r: R)
    requires Conserves(c, s, r) && Enabled(c, s, a) && !a.Read? && !a.Consume? && !a.Take?
    ensures Conserves(c, Do(c, s, a), r)
  {
    if a.Put? { PutStepConserves(c, s, a.i, r); }
    else if a.ReportEnd? { ReportConserves(c, s, a.i, r); }
    else { SumUpdate(s.workers, a.i, Do(c, s, a).workers[a.i], InHand(r)); }
  }

  lemma PutStepConserves<T, R>(c: Setup<T, R>, s: Sys<T, R>, i: nat, r: R)
    requires Conserves(c, s, r) && Enabled(c, s, Put(i))
    ensures Conserves(c, Do(c, s, Put(i)), r)
  {
    var s', w := Do(c, s, Put(i)), s.workers[i];
    assert Sum(s'.workers, InHand(r)) == Sum(s.workers, InHand(r)) - (if w.r == r then 1 else 0) by {
      SumUpdate(s.workers, i, s'.workers[i], InHand(r));
    }
    PutConserves(s.outQ, Value(w.r), r);
  }

  lemma ReportConserves<T, R>(c: Setup<T, R>, s: Sys<T, R>, i: nat, r: R)
    requires Conserves(c, s, r) && Enabled(c, s, ReportEnd(i))
    ensures Conserves(c, Do(c, s, ReportEnd(i)), r)
  {
    SumUpdate(s.workers, i, Exited, InHand(r));
    PutConserves(s.outQ, OutEnd, r);
  }

  lemma ConsumeConserves<R>(q: seq<Out<R>>, yielded: seq<R>, r: R)
    requires q != []
    ensures Count(Values(q), r) + Count(yielded, r)
         == Count(Values(q[1..]), r) + Count(if q[0].Value? then yielded + [q[0].r] else yielded, r)
  {
    ValuesTail(q);
    if q[0].Value? {
      CountAppend(yielded, q[0].r, r);
      CountConcat([q[0].r], Values(q[1..]), r);
      CountAppend([], q[0].r, r);
      assert [] + [q[0].r] == [q[0].r];
    } else {
      assert [] + Values(q[1..]) == Values(q[1..]);
    }
  }

  lemma PutConserves<R>(q: seq<Out<R>>, o: Out<R>, r: R)
    ensures Count(Values(q + [o]), r) == Count(Values(q), r) + if o.Value? && o.r == r then 1 else 0
  {
    ValuesAppend(q, o);
    if o.Value? { CountAppend(Values(q), o.r, r); } else { assert Values(q) + [] == Values(q); }
  }

  /** Every step decreases the measure: no run goes on for ever. */
  lemma StepMeasure<T, R>(c: Setup<T, R>, s: Sys<T, R>, a: Action)
    requires InputOk(c, s) && Enabled(c, s, a)
    ensures 0 <= Measure(c, Do(c, s, a)) < Measure(c, s)
  {
    StepInput(c, s, a);
    if a.Take? { TakeMeasure(c, s, a.i); }
    else if !a.Read? && !a.Consume? { WorkerMeasure(c, s, a); }
  }

  lemma TakeMeasure<T, R>(c: Setup<T, R>, s: Sys<T, R>, i: nat)
    requires InputOk(c, s) && Enabled(c, s, Take(i))
    ensures Measure(c, Do(c, s, Take(i))) < Measure(c, s)
  {
    SumUpdate(s.workers, i, Do(c, s, Take(i)).workers[i], Weight());
    TakeQueue(c, s);
  }

  lemma WorkerMeasure<T, R>(c: Setup<T, R>, s: Sys<T, R>, a: Action)
    requires Enabled(c, s, a) && !a.Read? && !a.Consume? && !a.Take?
    ensures Measure(c, Do(c, s, a)) < Measure(c, s)
  {
    SumUpdate(s.workers, a.i, Do(c, s, a).workers[a.i], Weight());
  }

  // ------------------------------------------------------------------- ordered mode

  predicate Holds<R>(w: Worker<R>) { w.Mapped? || w.Cleared? }

  function IsBusy<R>(): Worker<R> -> nat { (w: Worker<R>) => if w.Cleared? || w.Loading? || w.Storing? then 1 else 0 }

  function IsBumping<R>(): Worker<R> -> nat { (w: Worker<R>) => if w.Loading? || w.Storing? then 1 else 0 }

  function PutCount<T, R>(s: Sys<T, R>): nat { |s.yielded| + |Values(s.outQ)| }

  /** What worker `w` may hold when results `0..put` are out and samples `0..taken` were taken. */
  ghost predicate WorkerOk<T, R>(c: Setup<T, R>, s: Sys<T, R>, w: Worker<R>)
    requires s.taken <= |c.input|
  {
    && (Holds(w) ==> PutCount(s) <= w.order < s.taken && w.r == c.mapper(c.input[w.order]))
    && (w.Cleared? ==> w.order == s.outOrder) && (w.Storing? ==> w.seen == s.outOrder)
  }

  ghost predicate Holder<T, R>(s: Sys<T, R>, o: nat) {
    exists i | 0 <= i < |s.workers| :: Holds(s.workers[i]) && s.workers[i].order == o
  }

  ghost predicate Hands<T, R>(c: Setup<T, R>, s: Sys<T, R>) {
    && PutCount(s) <= s.taken <= |c.input|
    && (forall i | 0 <= i < |s.workers| :: WorkerOk(c, s, s.workers[i]))
    && (forall i, j | 0 <= i < j < |s.workers| && Holds(s.workers[i]) && Holds(s.workers[j]) ::
          s.workers[i].order != s.workers[j].order)
    && (forall o: nat | PutCount(s) <= o < s.taken :: Holder(s, o))
  }

  /** Results leave in index order; the indices in workers' hands are exactly those from the number
      of results put up to the number of samples taken, each held once; and at most one worker is
      between its test of the counter and its update. */
  ghost predicate InOrder<T, R>(c: Setup<T, R>, s: Sys<T, R>) {
    && Hands(c, s)
    && s.yielded + Values(s.outQ) == Mapping(c, PutCount(s))
    && Sum(s.workers, IsBusy()) <= 1
    && PutCount(s) == s.outOrder + Sum(s.workers, IsBumping())
  }

  lemma TwoBusy<R>(ws: seq<Worker<R>>, i: nat, j: nat, f: Worker<R> -> nat)
    requires i < |ws| && j < |ws| && i != j && f(ws[i]) > 0 && f(ws[j]) > 0 && f(Idle) == 0
    ensures Sum(ws, f) >= 2
  {
    SumUpdate(ws, i, Idle, f);
    SumUpdate(ws[i := Idle], j, Idle, f);
  }

  lemma OrderTake<T, R>(c: Setup<T, R>, s: Sys<T, R>, i: nat)
    requires InputOk(c, s) && InOrder(c, s) && Enabled(c, s, Take(i))
    ensures InOrder(c, Do(c, s, Take(i)))
  {
    var s' := Do(c, s, Take(i));
    TakeQueue(c, s);
    SumUpdate(s.workers, i, s'.workers[i], IsBusy());
    SumUpdate(s.workers, i, s'.workers[i], IsBumping());
    TakeHands(c, s, i);
  }

  lemma TakeHands<T, R>(c: Setup<T, R>, s: Sys<T, R>, i: nat)
    requires InputOk(c, s) && Hands(c, s) && Enabled(c, s, Take(i))
    ensures Hands(c, Do(c, s, Take(i)))
  {
    var s' := Do(c, s, Take(i));
    TakeQueue(c, s);
    forall o: nat | PutCount(s) <= o < s'.taken ensures Holder(s', o) {
      if o < s.taken { HolderMoves(s, s', i, o); } else { assert Holds(s'.workers[i]) && s'.workers[i].order == o; }
    }
  }

  /** A holder other than worker `i` still holds after worker `i` moved. */
  lemma HolderMoves<T, R>(s: Sys<T, R>, s': Sys<T, R>, i: nat, o: nat)
    requires Holder(s, o) && i < |s.workers| && (Holds(s.workers[i]) ==> s.workers[i].order != o)
    requires |s'.workers| == |s.workers| && forall j | 0 <= j < |s.workers| && j != i :: s'.workers[j] == s.workers[j]
    ensures Holder(s', o)
  {
    var j :| 0 <= j < |s.workers| && Holds(s.workers[j]) && s.workers[j].order == o;
    assert Holds(s'.workers[j]) && s'.workers[j].order == o;
  }

  lemma HolderKept<T, R>(s: Sys<T, R>, s': Sys<T, R>, o: nat)
    requires Holder(s, o) && |s'.workers| == |s.workers|
    requires forall j | 0 <= j < |s.workers| && Holds(s.workers[j]) ::
               Holds(s'.workers[j]) && s'.workers[j].order == s.workers[j].order
    ensures Holder(s', o)
  {
    var j :| 0 <= j < |s.workers| && Holds(s.workers[j]) && s.workers[j].order == o;
    assert Holds(s'.workers[j]) && s'.workers[j].order == o;
  }

  lemma OrderClear<T, R>(c: Setup<T, R>, s: Sys<T, R>, i: nat)
    requires InOrder(c, s) && Enabled(c, s, Clear(i))
    ensures InOrder(c, Do(c, s, Clear(i)))
  {
    var s' := Do(c, s, Clear(i));
    assert WorkerOk(c, s, s.workers[i]);
    if Sum(s.workers, IsBusy()) > 0 {
      var j := SumWitness(s.workers, IsBusy());
      assert WorkerOk(c, s, s.workers[j]);
      SumUpdate(s.workers, j, s.workers[j], IsBumping());
    }
    SumUpdate(s.workers, i, s'.workers[i], IsBusy());
    SumUpdate(s.workers, i, s'.workers[i], IsBumping());
    forall o: nat | PutCount(s) <= o < s.taken ensures Holder(s', o) {
      assert Holder(s, o);
      HolderKept(s, s', o);
    }
  }

  lemma OrderPut<T, R>(c: Setup<T, R>, s: Sys<T, R>, i: nat)
    requires c.ordered && InOrder(c, s) && Enabled(c, s, Put(i))
    ensures InOrder(c, Do(c, s, Put(i)))
  {
    var w, put := s.workers[i], PutCount(s);
    assert WorkerOk(c, s, w);
    if Sum(s.workers, IsBumping()) > 0 {
      var j := SumWitness(s.workers, IsBumping());
      TwoBusy(s.workers, i, j, IsBusy());
    }
    SumUpdate(s.workers, i, Loading, IsBusy());
    SumUpdate(s.workers, i, Loading, IsBumping());
    ValuesAppend(s.outQ, Value(w.r));
    assert Mapping(c, put + 1) == Mapping(c, put) + [w.r];
    Assoc(s.yielded, Values(s.outQ), [w.r]);
    PutHands(c, s, i);
  }

  lemma PutHands<T, R>(c: Setup<T, R>, s: Sys<T, R>, i: nat)
    requires c.ordered && Hands(c, s) && Enabled(c, s, Put(i)) && s.workers[i].order == PutCount(s)
    ensures Hands(c, Do(c, s, Put(i)))
  {
    var s', w := Do(c, s, Put(i)), s.workers[i];
    ValuesAppend(s.outQ, Value(w.r));
    assert WorkerOk(c, s, w);
    forall j | 0 <= j < |s'.workers| ensures WorkerOk(c, s', s'.workers[j]) {
      assert WorkerOk(c, s, s.workers[j]);
      if j < i && Holds(s.workers[j]) { assert s.workers[j].order != w.order; }
      if j > i && Holds(s.workers[j]) { assert w.order != s.workers[j].order; }
    }
    forall o: nat | PutCount(s) + 1 <= o < s.taken ensures Holder(s', o) { HolderMoves(s, s', i, o); }
  }

  lemma OrderBump<T, R>(c: Setup<T, R>, s: Sys<T, R>, a: Action)
    requires InOrder(c, s) && Enabled(c, s, a) && (a.Load? || a.Store?)
    ensures InOrder(c, Do(c, s, a))
  {
    var s', i := Do(c, s, a), a.i;
    assert WorkerOk(c, s, s.workers[i]);
    SumUpdate(s.workers, i, s'.workers[i], IsBusy());
    SumUpdate(s.workers, i, s'.workers[i], IsBumping());
    BumpHands(c, s, a);
  }

  lemma BumpHands<T, R>(c: Setup<T, R>, s: Sys<T, R>, a: Action)
    requires Hands(c, s) && Sum(s.workers, IsBusy()) <= 1 && Enabled(c, s, a) && (a.Load? || a.Store?)
    ensures Hands(c, Do(c, s, a))
  {
    var s', i := Do(c, s, a), a.i;
    assert WorkerOk(c, s, s.workers[i]);
    forall j | 0 <= j < |s'.workers| ensures WorkerOk(c, s', s'.workers[j]) {
      assert WorkerOk(c, s, s.workers[j]);
      if j != i && IsBusy()(s.workers[j]) > 0 { TwoBusy(s.workers, i, j, IsBusy()); }
    }
    forall o: nat | PutCount(s) <= o < s.taken ensures Holder(s', o) { HolderMoves(s, s', i, o); }
  }

  /** Steps that move no result between a hand and the output. */
  lemma OrderRest<T, R>(c: Setup<T, R>, s: Sys<T, R>, a: Action)
    requires InOrder(c, s) && Enabled(c, s, a) && (a.Read? || a.ReturnEnd?)
    ensures InOrder(c, Do(c, s, a))
  {
    var s' := Do(c, s, a);
    if !a.Read? {
      SumUpdate(s.workers, a.i, s'.workers[a.i], IsBusy());
      SumUpdate(s.workers, a.i, s'.workers[a.i], IsBumping());
    }
    SameHands(c, s, s');
  }

  lemma OrderReport<T, R>(c: Setup<T, R>, s: Sys<T, R>, i: nat)
    requires InOrder(c, s) && Enabled(c, s, ReportEnd(i))
    ensures InOrder(c, Do(c, s, ReportEnd(i)))
  {
    var s' := Do(c, s, ReportEnd(i));
    SumUpdate(s.workers, i, Exited, IsBusy());
    SumUpdate(s.workers, i, Exited, IsBumping());
    ValuesAppend(s.outQ, OutEnd);
    assert Values(s.outQ) + [] == Values(s.outQ);
    SameHands(c, s, s');
  }

  lemma OrderConsume<T, R>(c: Setup<T, R>, s: Sys<T, R>)
    requires InOrder(c, s) && Enabled(c, s, Consume)
    ensures InOrder(c, Do(c, s, Consume))
  {
    var s' := Do(c, s, Consume);
    ConsumeValues(s.outQ, s.yielded);
    SameHands(c, s, s');
  }

  lemma ConsumeValues<R>(q: seq<Out<R>>, yielded: seq<R>)
    requires q != []
    ensures var yielded' := if q[0].Value? then yielded + [q[0].r] else yielded;
      yielded' + Values(q[1..]) == yielded + Values(q) && |yielded'| + |Values(q[1..])| == |yielded| + |Values(q)|
  {
    var rest := Values(q[1..]);
    if q[0].Value? {
      assert Values(q) == [q[0].r] + rest by { ValuesTail(q); }
      Assoc(yielded, [q[0].r], rest);
    } else {
      assert Values(q) == rest by { ValuesTail(q); assert [] + rest == rest; }
    }
  }

  lemma SameHands<T, R>(c: Setup<T, R>, s: Sys<T, R>, s': Sys<T, R>)
    requires InOrder(c, s) && s'.taken == s.taken && s'.outOrder == s.outOrder && PutCount(s') == PutCount(s)
    requires s'.yielded + Values(s'.outQ) == s.yielded + Values(s.outQ) && |s'.workers| == |s.workers|
    requires forall j | 0 <= j < |s.workers| ::
               s'.workers[j] == s.workers[j] || (!Holds(s.workers[j]) && !Holds(s'.workers[j]) && !s'.workers[j].Storing?)
    requires Sum(s'.workers, IsBusy()) == Sum(s.workers, IsBusy())
    requires Sum(s'.workers, IsBumping()) == Sum(s.workers, IsBumping())
    ensures InOrder(c, s')
  {
    forall j | 0 <= j < |s'.workers| ensures WorkerOk(c, s', s'.workers[j]) { assert WorkerOk(c, s, s.workers[j]); }
    forall o: nat | PutCount(s) <= o < s.taken ensures Holder(s', o) {
      assert Holder(s, o);
      HolderKept(s, s', o);
    }
  }

  // ----------------------------------------------------------------- main results

  ghost predicate Inv<T, R>(c: Setup<T, R>, s: Sys<T, R>) {
    && InputOk(c, s) && OutputOk(c, s)
    && (if c.ordered then InOrder(c, s)
        else forall i | 0 <= i < |s.workers| :: !s.workers[i].Cleared? && !s.workers[i].Loading? && !s.workers[i].Storing?)
  }

  lemma StepInv<T, R>(c: Setup<T, R>, s: Sys<T, R>, a: Action)
    requires Inv(c, s) && Enabled(c, s, a)
    ensures Inv(c, Do(c, s, a))
  {
    StepInput(c, s, a);
    StepOutput(c, s, a);
    if c.ordered { StepOrder(c, s, a); }
  }

  lemma StepOrder<T, R>(c: Setup<T, R>, s: Sys<T, R>, a: Action)
    requires c.ordered && InputOk(c, s) && InOrder(c, s) && Enabled(c, s, a)
    ensures InOrder(c, Do(c, s, a))
  {
    match a
    case Take(i) => OrderTake(c, s, i);
    case Clear(i) => OrderClear(c, s, i);
    case Put(i) => OrderPut(c, s, i);
    case Load(i) => OrderBump(c, s, a);
    case Store(i) => OrderBump(c, s, a);
    case Consume => OrderConsume(c, s);
    case ReportEnd(i) => OrderReport(c, s, i);
    case _ => OrderRest(c, s, a);
  }

  lemma InitInv<T, R>(c: Setup<T, R>)
    ensures Inv(c, Init(c))
  {
    var ws := Init(c).workers;
    SumAll(ws, IsReturning(), 0);
    SumAll(ws, IsEnded(), 0);
    SumAll(ws, IsExited(), 0);
    SumAll(ws, IsBusy(), 0);
    SumAll(ws, IsBumping(), 0);
  }

  lemma {:induction false} RunInv<T, R>(c: Setup<T, R>, run: seq<Action>)
    ensures var s := Run(c, run); s.Some? ==>
      Inv(c, s.value) && 0 <= Measure(c, s.value) && |run| + Measure(c, s.value) <= 7 * |c.input| + 4 * c.n + 1
  {
    if run == [] {
      InitInv(c);
      SumAll(Init(c).workers, Weight(), 4);
    } else {
      RunInv(c, run[..|run| - 1]);
      var p := Run(c, run[..|run| - 1]);
      if p.Some? && Enabled(c, p.value, run[|run| - 1]) {
        StepInv(c, p.value, run[|run| - 1]);
        StepMeasure(c, p.value, run[|run| - 1]);
      }
    }
  }

  lemma {:induction false} RunConserves<T, R>(c: Setup<T, R>, run: seq<Action>, r: R)
    ensures var s := Run(c, run); s.Some? ==> Conserves(c, s.value, r)
  {
    if run == [] {
      SumAll(Init(c).workers, InHand(r), 0);
    } else {
      var p := Run(c, run[..|run| - 1]);
      if p.Some? && Enabled(c, p.value, run[|run| - 1]) {
        RunInv(c, run[..|run| - 1]);
        RunConserves(c, run[..|run| - 1], r);
        StepConserves(c, p.value, run[|run| - 1], r);
      }
    }
  }

  /** Until the consumer stops, some thread can move. */
  lemma NeverStuck<T, R>(c: Setup<T, R>, s: Sys<T, R>) returns (a: Action)
    requires Inv(c, s) && c.n >= 1 && !Stopped(c, s)
    ensures Enabled(c, s, a)
  {
    if s.outQ != [] { return Consume; }
    if i :| 0 <= i < |s.workers| && s.workers[i].Cleared? { return Put(i); }
    if i :| 0 <= i < |s.workers| && s.workers[i].Loading? { return Load(i); }
    if i :| 0 <= i < |s.workers| && s.workers[i].Storing? { return Store(i); }
    if i :| 0 <= i < |s.workers| && s.workers[i].Returning? {
      ReturningIsEnded(s.workers, i);
      return ReturnEnd(i);
    }
    if i :| 0 <= i < |s.workers| && s.workers[i].Reporting? { return ReportEnd(i); }
    if i :| 0 <= i < |s.workers| && s.workers[i].Mapped? {
      if c.ordered { a := FrontMoves(c, s, i); } else { a := Put(i); }
      return;
    }
    if i :| 0 <= i < |s.workers| && s.workers[i].Idle? {
      if s.inQ != [] { return Take(i); }
      if Sum(s.workers, IsReturning()) > 0 { var j := SumWitness(s.workers, IsReturning()); }
      return Read;
    }
    SumAll(s.workers, IsExited(), 1);
  }

  /** When workers hold results and none is busy, the one with the smallest index passes its test. */
  lemma FrontMoves<T, R>(c: Setup<T, R>, s: Sys<T, R>, i: nat) returns (a: Action)
    requires c.ordered && InOrder(c, s) && i < |s.workers| && s.workers[i].Mapped?
    requires forall j | 0 <= j < |s.workers| :: IsBusy()(s.workers[j]) == 0
    ensures Enabled(c, s, a)
  {
    SumAll(s.workers, IsBumping(), 0);
    assert WorkerOk(c, s, s.workers[i]);
    assert Holder(s, PutCount(s));
    var j :| 0 <= j < |s.workers| && Holds(s.workers[j]) && s.workers[j].order == PutCount(s);
    a := Clear(j);
  }

  lemma StoppedEmpty<T, R>(c: Setup<T, R>, s: Sys<T, R>)
    requires Inv(c, s) && c.n >= 1 && Stopped(c, s)
    ensures s.taken == |c.input| && s.outQ == [] && forall i | 0 <= i < |s.workers| :: s.workers[i].Exited?
  {
    forall i | 0 <= i < |s.workers| ensures s.workers[i].Exited? {
      if !s.workers[i].Exited? { NotAllExited(s.workers, i); }
    }
    SumAll(s.workers, IsEnded(), 1);
    if s.outQ != [] { LastEnd(s.outQ); }
  }

  lemma LastEnd<R>(q: seq<Out<R>>)
    requires q != [] && q[|q| - 1].OutEnd?
    ensures Ends(q) > 0
  {}

  /** Unordered or ordered, every interleaving is finite, is never stuck before the consumer stops,
      and when it stops the samples yielded are the mapped input, each exactly once. */
  lemma DeliversExactlyOnce<T, R>(c: Setup<T, R>, run: seq<Action>)
    requires c.n >= 1
    ensures var s := Run(c, run); s.Some? ==>
      && |run| <= 7 * |c.input| + 4 * c.n + 1
      && (!Stopped(c, s.value) ==> exists a :: Enabled(c, s.value, a))
      && (Stopped(c, s.value) ==> multiset(s.value.yielded) == multiset(Mapping(c, |c.input|)))
  {
    RunInv(c, run);
    var s := Run(c, run);
    if s.Some? && !Stopped(c, s.value) { var a := NeverStuck(c, s.value); }
    if s.Some? && Stopped(c, s.value) {
      StoppedEmpty(c, s.value);
      forall r: R ensures Count(s.value.yielded, r) == Count(Mapping(c, |c.input|), r) {
        RunConserves(c, run, r);
        SumAll(s.value.workers, InHand(r), 0);
      }
      SameCounts(s.value.yielded, Mapping(c, |c.input|));
    }
  }

  /** In ordered mode what is yielded is at all times a prefix of the mapped input, in order, and
      the whole of it when the consumer stops. */
  lemma DeliversInOrder<T, R>(c: Setup<T, R>, run: seq<Action>)
    requires c.n >= 1 && c.ordered
    ensures var s := Run(c, run); s.Some? ==>
      && s.value.yielded <= Mapping(c, |c.input|)
      && (Stopped(c, s.value) ==> s.value.yielded == Mapping(c, |c.input|))
      && Sum(s.value.workers, IsBusy()) <= 1
  {
    RunInv(c, run);
    var s := Run(c, run);
    if s.Some? {
      var y, n := s.value.yielded, |c.input|;
      assert y == (y + Values(s.value.outQ))[..|y|];
      assert Mapping(c, PutCount(s.value)) == Mapping(c, n)[..PutCount(s.value)];
      if Stopped(c, s.value) {
        StoppedEmpty(c, s.value);
        assert PutCount(s.value) < s.value.taken ==> Holder(s.value, PutCount(s.value));
      }
    }
  }

  // ------------------------------------------------------------------- queue bounds

  /** A queue of positive capacity never holds more than its capacity. */
  predicate WithinCapacity<T, R>(c: Setup<T, R>, s: Sys<T, R>) {
    c.cap > 0 ==> |s.inQ| <= c.cap && |s.outQ| <= c.cap
  }

  lemma {:induction false} QueuesBounded<T, R>(c: Setup<T, R>, run: seq<Action>)
    ensures var s := Run(c, run); s.Some? ==> WithinCapacity(c, s.value)
  {
    if run != [] {
      QueuesBounded(c, run[..|run| - 1]);
      var p := Run(c, run[..|run| - 1]);
      if p.Some? && Enabled(c, p.value, run[|run| - 1]) { StepBounded(c, p.value, run[|run| - 1]); }
    }
  }

  lemma StepBounded<T, R>(c: Setup<T, R>, s: Sys<T, R>, a: Action)
    requires WithinCapacity(c, s) && Enabled(c, s, a)
    ensures WithinCapacity(c, Do(c, s, a))
  {}

  /** A thread is held up by a queue exactly when that queue is full; with no positive capacity it never is. */
  lemma BlockedOnlyWhenFull<T, R>(c: Setup<T, R>, s: Sys<T, R>, i: nat)
    requires i < |s.workers|
    ensures Enabled(c, s, Read) <==> !s.readerDone && (c.cap > 0 ==> |s.inQ| < c.cap)
    ensures s.workers[i].Returning? ==> (Enabled(c, s, ReturnEnd(i)) <==> (c.cap > 0 ==> |s.inQ| < c.cap))
    ensures s.workers[i].Reporting? ==> (Enabled(c, s, ReportEnd(i)) <==> (c.cap > 0 ==> |s.outQ| < c.cap))
    ensures (if c.ordered then s.workers[i].Cleared? else s.workers[i].Mapped?) ==>
      (Enabled(c, s, Put(i)) <==> (c.cap > 0 ==> |s.outQ| < c.cap))
    ensures s.workers[i].Idle? ==> (Enabled(c, s, Take(i)) <==> s.inQ != [])
  {}
}
