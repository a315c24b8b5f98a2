/** Whole-run properties of the master: every event keeps one invariant, so its consequences hold in every
    run, with crashes, restarts and failing snapshots at any point. */
module MasterRuns {
  import opened Common
  import opened Master

  // --------------------------------------------------------------- invariants

  function Ids(es: seq<Entry>): set<int> { set e | e in es :: e.Id() }

  predicate Has(s: State, e: Entry) {
    e in s.todo || (e.Id() in s.pending && s.pending[e.Id()] == e) || e in s.done || e in s.failed
  }

  /** Every task id of the dataset, with its chunks, sits in exactly one queue. */
  ghost predicate Conserved(s: State, d: map<int, seq<Chunk>>) {
    && (forall id | id in s.pending :: s.pending[id].Id() == id)
    && Distinct(s.todo) && Distinct(s.done) && Distinct(s.failed)
    && (Ids(s.todo) !! s.pending.Keys !! Ids(s.done) !! Ids(s.failed))
    && Ids(s.todo) + s.pending.Keys + Ids(s.done) + Ids(s.failed) == d.Keys
    && (forall e | Has(s, e) :: e.Id() in d && d[e.Id()] == e.task.chunks)
  }

  /** Bounds on the failure counts; rollover carries the counts of failed tasks along. */
  predicate FailureBounds(cfg: Config, s: State) {
    && s.curPass >= 0
    && (forall i | 0 <= i < |s.done| :: s.done[i].numFailure == 0)
    && (forall i | 0 <= i < |s.todo| :: 0 <= s.todo[i].numFailure <= cfg.failureMax + s.curPass)
    && (forall id | id in s.pending :: 0 <= s.pending[id].numFailure <= cfg.failureMax + s.curPass)
    && (forall i | 0 <= i < |s.failed| ::
          cfg.failureMax < s.failed[i].numFailure <= cfg.failureMax + s.curPass + 1)
  }

  /** A non-empty dataset with nothing left to dispatch or to wait for has a failed task. */
  ghost predicate Sound(cfg: Config, s: State, d: map<int, seq<Chunk>>) {
    Conserved(s, d) && FailureBounds(cfg, s) && (d.Keys != {} && Drained(s) ==> s.failed != [])
  }

  /** No task's epoch is larger in `a` than in `b`. */
  ghost predicate Older(a: State, b: State) {
    forall x, y | Has(a, x) && Has(b, y) && x.Id() == y.Id() :: x.Epoch() <= y.Epoch()
  }

  lemma IdsAppend(q: seq<Entry>, e: Entry)
    ensures Ids(q + [e]) == Ids(q) + {e.Id()}
    ensures forall x :: x in q + [e] <==> x in q || x == e
  {
    assert forall x :: x in q + [e] <==> x in q || x == e;
  }

  lemma IdsTail(q: seq<Entry>)
    requires q != [] && Distinct(q)
    ensures Ids(q) == Ids(q[1..]) + {q[0].Id()} && q[0].Id() !in Ids(q[1..]) && Distinct(q[1..])
    ensures forall x :: x in q <==> x in q[1..] || x == q[0]
  {
    assert q == [q[0]] + q[1..];
    assert forall x :: x in q <==> x in q[1..] || x == q[0];
  }

  lemma IdsConcat(a: seq<Entry>, b: seq<Entry>)
    ensures Ids(a + b) == Ids(a) + Ids(b)
    ensures forall x :: x in a + b <==> x in a || x in b
  {
    assert forall x :: x in a + b <==> x in a || x in b;
  }

  lemma DistinctConcat(a: seq<Entry>, b: seq<Entry>)
    requires Distinct(a) && Distinct(b) && Ids(a) !! Ids(b)
    ensures Distinct(a + b)
  {
    forall i, j | 0 <= i < |a| && 0 <= j < |b| ensures a[i].Id() != b[j].Id() {
      IdsMember(a, a[i]);
      IdsMember(b, b[j]);
    }
  }

  lemma IdsMember(q: seq<Entry>, e: Entry)
    requires e in q
    ensures e.Id() in Ids(q)
  {}

  lemma Unique(s: State, d: map<int, seq<Chunk>>, x: Entry, y: Entry)
    requires Conserved(s, d) && Has(s, x) && Has(s, y) && x.Id() == y.Id()
    ensures x == y
  {
    forall q, e: Entry | q in [s.todo, s.done, s.failed] && e in q ensures e.Id() in Ids(q) { IdsMember(q, e); }
  }

  lemma Find(s: State, d: map<int, seq<Chunk>>, id: int) returns (e: Entry)
    requires Conserved(s, d) && id in d
    ensures Has(s, e) && e.Id() == id
  {
    if id in s.pending { e := s.pending[id]; }
    else { e :| (e in s.todo || e in s.done || e in s.failed) && e.Id() == id; }
  }

  lemma OlderTrans(a: State, b: State, c: State, d: map<int, seq<Chunk>>)
    requires Conserved(a, d) && Conserved(b, d) && Older(a, b) && Older(b, c)
    ensures Older(a, c)
  {
    forall x, z | Has(a, x) && Has(c, z) && x.Id() == z.Id() ensures x.Epoch() <= z.Epoch() {
      var y := Find(b, d, x.Id());
    }
  }

  lemma OlderSelf(s: State, d: map<int, seq<Chunk>>)
    requires Conserved(s, d)
    ensures Older(s, s)
  {
    forall x, y | Has(s, x) && Has(s, y) && x.Id() == y.Id() ensures x.Epoch() <= y.Epoch() { Unique(s, d, x, y); }
  }

  lemma DispatchSound(cfg: Config, s: State, d: map<int, seq<Chunk>>)
    requires Sound(cfg, s, d) && s.todo != []
    ensures Sound(cfg, Dispatch(s), d) && Older(s, Dispatch(s))
  {
    var s', t := Dispatch(s), Bumped(s);
    IdsTail(s.todo);
    assert s'.pending.Keys == s.pending.Keys + {t.Id()};
    assert Has(s, s.todo[0]);
    forall e | Has(s', e) ensures e == t || Has(s, e) {}
    forall x, y | Has(s, x) && Has(s', y) && x.Id() == y.Id() ensures x.Epoch() <= y.Epoch() {
      if y == t { Unique(s, d, x, s.todo[0]); } else { Unique(s, d, x, y); }
    }
  }

  lemma FinishSound(cfg: Config, s: State, d: map<int, seq<Chunk>>, id: int)
    requires Sound(cfg, s, d) && id in s.pending
    ensures Conserved(Finish(s, id), d) && FailureBounds(cfg, Finish(s, id)) && Older(s, Finish(s, id))
  {
    var s', t := Finish(s, id), s.pending[id].(numFailure := 0);
    IdsAppend(s.done, t);
    assert s'.pending.Keys == s.pending.Keys - {id};
    assert Has(s, s.pending[id]);
    assert Distinct(s'.done) by {
      forall i | 0 <= i < |s.done| ensures s.done[i].Id() != id { IdsMember(s.done, s.done[i]); }
    }
    forall x, y | Has(s, x) && Has(s', y) && x.Id() == y.Id() ensures x.Epoch() <= y.Epoch() {
      if y == t { Unique(s, d, x, s.pending[id]); } else { Unique(s, d, x, y); }
    }
  }

  lemma RolloverSound(cfg: Config, s: State, d: map<int, seq<Chunk>>)
    requires Conserved(s, d) && FailureBounds(cfg, s) && Drained(s) && s.done != []
    ensures Sound(cfg, Rollover(s), d) && Older(s, Rollover(s))
  {
    var s' := Rollover(s);
    assert Conserved(s', d) && forall e :: Has(s', e) <==> Has(s, e) by {
      IdsConcat(s.done, s.failed);
      DistinctConcat(s.done, s.failed);
      assert Ids([]) == {} && forall e :: Has(s', e) <==> Has(s, e);
    }
    assert Older(s, s') by { OlderSelf(s, d); }
  }

  lemma FailSound(cfg: Config, s: State, d: map<int, seq<Chunk>>, id: int)
    requires Sound(cfg, s, d) && id in s.pending
    ensures Sound(cfg, Fail(cfg, s, id), d)
  {
    var t := s.pending[id].(numFailure := s.pending[id].numFailure + 1);
    var s' := Fail(cfg, s, id);
    FailBounds(cfg, s, id);
    if t.numFailure > cfg.failureMax {
      assert s' == s.(pending := s.pending - {id}, failed := s.failed + [t]);
      GiveUpConserved(s, d, id, t);
      assert |s'.failed| > 0;
    } else {
      assert s' == s.(pending := s.pending - {id}, todo := s.todo + [t]);
      RetryConserved(s, d, id, t);
      assert |s'.todo| > 0;
    }
  }

  lemma FailBounds(cfg: Config, s: State, id: int)
    requires FailureBounds(cfg, s) && id in s.pending
    ensures FailureBounds(cfg, Fail(cfg, s, id))
  {}

  lemma GiveUpConserved(s: State, d: map<int, seq<Chunk>>, id: int, t: Entry)
    requires Conserved(s, d) && id in s.pending && t.task == s.pending[id].task
    ensures Conserved(s.(pending := s.pending - {id}, failed := s.failed + [t]), d)
  {
    assert Has(s, s.pending[id]) && (s.pending - {id}).Keys == s.pending.Keys - {id};
    IdsAppend(s.failed, t);
    forall i | 0 <= i < |s.failed| ensures s.failed[i].Id() != id { IdsMember(s.failed, s.failed[i]); }
  }

  lemma RetryConserved(s: State, d: map<int, seq<Chunk>>, id: int, t: Entry)
    requires Conserved(s, d) && id in s.pending && t.task == s.pending[id].task
    ensures Conserved(s.(pending := s.pending - {id}, todo := s.todo + [t]), d)
  {
    assert Has(s, s.pending[id]) && (s.pending - {id}).Keys == s.pending.Keys - {id};
    IdsAppend(s.todo, t);
    forall i | 0 <= i < |s.todo| ensures s.todo[i].Id() != id { IdsMember(s.todo, s.todo[i]); }
  }

  lemma FailOlder(cfg: Config, s: State, d: map<int, seq<Chunk>>, id: int)
    requires Sound(cfg, s, d) && id in s.pending
    ensures Older(s, Fail(cfg, s, id))
  {
    var s' := Fail(cfg, s, id);
    var t := s.pending[id].(numFailure := s.pending[id].numFailure + 1);
    IdsAppend(s.failed, t);
    IdsAppend(s.todo, t);
    forall x, y | Has(s, x) && Has(s', y) && x.Id() == y.Id() ensures x.Epoch() <= y.Epoch() {
      if y == t { Unique(s, d, x, s.pending[id]); } else { Unique(s, d, x, y); }
    }
  }

  // ----------------------------------------------------------- the invariant

  /** `m` is a dispatch of a known task, no later than the task's epoch in `s`. */
  ghost predicate Past(s: State, d: map<int, seq<Chunk>>, m: TaskMeta) {
    m.id in d && forall e | Has(s, e) && e.Id() == m.id :: m.epoch <= e.Epoch()
  }

  ghost predicate AllPast(s: State, d: map<int, seq<Chunk>>, ms: set<TaskMeta>) {
    forall m | m in ms :: Past(s, d, m)
  }

  function Set(ms: seq<TaskMeta>): set<TaskMeta> { set m | m in ms }

  predicate NoDup(ms: seq<TaskMeta>) { forall i, j | 0 <= i < j < |ms| :: ms[i] != ms[j] }

  /** A Pending dispatch has its timer armed exactly if its own snapshot did not fail. */
  ghost predicate TimersExact(s: State, d: map<int, seq<Chunk>>, timers: set<TaskMeta>, stranded: set<TaskMeta>) {
    && AllPast(s, d, timers) && AllPast(s, d, stranded)
    && (forall id | id in s.pending ::
          s.pending[id].task.meta in timers <==> s.pending[id].task.meta !in stranded)
  }

  /** A dispatch that left Pending never comes back. */
  ghost predicate LeftForGood(s: State, d: map<int, seq<Chunk>>, left: seq<TaskMeta>) {
    && NoDup(left) && AllPast(s, d, Set(left))
    && (forall m | m in left && m.id in s.pending :: m.epoch < s.pending[m.id].Epoch())
  }

  function Attempts(passLog: seq<int>, id: int): nat {
    if passLog == [] then 0
    else Attempts(passLog[..|passLog| - 1], id) + if passLog[|passLog| - 1] == id then 1 else 0
  }

  lemma AttemptsAppend(passLog: seq<int>, x: int, id: int)
    ensures Attempts(passLog + [x], id) == Attempts(passLog, id) + if x == id then 1 else 0
  {
    assert (passLog + [x])[..|passLog|] == passLog;
  }

  /** Dispatches a waiting task may still get in this pass. */
  function Allowance(cfg: Config, e: Entry): (n: nat)
    ensures n >= 1
  {
    if e.numFailure >= cfg.failureMax then 1 else cfg.failureMax + 1 - e.numFailure
  }

  predicate MayRetry(cfg: Config, passLog: seq<int>, q: seq<Entry>) {
    forall i | 0 <= i < |q| :: Attempts(passLog, q[i].Id()) + Allowance(cfg, q[i]) <= cfg.failureMax + 1
  }

  predicate Bounded(cfg: Config, passLog: seq<int>, q: seq<Entry>) {
    forall i | 0 <= i < |q| :: Attempts(passLog, q[i].Id()) <= cfg.failureMax + 1
  }

  predicate Budget(cfg: Config, s: State, passLog: seq<int>) {
    && MayRetry(cfg, passLog, s.todo) && Bounded(cfg, passLog, s.done) && Bounded(cfg, passLog, s.failed)
    && (forall id | id in s.pending :: Attempts(passLog, id) + Allowance(cfg, s.pending[id]) <= cfg.failureMax + 2)
  }

  ghost predicate Ready(cfg: Config, w: World) {
    var d := w.log.dataset;
    && w.store.Some? && Sound(cfg, w.store.value, d) && Sound(cfg, w.state, d)
    && Older(w.store.value, w.state)
    && AllPast(w.store.value, d, Set(w.log.handed)) && NoDup(w.log.handed)
    && TimersExact(w.state, d, w.log.timers, w.log.stranded) && LeftForGood(w.state, d, w.log.left)
    && Budget(cfg, w.state, w.log.passLog) && (forall id | id in w.log.passLog :: id in d)
  }

  ghost predicate Unready(cfg: Config, w: World) {
    && (w.store.Some? ==> Sound(cfg, w.store.value, w.log.dataset))
    && w.state == EMPTY.(todo := w.state.todo)
    && w.log == NO_HISTORY.(dataset := w.log.dataset)
  }

  ghost predicate Inv(cfg: Config, w: World) { if w.initDone then Ready(cfg, w) else Unready(cfg, w) }

  lemma PastAdvances(s: State, s': State, d: map<int, seq<Chunk>>, ms: set<TaskMeta>)
    requires Conserved(s, d) && Older(s, s') && AllPast(s, d, ms)
    ensures AllPast(s', d, ms)
  {
    forall m, y | m in ms && Has(s', y) && y.Id() == m.id ensures m.epoch <= y.Epoch() {
      var x := Find(s, d, m.id);
    }
  }

  /** What every effective handler does to the store and to the dispatches handed out so far. */
  lemma Advance(cfg: Config, w: World, s': State, o: SaveOutcome)
    requires Ready(cfg, w) && Sound(cfg, s', w.log.dataset) && Older(w.state, s')
    ensures var store' := Durable(w.store, s', o); var d := w.log.dataset;
      && store'.Some? && Sound(cfg, store'.value, d) && Older(store'.value, s')
      && AllPast(store'.value, d, Set(w.log.handed))
    ensures AllPast(s', w.log.dataset, w.log.timers) && AllPast(s', w.log.dataset, w.log.stranded)
    ensures AllPast(s', w.log.dataset, Set(w.log.left)) && AllPast(w.state, w.log.dataset, Set(w.log.handed))
  {
    var d, a := w.log.dataset, w.store.value;
    OlderTrans(a, w.state, s', d);
    PastAdvances(a, w.state, d, Set(w.log.handed));
    PastAdvances(w.state, s', d, Set(w.log.handed));
    PastAdvances(w.state, s', d, w.log.timers);
    PastAdvances(w.state, s', d, w.log.stranded);
    PastAdvances(w.state, s', d, Set(w.log.left));
    OlderSelf(s', d);
  }

  /** Todo's head shares its id with no other entry. */
  lemma HeadAlone(s: State, d: map<int, seq<Chunk>>)
    requires Conserved(s, d) && s.todo != []
    ensures s.todo[0].Id() in d && s.todo[0].Id() !in s.pending
    ensures forall e | e in s.todo[1..] || e in s.done || e in s.failed :: e.Id() != s.todo[0].Id()
  {
    IdsTail(s.todo);
    assert Has(s, s.todo[0]);
    forall e | e in s.todo[1..] ensures e.Id() != s.todo[0].Id() { IdsMember(s.todo[1..], e); }
    forall e | e in s.done ensures e.Id() != s.todo[0].Id() { IdsMember(s.done, e); }
    forall e | e in s.failed ensures e.Id() != s.todo[0].Id() { IdsMember(s.failed, e); }
  }

  lemma BudgetDispatch(cfg: Config, s: State, passLog: seq<int>)
    requires Budget(cfg, s, passLog) && s.todo != [] && s.todo[0].Id() !in s.pending
    requires forall e | e in s.todo[1..] || e in s.done || e in s.failed :: e.Id() != s.todo[0].Id()
    ensures Budget(cfg, Dispatch(s), passLog + [s.todo[0].Id()])
  {
    var id := s.todo[0].Id();
    forall x ensures Attempts(passLog + [id], x) == Attempts(passLog, x) + if x == id then 1 else 0 {
      AttemptsAppend(passLog, id, x);
    }
  }

  lemma BudgetFail(cfg: Config, s: State, passLog: seq<int>, id: int)
    requires Budget(cfg, s, passLog) && id in s.pending && s.pending[id].Id() == id
    ensures Budget(cfg, Fail(cfg, s, id), passLog)
  {}

  lemma BudgetFinish(cfg: Config, s: State, passLog: seq<int>, id: int)
    requires Budget(cfg, s, passLog) && id in s.pending && s.pending[id].Id() == id
    ensures Budget(cfg, Finish(s, id), passLog)
  {}

  lemma BudgetRollover(cfg: Config, s: State)
    requires FailureBounds(cfg, s) && Drained(s)
    ensures Budget(cfg, Rollover(s), [])
  {}

  lemma NoDupAppend(ms: seq<TaskMeta>, m: TaskMeta)
    requires NoDup(ms) && m !in ms
    ensures NoDup(ms + [m]) && Set(ms + [m]) == Set(ms) + {m}
  {
    assert forall x :: x in ms + [m] <==> x in ms || x == m;
  }

  lemma GetTaskInv(cfg: Config, w: World, passID: int, o: SaveOutcome)
    requires Ready(cfg, w)
    ensures Ready(cfg, GetTaskStep(w, passID, o).0)
  {
    var s, d := w.state, w.log.dataset;
    var w' := GetTaskStep(w, passID, o).0;
    if w' != w {
      var s', m := Dispatch(s), Bumped(s).task.meta;
      DispatchSound(cfg, s, d);
      Advance(cfg, w, s', o);
      HeadAlone(s, d);
      BudgetDispatch(cfg, s, w.log.passLog);
      DispatchFresh(s, d, m);
      NoDupAppend(w.log.handed, m);
      DispatchTimers(w, s', m);
      DispatchLeft(w, s', m);
    }
  }

  /** The dispatched meta is new: everything past in `s` names an earlier epoch. */
  lemma DispatchFresh(s: State, d: map<int, seq<Chunk>>, m: TaskMeta)
    requires Conserved(s, d) && s.todo != [] && m == Bumped(s).task.meta
    ensures forall x | Past(s, d, x) :: x != m && (x.id == m.id ==> x.epoch < m.epoch)
    ensures Past(Dispatch(s), d, m)
  {
    HeadAlone(s, d);
    assert Has(s, s.todo[0]);
  }

  lemma DispatchTimers(w: World, s': State, m: TaskMeta)
    requires w.state.todo != [] && s' == Dispatch(w.state) && m == Bumped(w.state).task.meta
    requires TimersExact(w.state, w.log.dataset, w.log.timers, w.log.stranded)
    requires AllPast(s', w.log.dataset, w.log.timers) && AllPast(s', w.log.dataset, w.log.stranded)
    requires Past(s', w.log.dataset, m) && forall x | Past(w.state, w.log.dataset, x) :: x != m
    requires m.id !in w.state.pending && forall id | id in w.state.pending :: w.state.pending[id].Id() == id
    ensures TimersExact(s', w.log.dataset, w.log.timers + {m}, w.log.stranded)
    ensures TimersExact(s', w.log.dataset, w.log.timers, w.log.stranded + {m})
  {}

  lemma DispatchLeft(w: World, s': State, m: TaskMeta)
    requires w.state.todo != [] && s' == Dispatch(w.state) && m == Bumped(w.state).task.meta
    requires LeftForGood(w.state, w.log.dataset, w.log.left) && AllPast(s', w.log.dataset, Set(w.log.left))
    requires forall x | Past(w.state, w.log.dataset, x) :: x.id == m.id ==> x.epoch < m.epoch
    ensures LeftForGood(s', w.log.dataset, w.log.left)
  {}

  /** Losing the Pending entry of dispatch `m` keeps the timer and departure records exact. */
  lemma Departs(w: World, s': State, m: TaskMeta)
    requires Effective(w.state, m) && Conserved(w.state, w.log.dataset) && s'.pending == w.state.pending - {m.id}
    requires TimersExact(w.state, w.log.dataset, w.log.timers, w.log.stranded)
    requires LeftForGood(w.state, w.log.dataset, w.log.left)
    requires Conserved(s', w.log.dataset) && Older(w.state, s')
    ensures TimersExact(s', w.log.dataset, w.log.timers, w.log.stranded)
    ensures LeftForGood(s', w.log.dataset, w.log.left + [m])
  {
    var d := w.log.dataset;
    PastAdvances(w.state, s', d, w.log.timers);
    PastAdvances(w.state, s', d, w.log.stranded);
    assert m !in w.log.left;
    NoDupAppend(w.log.left, m);
    assert Has(w.state, w.state.pending[m.id]);
    assert Past(w.state, d, m) by {
      forall e | Has(w.state, e) && e.Id() == m.id ensures m.epoch <= e.Epoch() {
        Unique(w.state, d, e, w.state.pending[m.id]);
      }
    }
    PastAdvances(w.state, s', d, Set(w.log.left) + {m});
    forall x | x in w.log.left + [m] && x.id in s'.pending ensures x.epoch < s'.pending[x.id].Epoch() {
      assert x in w.log.left;
    }
  }

  lemma ReportInv(cfg: Config, w: World, m: TaskMeta, o: SaveOutcome)
    requires Ready(cfg, w)
    ensures Ready(cfg, ReportStep(cfg, w, m, o))
  {
    if Effective(w.state, m) {
      var s' := Fail(cfg, w.state, m.id);
      FailSound(cfg, w.state, w.log.dataset, m.id);
      FailOlder(cfg, w.state, w.log.dataset, m.id);
      Advance(cfg, w, s', o);
      Departs(w, s', m);
      BudgetFail(cfg, w.state, w.log.passLog, m.id);
    }
  }

  /** A fired timer is spent; it can only have been the timer of a dispatch it still finds Pending. */
  lemma TimerInv(cfg: Config, w: World, m: TaskMeta, o: SaveOutcome)
    requires Ready(cfg, w)
    ensures Ready(cfg, ReportStep(cfg, w.(log := w.log.(timers := w.log.timers - {m})), m, o))
  {
    var w0 := w.(log := w.log.(timers := w.log.timers - {m}));
    if Effective(w.state, m) {
      ReportInv(cfg, w, m, o);
      var w', w1 := ReportStep(cfg, w0, m, o), ReportStep(cfg, w, m, o);
      assert w' == w1.(log := w1.log.(timers := w1.log.timers - {m}));
      assert forall id | id in w'.state.pending :: w'.state.pending[id].Id() == id;
    } else {
      assert forall id | id in w.state.pending :: w.state.pending[id].Id() == id;
    }
  }

  lemma TaskFinishedInv(cfg: Config, w: World, id: int, o: SaveOutcome)
    requires Ready(cfg, w)
    ensures Ready(cfg, TaskFinishedStep(w, id, o).0)
  {
    if id in w.state.pending {
      var d, m := w.log.dataset, w.state.pending[id].task.meta;
      var f := Finish(w.state, id);
      FinishSound(cfg, w.state, d, id);
      BudgetFinish(cfg, w.state, w.log.passLog, id);
      var s' := f;
      if Drained(f) {
        s' := Rollover(f);
        RolloverSound(cfg, f, d);
        OlderTrans(w.state, f, s', d);
        BudgetRollover(cfg, f);
      }
      Advance(cfg, w, s', o);
      Departs(w, s', m);
    }
  }

  lemma {:induction false} DatasetOfKeys(todo: seq<Entry>)
    requires Distinct(todo)
    ensures DatasetOf(todo).Keys == Ids(todo)
    ensures forall e | e in todo :: DatasetOf(todo)[e.Id()] == e.task.chunks
  {
    if todo != [] {
      IdsTail(todo);
      DatasetOfKeys(todo[1..]);
    }
  }

  lemma FreshSound(cfg: Config, chunks: seq<Chunk>, base: int)
    requires |chunks| <= TWO_63
    ensures var todo := Partition(chunks, TaskSize(cfg.chunksPerTask), base);
      Sound(cfg, EMPTY.(todo := todo), DatasetOf(todo)) && Budget(cfg, EMPTY.(todo := todo), [])
  {
    PartitionIsPartition(chunks, TaskSize(cfg.chunksPerTask), base);
    AllTodo(cfg, Partition(chunks, TaskSize(cfg.chunksPerTask), base));
  }

  lemma TodoConserved(todo: seq<Entry>)
    requires Distinct(todo)
    ensures Conserved(EMPTY.(todo := todo), DatasetOf(todo))
  {
    DatasetOfKeys(todo);
    assert Ids([]) == {} && forall e :: Has(EMPTY.(todo := todo), e) <==> e in todo;
  }

  lemma AllTodo(cfg: Config, todo: seq<Entry>)
    requires Distinct(todo) && forall i | 0 <= i < |todo| :: todo[i].numFailure == 0
    ensures Sound(cfg, EMPTY.(todo := todo), DatasetOf(todo)) && Budget(cfg, EMPTY.(todo := todo), [])
  {
    var s, d := EMPTY.(todo := todo), DatasetOf(todo);
    assert Conserved(s, d) by { TodoConserved(todo); }
    assert Budget(cfg, s, []);
    assert d.Keys != {} && Drained(s) ==> s.failed != [];
  }

  lemma SetDatasetInv(cfg: Config, w: World, ev: Event)
    requires Inv(cfg, w) && ev.SetDataset? && Possible(ev)
    ensures Inv(cfg, Step(cfg, w, ev))
  {
    if ev.paths != [] && !w.initDone && ev.read.Some? {
      FreshSound(cfg, ev.read.value, ev.base);
      var s' := w.state.(todo := Partition(ev.read.value, TaskSize(cfg.chunksPerTask), ev.base));
      OlderSelf(s', DatasetOf(s'.todo));
    }
  }

  lemma RestartInv(cfg: Config, w: World)
    requires Inv(cfg, w)
    ensures Inv(cfg, RestartStep(w.store, w.log))
  {
    if w.store.Some? {
      var s, d := w.store.value, w.log.dataset;
      OlderSelf(s, d);
      assert AllPast(s, d, Metas(s.pending)) by {
        forall id, e | id in s.pending && Has(s, e) && e.Id() == id ensures s.pending[id].Epoch() <= e.Epoch() {
          assert Has(s, s.pending[id]);
        }
        forall id | id in s.pending ensures id in d { assert Has(s, s.pending[id]); }
      }
      assert Budget(cfg, s, []);
    }
  }

  lemma StepInv(cfg: Config, w: World, ev: Event)
    requires Inv(cfg, w) && Possible(ev)
    ensures Inv(cfg, Step(cfg, w, ev))
  {
    match ev
    case SetDataset(_, _, _, _) => SetDatasetInv(cfg, w, ev);
    case GetTask(p, o) => if w.initDone { GetTaskInv(cfg, w, p, o); }
    case TaskFinished(id, o) => if w.initDone { TaskFinishedInv(cfg, w, id, o); }
    case TaskFailed(m, o) => if w.initDone { ReportInv(cfg, w, m, o); }
    case TimerFires(m, o) => if w.initDone { TimerInv(cfg, w, m, o); }
    case Restart => RestartInv(cfg, w);
  }

  lemma {:induction false} RunInv(cfg: Config, evs: seq<Event>)
    requires forall ev | ev in evs :: Possible(ev)
    ensures Inv(cfg, Run(cfg, evs))
  {
    if evs != [] {
      RunInv(cfg, evs[..|evs| - 1]);
      StepInv(cfg, Run(cfg, evs[..|evs| - 1]), evs[|evs| - 1]);
    }
  }

  // ------------------------------------------------------------ main results

  /** In every run, with crashes and failing snapshots, no (task id, epoch) is handed to a
      trainer twice: delivered epoch <= persisted epoch <= epoch in memory. */
  lemma NeverHandedTwice(cfg: Config, evs: seq<Event>)
    requires forall ev | ev in evs :: Possible(ev)
    ensures NoDup(Run(cfg, evs).log.handed)
    ensures var w := Run(cfg, evs); w.initDone ==>
      w.store.Some? && AllPast(w.store.value, w.log.dataset, Set(w.log.handed)) && Older(w.store.value, w.state)
  {
    RunInv(cfg, evs);
  }

  /** In every run, once a dataset is set, each of its task ids with its chunks sits in
      exactly one queue, in memory and in the store, and the failure counts are bounded. */
  lemma Conservation(cfg: Config, evs: seq<Event>)
    requires forall ev | ev in evs :: Possible(ev)
    ensures var w := Run(cfg, evs); w.initDone ==>
      && Conserved(w.state, w.log.dataset) && FailureBounds(cfg, w.state)
      && w.store.Some? && Conserved(w.store.value, w.log.dataset) && FailureBounds(cfg, w.store.value)
      && |w.state.todo| + |w.state.pending| + |w.state.done| + |w.state.failed| == |w.log.dataset|
  {
    RunInv(cfg, evs);
    var w := Run(cfg, evs);
    if w.initDone { CountsAddUp(w.state, w.log.dataset); }
  }

  lemma {:induction false} DistinctCount(q: seq<Entry>)
    requires Distinct(q)
    ensures |Ids(q)| == |q|
  {
    if q != [] { IdsTail(q); DistinctCount(q[1..]); }
  }

  lemma CountsAddUp(s: State, d: map<int, seq<Chunk>>)
    requires Conserved(s, d)
    ensures |s.todo| + |s.pending| + |s.done| + |s.failed| == |d|
  {
    DistinctCount(s.todo);
    DistinctCount(s.done);
    DistinctCount(s.failed);
    assert |s.pending.Keys| == |s.pending| && |d.Keys| == |d|;
  }

  /** Once it is set, the dataset never changes in the rest of the run, restarts included. */
  lemma {:induction false} DatasetFixed(cfg: Config, evs: seq<Event>, more: seq<Event>)
    requires (forall ev | ev in evs + more :: Possible(ev)) && Run(cfg, evs).initDone
    ensures Run(cfg, evs + more).initDone && Run(cfg, evs + more).log.dataset == Run(cfg, evs).log.dataset
  {
    if more == [] {
      assert evs + more == evs;
    } else {
      var init := more[..|more| - 1];
      CutLast(evs, more);
      DatasetFixed(cfg, evs, init);
      RunInv(cfg, evs + init);
      StepKeepsDataset(cfg, Run(cfg, evs + init), more[|more| - 1]);
    }
  }

  lemma StepKeepsDataset(cfg: Config, w: World, ev: Event)
    requires w.initDone && w.store.Some?
    ensures Step(cfg, w, ev).initDone && Step(cfg, w, ev).log.dataset == w.log.dataset
  {}

  /** In every run each Pending dispatch has an armed timer with exactly its id and epoch,
      except those whose own snapshot failed since the last restart; and no dispatch leaves
      Pending twice between two restarts. */
  lemma TimersMatchPending(cfg: Config, evs: seq<Event>)
    requires forall ev | ev in evs :: Possible(ev)
    ensures var w := Run(cfg, evs); w.initDone ==>
      && (forall id | id in w.state.pending ::
            w.state.pending[id].task.meta in w.log.timers <==> w.state.pending[id].task.meta !in w.log.stranded)
      && NoDup(w.log.left) && (forall m | m in w.log.left :: !Effective(w.state, m))
  {
    RunInv(cfg, evs);
  }

  lemma {:induction false} NeverStranded(cfg: Config, evs: seq<Event>)
    requires forall ev | ev in evs :: ev.GetTask? ==> ev.outcome.Saved?
    ensures Run(cfg, evs).log.stranded == {}
  {
    if evs != [] { NeverStranded(cfg, evs[..|evs| - 1]); }
  }

  /** In every run a failure report changes the queues if and only if it names the Pending dispatch of its
      task; a stale report changes nothing at all, a stale timer only disarms itself, and a dispatch that
      left Pending is stale. */
  lemma StaleReportsChangeNothing(cfg: Config, evs: seq<Event>, m: TaskMeta, o: SaveOutcome)
    requires forall ev | ev in evs :: Possible(ev)
    ensures var w := Run(cfg, evs); w.initDone ==>
      && (Step(cfg, w, TaskFailed(m, o)).state != w.state <==> Effective(w.state, m))
      && (!Effective(w.state, m) ==>
            && Step(cfg, w, TaskFailed(m, o)) == w
            && Step(cfg, w, TimerFires(m, o)) == w.(log := w.log.(timers := w.log.timers - {m})))
      && (m in w.log.left ==> !Effective(w.state, m))
  {
    var w := Run(cfg, evs);
    if w.initDone {
      ReportEffect(cfg, w, m, o);
      assert m in w.log.left ==> !Effective(w.state, m) by { RunInv(cfg, evs); }
    }
  }

  lemma ReportEffect(cfg: Config, w: World, m: TaskMeta, o: SaveOutcome)
    requires w.initDone
    ensures Step(cfg, w, TaskFailed(m, o)).state != w.state <==> Effective(w.state, m)
    ensures !Effective(w.state, m) ==>
      && Step(cfg, w, TaskFailed(m, o)) == w
      && Step(cfg, w, TimerFires(m, o)) == w.(log := w.log.(timers := w.log.timers - {m}))
  {
    if Effective(w.state, m) { assert m.id !in Fail(cfg, w.state, m.id).pending; }
  }

  /** A failing snapshot inside GetTask leaves a Pending task that no trainer has and no timer watches. */
  lemma FailedDispatchIsUnwatched(cfg: Config, w: World)
    requires Inv(cfg, w) && w.initDone && w.state.todo != []
    ensures var w', id := Step(cfg, w, GetTask(w.state.curPass, NotSaved)), w.state.todo[0].Id();
      id in w'.state.pending && w'.state.pending[id].task.meta !in w'.log.timers
        && w'.state.pending[id].task.meta !in w'.log.handed
  {
    GetTaskInv(cfg, w, w.state.curPass, NotSaved);
    var m := Bumped(w.state).task.meta;
    DispatchFresh(w.state, w.log.dataset, m);
    PastAdvances(w.store.value, w.state, w.log.dataset, Set(w.log.handed));
    assert m in w.log.handed ==> m in Set(w.log.handed);
  }

  /** The dispatches of one pass, between two restarts, number at most N * (failureMax + 1). */
  lemma DispatchBound(cfg: Config, evs: seq<Event>)
    requires forall ev | ev in evs :: Possible(ev)
    ensures var w := Run(cfg, evs); |w.log.passLog| <= |w.log.dataset| * (cfg.failureMax + 1)
    ensures var w := Run(cfg, evs); forall id | id in w.log.dataset :: Attempts(w.log.passLog, id) <= cfg.failureMax + 1
  {
    RunInv(cfg, evs);
    InvBound(cfg, Run(cfg, evs));
    TimesIsProduct(|Run(cfg, evs).log.dataset|, cfg.failureMax + 1);
  }

  lemma InvBound(cfg: Config, w: World)
    requires Inv(cfg, w)
    ensures |w.log.passLog| <= Times(|w.log.dataset|, cfg.failureMax + 1)
    ensures forall id | id in w.log.dataset :: Attempts(w.log.passLog, id) <= cfg.failureMax + 1
  {
    if w.initDone { BudgetBounds(cfg, w.state, w.log.dataset, w.log.passLog); }
  }

  lemma BudgetBounds(cfg: Config, s: State, d: map<int, seq<Chunk>>, passLog: seq<int>)
    requires Conserved(s, d) && Budget(cfg, s, passLog) && forall id | id in passLog :: id in d
    ensures forall id | id in d :: Attempts(passLog, id) <= cfg.failureMax + 1
    ensures |passLog| <= Times(|d|, cfg.failureMax + 1)
  {
    forall id | id in d ensures Attempts(passLog, id) <= cfg.failureMax + 1 { var e := Find(s, d, id); }
    CountBound(passLog, d.Keys, cfg.failureMax + 1);
    assert |d.Keys| == |d|;
  }

  function Without(passLog: seq<int>, x: int): seq<int> {
    if passLog == [] then []
    else Without(passLog[..|passLog| - 1], x) + if passLog[|passLog| - 1] == x then [] else [passLog[|passLog| - 1]]
  }

  lemma {:induction false} WithoutCounts(passLog: seq<int>, x: int, y: int)
    ensures |passLog| == Attempts(passLog, x) + |Without(passLog, x)|
    ensures y != x ==> Attempts(Without(passLog, x), y) == Attempts(passLog, y)
    ensures y in Without(passLog, x) ==> y in passLog && y != x
  {
    if passLog != [] {
      var init, last := passLog[..|passLog| - 1], passLog[|passLog| - 1];
      WithoutCounts(init, x, y);
      assert Without(init, x) + [] == Without(init, x);
      if last != x { AttemptsAppend(Without(init, x), last, y); }
    }
  }

  function Times(n: nat, k: nat): nat { if n == 0 then 0 else Times(n - 1, k) + k }

  lemma {:induction false} TimesIsProduct(n: nat, k: nat)
    ensures Times(n, k) == n * k
  {
    if n > 0 {
      TimesIsProduct(n - 1, k);
      assert n * k == (n - 1) * k + k;
    }
  }

  lemma DropId(passLog: seq<int>, x: int)
    ensures |passLog| == Attempts(passLog, x) + |Without(passLog, x)|
    ensures forall y | y != x :: Attempts(Without(passLog, x), y) == Attempts(passLog, y)
    ensures forall y | y in Without(passLog, x) :: y in passLog && y != x
  {
    WithoutCounts(passLog, x, x);
    forall y ensures y != x ==> Attempts(Without(passLog, x), y) == Attempts(passLog, y) { WithoutCounts(passLog, x, y); }
    forall y | y in Without(passLog, x) ensures y in passLog && y != x { WithoutCounts(passLog, x, y); }
  }

  lemma FirstOf<T>(s: seq<T>) returns (x: T)
    requires s != []
    ensures x in s
  {
    x := s[0];
  }

  lemma {:induction false} CountBound(passLog: seq<int>, keys: set<int>, k: nat)
    requires forall id | id in passLog :: id in keys
    requires forall id | id in keys :: Attempts(passLog, id) <= k
    ensures |passLog| <= Times(|keys|, k)
    decreases |keys|
  {
    if passLog != [] {
      var x := FirstOf(passLog);
      DropId(passLog, x);
      var rest := keys - {x};
      CountBound(Without(passLog, x), rest, k);
      assert |keys| == |rest| + 1;
    }
  }

  /** CurPass rises by one exactly when TaskFinished takes the last outstanding task; then
      every task is in Todo again. */
  lemma PassRises(cfg: Config, w: World, ev: Event)
    requires Inv(cfg, w) && w.initDone && !ev.Restart?
    ensures var last := ev.TaskFinished? && w.state.todo == [] && w.state.pending.Keys == {ev.id};
      var s' := Step(cfg, w, ev).state;
      && s'.curPass == w.state.curPass + (if last then 1 else 0)
      && (last ==> Ids(s'.todo) == w.log.dataset.Keys && s'.pending == map[] && s'.done == [] && s'.failed == [])
  {
    if ev.TaskFinished? && ev.id in w.state.pending {
      var f := Finish(w.state, ev.id);
      assert f.pending == map[] <==> w.state.pending.Keys == {ev.id} by { OnlyKey(w.state.pending, ev.id); }
      if Drained(f) {
        assert Conserved(f, w.log.dataset) by { FinishSound(cfg, w.state, w.log.dataset, ev.id); }
        RolloverAll(f, w.log.dataset);
      }
    }
  }

  lemma RolloverAll(s: State, d: map<int, seq<Chunk>>)
    requires Conserved(s, d) && Drained(s)
    ensures Ids(Rollover(s).todo) == d.Keys
  {
    IdsConcat(s.done, s.failed);
    assert Ids([]) == {};
  }

  lemma OthersKeepBusy(cfg: Config, w: World, ev: Event)
    requires w.initDone && !Drained(w.state) && !ev.TaskFailed? && !ev.TimerFires? && !ev.Restart?
    ensures !Drained(Step(cfg, w, ev).state)
  {
    if ev.TaskFinished? && ev.id in w.state.pending { assert |Finish(w.state, ev.id).done| > 0; }
    if ev.GetTask? && w.state.todo != [] { assert Bumped(w.state).Id() in Dispatch(w.state).pending; }
  }

  /** The report takes the last outstanding task, and for the last time. */
  predicate FinalFailure(cfg: Config, w: World, ev: Event) {
    && (ev.TaskFailed? || (ev.TimerFires? && ev.meta in w.log.timers)) && Effective(w.state, ev.meta)
    && w.state.todo == [] && w.state.pending.Keys == {ev.meta.id}
    && w.state.pending[ev.meta.id].numFailure >= cfg.failureMax
  }

  /** Exactly the final failure of the last outstanding task leaves nothing to dispatch and
      nothing to wait for. */
  lemma OnlyFailureDrains(cfg: Config, w: World, ev: Event)
    requires w.initDone && !ev.Restart? && !Drained(w.state)
    ensures Drained(Step(cfg, w, ev).state) <==> FinalFailure(cfg, w, ev)
    ensures Drained(Step(cfg, w, ev).state) ==> Step(cfg, w, ev).state.failed != []
  {
    if !ev.TaskFailed? && !ev.TimerFires? {
      OthersKeepBusy(cfg, w, ev);
    } else if Effective(w.state, ev.meta) {
      FailDrains(cfg, w.state, ev.meta.id);
    }
  }

  lemma FailDrains(cfg: Config, s: State, id: int)
    requires id in s.pending
    ensures Drained(Fail(cfg, s, id)) <==>
      s.todo == [] && s.pending.Keys == {id} && s.pending[id].numFailure >= cfg.failureMax
    ensures Drained(Fail(cfg, s, id)) ==> Fail(cfg, s, id).failed != []
  {
    OnlyKey(s.pending, id);
  }

  /** A run that gets there: one chunk, no retries, one failure. */
  lemma OneFailureDrains(chunk: Chunk)
    ensures var cfg, path := Config(1, 0), chunk.path;
      var evs := [SetDataset([path], Some([chunk]), 0, Saved), GetTask(0, Saved), TaskFailed(TaskMeta(0, 1), Saved)];
      (forall ev | ev in evs :: Possible(ev)) && Run(cfg, evs).initDone && Drained(Run(cfg, evs).state)
  {
    var cfg := Config(1, 0);
    var a, b, c := SetDataset([chunk.path], Some([chunk]), 0, Saved), GetTask(0, Saved), TaskFailed(TaskMeta(0, 1), Saved);
    assert [a, b, c][..2] == [a, b] && [a, b][..1] == [a] && [a][..0] == [];
    var task := NewEntry(0, [chunk]);
    assert Partition([chunk], 1, 0) == [task];
    assert Run(cfg, []).state == EMPTY && !Run(cfg, []).initDone;
    var s1 := Run(cfg, [a]).state;
    assert s1 == EMPTY.(todo := [task]) && Run(cfg, [a]).initDone;
    var s2 := Run(cfg, [a, b]).state;
    assert s2 == Dispatch(s1) && s2.pending == map[0 := Bumped(s1)] && s2.todo == [];
    FailDrains(cfg, s2, 0);
  }

  /** Then no event short of a restart changes the queues or the pass again, and GetTask
      keeps answering that no task is available. */
  lemma {:induction false} DrainedForever(cfg: Config, evs: seq<Event>, more: seq<Event>)
    requires (forall ev | ev in evs + more :: Possible(ev)) && forall ev | ev in more :: !ev.Restart?
    requires Run(cfg, evs).initDone && Drained(Run(cfg, evs).state)
    ensures Run(cfg, evs + more).initDone && Run(cfg, evs + more).state == Run(cfg, evs).state
    ensures var w := Run(cfg, evs + more);
      forall o :: GetTaskStep(w, w.state.curPass, o) == (w, if w.state.done == [] then AllTaskFailed else NoMoreAvailable)
  {
    if more == [] {
      assert evs + more == evs;
    } else {
      var init := more[..|more| - 1];
      assert (evs + more)[..|evs + more| - 1] == evs + init;
      DrainedForever(cfg, evs, init);
    }
  }
}
