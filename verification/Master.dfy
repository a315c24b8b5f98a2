/** The master's task queues (go/master/service.go): dispatch, timeouts, passes,
    snapshots and recovery. Every handler holds the service mutex, so a run is a
    sequence of events; `Step` gives the effect of one event on the whole world,
    and class `Service` performs the same steps in place. */
module Master {
  import opened Common

  datatype Chunk = Chunk(path: string, index: int)
  datatype TaskMeta = TaskMeta(id: int, epoch: int)
  datatype Task = Task(meta: TaskMeta, chunks: seq<Chunk>)
  datatype Entry = Entry(task: Task, numFailure: int) {
    function Id(): int { task.meta.id }
    function Epoch(): int { task.meta.epoch }
  }

  datatype State = State(todo: seq<Entry>, pending: map<int, Entry>, done: seq<Entry>,
                         failed: seq<Entry>, curPass: int)

  datatype Config = Config(chunksPerTask: int, failureMax: nat)

  /** What a call of the durable store's Save did: an error does not say whether the
      write took effect. */
  datatype SaveOutcome = Saved | NotSaved | SavedButError

  /** History that the source does not keep: armed timers, dispatches whose own
      snapshot failed (so that no timer was armed), every task meta returned to a
      trainer, the ids dispatched in this pass, the dispatches that left Pending, and
      the dataset the store holds. `passLog`, `left`, `timers` and `stranded` are per
      running master; `handed` and `dataset` survive a restart. */
  datatype History = History(timers: set<TaskMeta>, stranded: set<TaskMeta>, handed: seq<TaskMeta>,
                             passLog: seq<int>, left: seq<TaskMeta>, dataset: map<int, seq<Chunk>>)

  datatype World = World(state: State, initDone: bool, store: Option<State>, log: History)

  datatype Event =
    | SetDataset(paths: seq<string>, read: Option<seq<Chunk>>, base: int, outcome: SaveOutcome)
    | GetTask(passID: int, outcome: SaveOutcome)
    | TaskFinished(id: int, outcome: SaveOutcome)
    | TaskFailed(meta: TaskMeta, outcome: SaveOutcome)
    | TimerFires(meta: TaskMeta, outcome: SaveOutcome)
    | Restart

  datatype Reply = NoDataset | ReadError | SnapshotError | PassBefore | PassAfter
                 | AllTaskFailed | NoMoreAvailable | Okay | Dispatched(task: Task)

  const EMPTY := State([], map[], [], [], 0)
  const NO_HISTORY := History({}, {}, [], [], [], map[])

  // ---------------------------------------------------------------- partition

  const TWO_64: int := 0x1_0000_0000_0000_0000
  const TWO_63: int := 0x8000_0000_0000_0000

  /** Two's complement wrap of Go's 64-bit int. */
  function Wrap(x: int): (r: int)
    ensures -TWO_63 <= r < TWO_63 && (x - r) % TWO_64 == 0
  {
    (x + TWO_63) % TWO_64 - TWO_63
  }

  lemma WrapInjective(a: int, b: int)
    requires a < b < a + TWO_64
    ensures Wrap(a) != Wrap(b)
  {}

  function NewEntry(id: int, chunks: seq<Chunk>): Entry {
    Entry(Task(TaskMeta(id, 0), chunks), 0)
  }

  function TaskSize(chunksPerTask: int): (k: nat)
    ensures k >= 1 && (k == chunksPerTask || (k == 1 && chunksPerTask <= 0))
  {
    if chunksPerTask <= 0 then 1 else chunksPerTask
  }

  /** The tasks cut off the front of `chunks`, `k` chunks each and the last one the rest. */
  function Partition(chunks: seq<Chunk>, k: nat, base: int): seq<Entry>
    requires k >= 1
  {
    if chunks == [] then []
    else if |chunks| <= k then [NewEntry(Wrap(base), chunks)]
    else [NewEntry(Wrap(base), chunks[..k])] + Partition(chunks[k..], k, base + 1)
  }

  function Chunks(es: seq<Entry>): seq<Chunk> {
    if es == [] then [] else es[0].task.chunks + Chunks(es[1..])
  }

  lemma ModSucc(a: nat, k: nat)
    requires k > 0
    ensures (a + 1) % k == if a % k + 1 == k then 0 else a % k + 1
  {
    var q, r := a / k, a % k;
    if r + 1 == k { ModUnique(a + 1, q + 1, 0, k); } else { ModUnique(a + 1, q, r + 1, k); }
  }

  lemma PartitionFull(cur: seq<Chunk>, rest: seq<Chunk>, k: nat, base: int)
    requires |cur| == k >= 1
    ensures Partition(cur + rest, k, base) == [NewEntry(Wrap(base), cur)] + Partition(rest, k, base + 1)
  {
    assert (cur + rest)[..k] == cur && (cur + rest)[k..] == rest;
    if rest == [] { assert cur + rest == cur; }
  }

  lemma TakeNext<T>(cur: seq<T>, s: seq<T>, i: nat)
    requires i < |s|
    ensures cur + s[i..] == (cur + [s[i]]) + s[i + 1..]
  {}

  /** The source's loop: `cur` collects chunks until the index is a multiple of the task size. */
  method PartitionLoop(chunks: seq<Chunk>, chunksPerTask: int, base: int) returns (result: seq<Entry>)
    ensures result == Partition(chunks, TaskSize(chunksPerTask), base)
  {
    var k := TaskSize(chunksPerTask);
    var cur: seq<Chunk> := [];
    var counter := 0;
    result := [];
    ghost var whole := Partition(chunks, k, base);
    ghost var rest := whole;
    assert cur + chunks[0..] == chunks;
    for i := 0 to |chunks|
      invariant |cur| <= k && (i > 0 ==> |cur| > 0) && i % k == if |cur| == k then 0 else |cur|
      invariant rest == Partition(cur + chunks[i..], k, base + counter)
      invariant result + rest == whole
    {
      ModSucc(i, k);
      if i % k == 0 && |cur| > 0 {
        PartitionFull(cur, chunks[i..], k, base + counter);
        rest := Partition(chunks[i..], k, base + counter + 1);
        Assoc(result, [NewEntry(Wrap(base + counter), cur)], rest);
        result := result + [NewEntry(Wrap(base + counter), cur)];
        counter := counter + 1;
        cur := [];
        assert cur + chunks[i..] == chunks[i..];
      }
      TakeNext(cur, chunks, i);
      cur := cur + [chunks[i]];
    }
    assert cur + chunks[|chunks|..] == cur;
    if |cur| > 0 {
      result := result + [NewEntry(Wrap(base + counter), cur)];
    }
  }

  predicate Distinct(es: seq<Entry>) {
    forall i, j | 0 <= i < j < |es| :: es[i].Id() != es[j].Id()
  }

  lemma {:induction false} PartitionShape(chunks: seq<Chunk>, k: nat, base: int)
    requires k >= 1
    ensures var es := Partition(chunks, k, base);
      && |es| <= |chunks|
      && (forall i | 0 <= i < |es| :: es[i] == NewEntry(Wrap(base + i), es[i].task.chunks)
            && 1 <= |es[i].task.chunks| <= k && (i + 1 < |es| ==> |es[i].task.chunks| == k))
  {
    if |chunks| > k {
      PartitionShape(chunks[k..], k, base + 1);
    }
  }

  /** partition cuts the chunk list into consecutive non-empty tasks, all but the last of
      exactly the task size, with distinct ids, that concatenate back to the list. The ids
      stay distinct when the counter wraps around Go's int range. */
  lemma {:induction false} PartitionIsPartition(chunks: seq<Chunk>, k: nat, base: int)
    requires k >= 1 && |chunks| <= TWO_63
    ensures var es := Partition(chunks, k, base);
      && Chunks(es) == chunks
      && Distinct(es)
      && (forall i | 0 <= i < |es| :: 1 <= |es[i].task.chunks| <= k && es[i].numFailure == 0 && es[i].Epoch() == 0)
      && (forall i | 0 <= i < |es| - 1 :: |es[i].task.chunks| == k)
  {
    PartitionShape(chunks, k, base);
    PartitionConcat(chunks, k, base);
    IdsDistinct(Partition(chunks, k, base), base);
  }

  lemma IdsDistinct(es: seq<Entry>, base: int)
    requires |es| <= TWO_63 && forall i | 0 <= i < |es| :: es[i].Id() == Wrap(base + i)
    ensures Distinct(es)
  {
    forall i, j | 0 <= i < j < |es| ensures es[i].Id() != es[j].Id() { WrapInjective(base + i, base + j); }
  }

  lemma {:induction false} PartitionConcat(chunks: seq<Chunk>, k: nat, base: int)
    requires k >= 1
    ensures Chunks(Partition(chunks, k, base)) == chunks
  {
    if 0 < |chunks| <= k {
      assert Chunks([NewEntry(Wrap(base), chunks)]) == chunks + Chunks([]);
    } else if |chunks| > k {
      PartitionConcat(chunks[k..], k, base + 1);
      var rest := Partition(chunks[k..], k, base + 1);
      var es := [NewEntry(Wrap(base), chunks[..k])] + rest;
      assert es[1..] == rest;
      assert chunks[..k] + chunks[k..] == chunks;
    }
  }

  /** The tasks hold the chunks in order; all but the last hold exactly `chunksPerTask`, or one if that is not
      positive, and the last no more; and their ids count up from `base`. */
  predicate CutFrom(chunks: seq<Chunk>, chunksPerTask: int, base: int, es: seq<Entry>) {
    var k := if chunksPerTask >= 1 then chunksPerTask else 1;
    && Chunks(es) == chunks
    && forall i | 0 <= i < |es| ::
         && es[i] == Entry(Task(TaskMeta(Wrap(base + i), 0), es[i].task.chunks), 0)
         && 1 <= |es[i].task.chunks| <= k && (i + 1 < |es| ==> |es[i].task.chunks| == k)
  }

  lemma PartitionIsCut(chunks: seq<Chunk>, chunksPerTask: int, base: int)
    ensures CutFrom(chunks, chunksPerTask, base, Partition(chunks, TaskSize(chunksPerTask), base))
  {
    PartitionShape(chunks, TaskSize(chunksPerTask), base);
    PartitionConcat(chunks, TaskSize(chunksPerTask), base);
  }

  // -------------------------------------------------------------------- steps

  function Durable(store: Option<State>, s: State, o: SaveOutcome): Option<State> {
    if o.NotSaved? then store else Some(s)
  }

  function DatasetOf(todo: seq<Entry>): map<int, seq<Chunk>> {
    if todo == [] then map[] else DatasetOf(todo[1..])[todo[0].Id() := todo[0].task.chunks]
  }

  function SetDatasetStep(cfg: Config, w: World, paths: seq<string>, read: Option<seq<Chunk>>, base: int,
                          o: SaveOutcome): (World, Reply)
  {
    if paths == [] then (w, NoDataset)
    else if w.initDone then (w, Okay)
    else if read.None? then (w, ReadError)
    else
      var s := w.state.(todo := Partition(read.value, TaskSize(cfg.chunksPerTask), base));
      var log := if o.NotSaved? then w.log else w.log.(dataset := DatasetOf(s.todo));
      (World(s, o.Saved?, Durable(w.store, s, o), log), if o.Saved? then Okay else SnapshotError)
  }

  /** Todo's head moves to Pending under its next epoch. */
  function Dispatch(s: State): State
    requires s.todo != []
  {
    var t := Bumped(s);
    s.(todo := s.todo[1..], pending := s.pending[t.Id() := t])
  }

  function Bumped(s: State): Entry
    requires s.todo != []
  {
    var e := s.todo[0];
    e.(task := e.task.(meta := TaskMeta(e.Id(), e.Epoch() + 1)))
  }

  function GetTaskStep(w: World, passID: int, o: SaveOutcome): (World, Reply) {
    var s := w.state;
    if passID < s.curPass then (w, PassBefore)
    else if passID > s.curPass then (w, PassAfter)
    else if s.todo == [] then
      (w, if s.done == [] && s.pending == map[] then AllTaskFailed else NoMoreAvailable)
    else
      var s', m := Dispatch(s), Bumped(s).task.meta;
      var log := w.log.(passLog := w.log.passLog + [m.id]);
      if o.Saved? then
        (World(s', w.initDone, Some(s'), log.(timers := log.timers + {m}, handed := log.handed + [m])),
         Dispatched(Bumped(s).task))
      else
        (World(s', w.initDone, Durable(w.store, s', o), log.(stranded := log.stranded + {m})), SnapshotError)
  }

  function Finish(s: State, id: int): State
    requires id in s.pending
  {
    s.(done := s.done + [s.pending[id].(numFailure := 0)], pending := s.pending - {id})
  }

  predicate Drained(s: State) { s.todo == [] && s.pending == map[] }

  function Rollover(s: State): State {
    State(s.done + s.failed, s.pending, [], [], s.curPass + 1)
  }

  function TaskFinishedStep(w: World, id: int, o: SaveOutcome): (World, Reply) {
    if id !in w.state.pending then (w, Okay)
    else
      var f := Finish(w.state, id);
      var s := if Drained(f) then Rollover(f) else f;
      var log := w.log.(left := w.log.left + [w.state.pending[id].task.meta],
                        passLog := if Drained(f) then [] else w.log.passLog);
      (World(s, w.initDone, Durable(w.store, s, o), log), if o.Saved? then Okay else SnapshotError)
  }

  function Fail(cfg: Config, s: State, id: int): State
    requires id in s.pending
  {
    var t := s.pending[id].(numFailure := s.pending[id].numFailure + 1);
    if t.numFailure > cfg.failureMax
    then s.(pending := s.pending - {id}, failed := s.failed + [t])
    else s.(pending := s.pending - {id}, todo := s.todo + [t])
  }

  /** A failure report counts only for the dispatch it names. */
  predicate Effective(s: State, m: TaskMeta) {
    m.id in s.pending && s.pending[m.id].Epoch() == m.epoch
  }

  function ReportStep(cfg: Config, w: World, m: TaskMeta, o: SaveOutcome): World {
    if !Effective(w.state, m) then w
    else
      var s := Fail(cfg, w.state, m.id);
      World(s, w.initDone, Durable(w.store, s, o), w.log.(left := w.log.left + [m]))
  }

  function Metas(pending: map<int, Entry>): set<TaskMeta> {
    set id | id in pending :: pending[id].task.meta
  }

  /** A new master over the same store: timers die with the process and are armed again
      for every recovered Pending task. */
  function RestartStep(store: Option<State>, log: History): World {
    match store
    case None => World(EMPTY, false, None, NO_HISTORY.(handed := log.handed, dataset := log.dataset))
    case Some(s) =>
      World(s, true, store, History(Metas(s.pending), {}, log.handed, [], [], log.dataset))
  }

  /** GetTask, TaskFinished and TaskFailed block until the master is ready. */
  function Step(cfg: Config, w: World, ev: Event): World {
    match ev
    case SetDataset(paths, read, base, o) => SetDatasetStep(cfg, w, paths, read, base, o).0
    case GetTask(p, o) => if w.initDone then GetTaskStep(w, p, o).0 else w
    case TaskFinished(id, o) => if w.initDone then TaskFinishedStep(w, id, o).0 else w
    case TaskFailed(m, o) => if w.initDone then ReportStep(cfg, w, m, o) else w
    case TimerFires(m, o) =>
      if m !in w.log.timers then w else
      ReportStep(cfg, w.(log := w.log.(timers := w.log.timers - {m})), m, o)
    case Restart => RestartStep(w.store, w.log)
  }

  /** readChunks returns at most as many chunks as a Go slice can hold. */
  predicate Possible(ev: Event) {
    ev.SetDataset? && ev.read.Some? ==> |ev.read.value| < TWO_63
  }

  function Run(cfg: Config, evs: seq<Event>): World {
    if evs == [] then World(EMPTY, false, None, NO_HISTORY)
    else Step(cfg, Run(cfg, evs[..|evs| - 1]), evs[|evs| - 1])
  }
}
