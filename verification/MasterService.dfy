/** The master as an object that updates its queues in place (go/master/service.go). Each
    method does what the source's handler does under the mutex and is proved to perform the
    corresponding step of module Master on the world it lives in. */
module MasterService {
  import opened Common
  import opened Master
  import opened MasterAnswers
  import MasterRuns

  /** The durable cell behind the Store interface; encoding and decoding are the identity. */
  class Store {
    var cell: Option<State>

    constructor ()
      ensures cell == None
    {
      cell := None;
    }

    method Save(s: State, outcome: SaveOutcome) returns (err: bool)
      modifies this
      ensures cell == Durable(old(cell), s, outcome) && err == !outcome.Saved?
      ensures cell == if outcome.NotSaved? then old(cell) else Some(s)
    {
      if !outcome.NotSaved? { cell := Some(s); }
      err := !outcome.Saved?;
    }
  }

  class Service {
    const cfg: Config
    const store: Store
    var state: State
    var initDone: bool
    ghost var log: History

    ghost function View(): World
      reads this, store
    {
      World(state, initDone, store.cell, log)
    }

    /** Pending maps every id to the entry of that id. */
    ghost predicate Keyed()
      reads this
    {
      forall id | id in state.pending :: state.pending[id].Id() == id
    }

    /** NewService: start empty, then recover what the store holds and arm a timer for every
        Pending task. */
    constructor (cfg: Config, store: Store, ghost before: History)
      ensures this.cfg == cfg && this.store == store
      ensures View() == RestartStep(store.cell, before) && RecoverAnswer(store.cell, before, View())
    {
      RecoverAnswers(store.cell, before);
      this.cfg := cfg;
      this.store := store;
      state := EMPTY;
      initDone := false;
      log := NO_HISTORY.(handed := before.handed, dataset := before.dataset);
      new;
      if store.cell.Some? {
        state := store.cell.value;
        var ids := state.pending.Keys;
        while ids != {}
          invariant ids <= state.pending.Keys && state == store.cell.value && !initDone
          invariant log == NO_HISTORY.(handed := before.handed, dataset := before.dataset,
                                       timers := set id | id in state.pending && id !in ids :: state.pending[id].task.meta)
          decreases ids
        {
          var id := Choose(ids);
          log := log.(timers := log.timers + {state.pending[id].task.meta});
          ids := ids - {id};
        }
        initDone := true;
      }
    }

    method SetDataset(paths: seq<string>, read: Option<seq<Chunk>>, base: int, outcome: SaveOutcome) returns (r: Reply)
      modifies this, store
      ensures (View(), r) == SetDatasetStep(cfg, old(View()), paths, read, base, outcome)
      ensures SetDatasetAnswer(cfg, old(View()), paths, read, base, outcome, View(), r)
    {
      SetDatasetAnswers(cfg, View(), paths, read, base, outcome);
      if paths == [] { return NoDataset; }
      if initDone { return Okay; }
      if read.None? { return ReadError; }
      var todo := PartitionLoop(read.value, cfg.chunksPerTask, base);
      state := state.(todo := todo);
      var err := store.Save(state, outcome);
      if !outcome.NotSaved? { log := log.(dataset := DatasetOf(todo)); }
      if err { return SnapshotError; }
      initDone := true;
      r := Okay;
    }

    method GetTask(passID: int, outcome: SaveOutcome) returns (r: Reply)
      requires initDone  // the handler waits on `ready` first
      modifies this, store
      ensures (View(), r) == GetTaskStep(old(View()), passID, outcome)
      ensures GetTaskAnswer(old(View()), passID, outcome, View(), r)
      ensures r.Dispatched? && MasterRuns.Inv(cfg, old(View())) ==>
        && r.task.meta !in old(log.handed) && r.task.meta.id in log.dataset
        && r.task.chunks == log.dataset[r.task.meta.id]
    {
      GetTaskAnswers(View(), passID, outcome);
      DispatchedIsNew(cfg, View(), passID, outcome);
      if passID < state.curPass { return PassBefore; }
      if passID > state.curPass { return PassAfter; }
      if |state.todo| == 0 {
        return if |state.done| == 0 && state.pending == map[] then AllTaskFailed else NoMoreAvailable;
      }
      var t := state.todo[0];
      t := t.(task := t.task.(meta := t.task.meta.(epoch := t.task.meta.epoch + 1)));
      state := state.(todo := state.todo[1..]);
      state := state.(pending := state.pending[t.task.meta.id := t]);
      log := log.(passLog := log.passLog + [t.Id()]);
      var err := store.Save(state, outcome);
      if err {
        log := log.(stranded := log.stranded + {t.task.meta});
        return SnapshotError;
      }
      log := log.(timers := log.timers + {t.task.meta}, handed := log.handed + [t.task.meta]);
      r := Dispatched(t.task);
    }

    method TaskFinished(id: int, outcome: SaveOutcome) returns (r: Reply)
      requires initDone
      modifies this, store
      ensures (View(), r) == TaskFinishedStep(old(View()), id, outcome)
      ensures TaskFinishedAnswer(old(View()), id, outcome, View(), r)
    {
      TaskFinishedAnswers(View(), id, outcome);
      if id !in state.pending { return Okay; }
      var t := state.pending[id];
      t := t.(numFailure := 0);
      state := state.(done := state.done + [t]);
      state := state.(pending := state.pending - {id});
      log := log.(left := log.left + [t.task.meta]);
      if |state.todo| == 0 && state.pending == map[] {
        state := state.(curPass := state.curPass + 1);
        state := state.(todo := state.done + state.failed);
        state := state.(done := []);
        state := state.(failed := []);
        log := log.(passLog := []);
      }
      var err := store.Save(state, outcome);
      r := if err then SnapshotError else Okay;
    }

    method ProcessFailedTask(t: Entry, epoch: int, outcome: SaveOutcome)
      requires t.Id() in state.pending && state.pending[t.Id()] == t
      modifies this, store
      ensures View() == ReportStep(cfg, old(View()), TaskMeta(t.Id(), epoch), outcome)
      ensures FailureAnswer(cfg, old(View()), TaskMeta(t.Id(), epoch), outcome, View())
    {
      FailureAnswers(cfg, View(), TaskMeta(t.Id(), epoch), outcome);
      if t.task.meta.epoch != epoch { return; }
      state := state.(pending := state.pending - {t.task.meta.id});
      log := log.(left := log.left + [t.task.meta]);
      var t' := t.(numFailure := t.numFailure + 1);
      if t'.numFailure > cfg.failureMax {
        state := state.(failed := state.failed + [t']);
      } else {
        state := state.(todo := state.todo + [t']);
      }
      var _ := store.Save(state, outcome);
    }

    method TaskFailed(meta: TaskMeta, outcome: SaveOutcome)
      requires initDone && Keyed()
      modifies this, store
      ensures View() == ReportStep(cfg, old(View()), meta, outcome)
      ensures FailureAnswer(cfg, old(View()), meta, outcome, View())
    {
      FailureAnswers(cfg, View(), meta, outcome);
      if meta.id !in state.pending { return; }
      ProcessFailedTask(state.pending[meta.id], meta.epoch, outcome);
    }

    /** The function armed by time.AfterFunc. */
    method CheckTimeout(meta: TaskMeta, outcome: SaveOutcome)
      requires initDone && Keyed() && meta in log.timers
      modifies this, store
      ensures View() == Step(cfg, old(View()), TimerFires(meta, outcome))
      ensures var w := old(View()); var disarmed := w.(log := w.log.(timers := w.log.timers - {meta}));
        FailureAnswer(cfg, disarmed, meta, outcome, View())
    {
      FailureAnswers(cfg, View().(log := log.(timers := log.timers - {meta})), meta, outcome);
      log := log.(timers := log.timers - {meta});
      if meta.id !in state.pending { return; }
      ProcessFailedTask(state.pending[meta.id], meta.epoch, outcome);
    }
  }
}
