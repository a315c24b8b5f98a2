/** What each call to the master does, said outright: the reply, the queues, the store and the timers after it. */
module MasterAnswers {
  import opened Common
  import opened Master
  import opened MasterRuns

  /** Everything but the queues, the store and the named parts of the history is as before. */
  predicate StoredLike(w: World, w': World, o: SaveOutcome) {
    w'.initDone == w.initDone && w'.store == if o.NotSaved? then w.store else Some(w'.state)
  }

  // ---------------------------------------------------------------------- GetTask

  predicate GetTaskAnswer(w: World, passID: int, o: SaveOutcome, w': World, r: Reply) {
    var s := w.state;
    var dispatches := passID == s.curPass && s.todo != [];
    && (r.PassBefore? <==> passID < s.curPass)
    && (r.PassAfter? <==> passID > s.curPass)
    && (r.AllTaskFailed? <==> passID == s.curPass && s.todo == [] && s.done == [] && s.pending == map[])
    && (r.NoMoreAvailable? <==> passID == s.curPass && s.todo == [] && (s.done != [] || s.pending != map[]))
    && (r.SnapshotError? <==> dispatches && !o.Saved?)
    && (r.Dispatched? <==> dispatches && o.Saved?)
    && (!dispatches ==> w' == w)
    && (dispatches ==> HeadDispatched(w, o, w'))
    && (r.Dispatched? ==> Handed(w, w', r.task))
  }

  /** The head of Todo is Pending under its next epoch, with everything else it had. */
  predicate HeadDispatched(w: World, o: SaveOutcome, w': World)
    requires w.state.todo != []
  {
    var e := w.state.todo[0];
    var m := TaskMeta(e.task.meta.id, e.task.meta.epoch + 1);
    && w'.state.todo == w.state.todo[1..]
    && w'.state.pending == w.state.pending[m.id := Entry(Task(m, e.task.chunks), e.numFailure)]
    && w'.state.done == w.state.done && w'.state.failed == w.state.failed && w'.state.curPass == w.state.curPass
    && StoredLike(w, w', o)
    && w'.log.timers == w.log.timers + (if o.Saved? then {m} else {})
    && w'.log.stranded == w.log.stranded + (if o.Saved? then {} else {m})
    && w'.log.handed == w.log.handed + (if o.Saved? then [m] else [])
    && w'.log.passLog == w.log.passLog + [m.id] && w'.log.left == w.log.left && w'.log.dataset == w.log.dataset
  }

  /** The trainer gets exactly the task that is Pending, in memory and in the store, and that the timer watches. */
  predicate Handed(w: World, w': World, t: Task) {
    && t.meta.id in w'.state.pending && w'.state.pending[t.meta.id].task == t
    && w'.store == Some(w'.state) && t.meta in w'.log.timers
    && w'.log.handed == w.log.handed + [t.meta]
    && w.state.todo != [] && t.meta == TaskMeta(w.state.todo[0].Id(), w.state.todo[0].Epoch() + 1)
  }

  lemma GetTaskAnswers(w: World, passID: int, o: SaveOutcome)
    ensures var (w', r) := GetTaskStep(w, passID, o); GetTaskAnswer(w, passID, o, w', r)
  {
    assert w.log.handed + [] == w.log.handed;
  }

  /** In a reachable state, moreover, the task carries its chunks and was never handed out under this epoch. */
  lemma HandedIsNew(cfg: Config, w: World, w': World, t: Task)
    requires Inv(cfg, w) && w.initDone && w.state.todo != [] && w' == GetTaskStep(w, w.state.curPass, Saved).0 && Handed(w, w', t)
    ensures t.meta !in w.log.handed && t.meta.id in w.log.dataset && t.chunks == w.log.dataset[t.meta.id]
  {
    var s, d := w.state, w.log.dataset;
    DispatchFresh(s, d, t.meta);
    PastAdvances(w.store.value, s, d, Set(w.log.handed));
    assert t.meta in w.log.handed ==> t.meta in Set(w.log.handed);
    assert Has(s, s.todo[0]);
  }

  lemma DispatchedIsNew(cfg: Config, w: World, passID: int, o: SaveOutcome)
    requires w.initDone
    ensures var (w', r) := GetTaskStep(w, passID, o); Inv(cfg, w) && r.Dispatched? ==>
      r.task.meta !in w.log.handed && r.task.meta.id in w.log.dataset && r.task.chunks == w.log.dataset[r.task.meta.id]
  {
    var (w', r) := GetTaskStep(w, passID, o);
    if Inv(cfg, w) && r.Dispatched? {
      GetTaskAnswers(w, passID, o);
      HandedIsNew(cfg, w, w', r.task);
    }
  }

  // ------------------------------------------------------------- what trainers received

  /** The metas in the replies of GetTask, in the course of the run. */
  function Received(cfg: Config, evs: seq<Event>): seq<TaskMeta> {
    if evs == [] then []
    else
      var w, ev := Run(cfg, evs[..|evs| - 1]), evs[|evs| - 1];
      Received(cfg, evs[..|evs| - 1]) +
      if ev.GetTask? && w.initDone && GetTaskStep(w, ev.passID, ev.outcome).1.Dispatched?
      then [GetTaskStep(w, ev.passID, ev.outcome).1.task.meta] else []
  }

  lemma {:induction false} ReceivedIsHanded(cfg: Config, evs: seq<Event>)
    requires forall ev | ev in evs :: Possible(ev)
    ensures Received(cfg, evs) == Run(cfg, evs).log.handed
  {
    if evs != [] {
      var init, ev := evs[..|evs| - 1], evs[|evs| - 1];
      var w := Run(cfg, init);
      ReceivedIsHanded(cfg, init);
      if ev.GetTask? {
        GetTaskAnswers(w, ev.passID, ev.outcome);
      } else {
        assert Inv(cfg, w) by { RunInv(cfg, init); }
        HandedKept(cfg, w, ev);
      }
    }
  }

  lemma HandedKept(cfg: Config, w: World, ev: Event)
    requires !ev.GetTask?
    ensures Step(cfg, w, ev).log.handed == w.log.handed
  {}

  /** In every run no trainer ever receives a task id under the same epoch that some trainer received before. */
  lemma NeverReceivedTwice(cfg: Config, evs: seq<Event>)
    requires forall ev | ev in evs :: Possible(ev)
    ensures NoDup(Received(cfg, evs))
  {
    ReceivedIsHanded(cfg, evs);
    NeverHandedTwice(cfg, evs);
  }

  // ----------------------------------------------------------------- TaskFinished

  /** The task goes to Done with its failures forgotten. If it was the last outstanding one, a new pass begins with
      all done and failed tasks in Todo, the failed ones with the failure counts they had. */
  predicate TaskFinishedAnswer(w: World, id: int, o: SaveOutcome, w': World, r: Reply) {
    var s, s' := w.state, w'.state;
    && r == (if id in s.pending && !o.Saved? then SnapshotError else Okay)
    && (id !in s.pending ==> w' == w)
    && (id in s.pending ==>
          var e, last := Entry(s.pending[id].task, 0), s.todo == [] && s.pending.Keys == {id};
          && s'.pending == s.pending - {id} && StoredLike(w, w', o)
          && (if last
              then s'.todo == s.done + [e] + s.failed && s'.done == [] && s'.failed == [] && s'.curPass == s.curPass + 1
              else s'.todo == s.todo && s'.done == s.done + [e] && s'.failed == s.failed && s'.curPass == s.curPass)
          && w'.log == w.log.(left := w.log.left + [e.task.meta], passLog := if last then [] else w.log.passLog))
  }

  lemma TaskFinishedAnswers(w: World, id: int, o: SaveOutcome)
    ensures var (w', r) := TaskFinishedStep(w, id, o); TaskFinishedAnswer(w, id, o, w', r)
  {
    if id in w.state.pending { OnlyKey(w.state.pending, id); }
  }

  // ------------------------------------------------------- TaskFailed and the timers

  /** A report that names the Pending epoch costs the task one more failure: beyond the maximum it is given up, else
      it waits at the end of Todo. Every other report changes nothing. */
  predicate FailureAnswer(cfg: Config, w: World, m: TaskMeta, o: SaveOutcome, w': World) {
    var s, s' := w.state, w'.state;
    if m.id in s.pending && s.pending[m.id].task.meta.epoch == m.epoch then
      var e := Entry(s.pending[m.id].task, s.pending[m.id].numFailure + 1);
      && s'.pending == s.pending - {m.id} && s'.done == s.done && s'.curPass == s.curPass && StoredLike(w, w', o)
      && (if e.numFailure > cfg.failureMax then s'.failed == s.failed + [e] && s'.todo == s.todo
          else s'.todo == s.todo + [e] && s'.failed == s.failed)
      && w'.log == w.log.(left := w.log.left + [m])
    else w' == w
  }

  lemma FailureAnswers(cfg: Config, w: World, m: TaskMeta, o: SaveOutcome)
    ensures FailureAnswer(cfg, w, m, o, ReportStep(cfg, w, m, o))
  {}

  // ------------------------------------------------------------------- SetDataset

  /** The first non-empty list of paths that can be read and is stored makes the dataset; later calls change nothing. */
  predicate SetDatasetAnswer(cfg: Config, w: World, paths: seq<string>, read: Option<seq<Chunk>>, base: int,
                             o: SaveOutcome, w': World, r: Reply) {
    var accepts := paths != [] && !w.initDone && read.Some?;
    && r == (if paths == [] then NoDataset else if w.initDone then Okay else if read.None? then ReadError
             else if o.Saved? then Okay else SnapshotError)
    && (!accepts ==> w' == w)
    && (accepts ==>
          && CutFrom(read.value, cfg.chunksPerTask, base, w'.state.todo)
          && w'.state.pending == w.state.pending && w'.state.done == w.state.done && w'.state.failed == w.state.failed
          && w'.state.curPass == w.state.curPass && w'.initDone == o.Saved?
          && w'.store == (if o.NotSaved? then w.store else Some(w'.state))
          && w'.log == w.log.(dataset := w'.log.dataset))
  }

  lemma SetDatasetAnswers(cfg: Config, w: World, paths: seq<string>, read: Option<seq<Chunk>>, base: int, o: SaveOutcome)
    ensures var (w', r) := SetDatasetStep(cfg, w, paths, read, base, o);
      SetDatasetAnswer(cfg, w, paths, read, base, o, w', r)
  {
    if read.Some? { PartitionIsCut(read.value, cfg.chunksPerTask, base); }
  }

  // ---------------------------------------------------------------------- recovery

  /** A new master starts from what the store holds, or empty and not ready. */
  predicate RecoverAnswer(store: Option<State>, before: History, w: World) {
    && w.store == store && w.initDone == store.Some?
    && (store.Some? ==> w.state == store.value && forall id | id in store.value.pending :: store.value.pending[id].task.meta in w.log.timers)
    && (store.None? ==> w.state == State([], map[], [], [], 0) && w.log.timers == {})
    && (forall m | m in w.log.timers :: store.Some? && exists id :: id in store.value.pending && store.value.pending[id].task.meta == m)
    && w.log.handed == before.handed && w.log.dataset == before.dataset
    && w.log.stranded == {} && w.log.passLog == [] && w.log.left == []
  }

  lemma RecoverAnswers(store: Option<State>, before: History)
    ensures RecoverAnswer(store, before, RestartStep(store, before))
  {}
}
