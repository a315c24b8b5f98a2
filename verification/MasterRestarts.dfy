/** What a restart of the master brings back: which dispatches that left Pending are Pending again, exactly,
    depending on which snapshots were lost. */
module MasterRestarts {
  import opened Common
  import opened Master
  import opened MasterRuns

  predicate Changes(cfg: Config, w: World, ev: Event) { Step(cfg, w, ev).state != w.state }

  /** A ready master saves exactly when it changed its queues. */
  lemma StepStores(cfg: Config, w: World, ev: Event)
    requires w.initDone && !ev.Restart?
    ensures var w' := Step(cfg, w, ev);
      && w'.initDone && w'.log.dataset == w.log.dataset
      && w'.store == if Changes(cfg, w, ev) then Durable(w.store, w'.state, ev.outcome) else w.store
  {
    if ev.GetTask? && w.state.todo != [] { assert |Dispatch(w.state).todo| < |w.state.todo|; }
    if ev.TaskFinished? && ev.id in w.state.pending { assert ev.id !in Finish(w.state, ev.id).pending; }
    if (ev.TaskFailed? || ev.TimerFires?) && Effective(w.state, ev.meta) {
      assert ev.meta.id !in Fail(cfg, w.state, ev.meta.id).pending;
    }
  }

  // ------------------------------------------------------------- restarts without losses

  /** No snapshot is lost, though some may report an error after writing. */
  predicate AllWritten(evs: seq<Event>) { forall ev | ev in evs :: ev.Restart? || !ev.outcome.NotSaved? }

  /** If no snapshot is lost, a restart recovers the very state it interrupted, with a timer
      for each Pending task. */
  lemma {:induction false} RestartIsInvisible(cfg: Config, evs: seq<Event>)
    requires AllWritten(evs)
    ensures var w, w' := Run(cfg, evs), Step(cfg, Run(cfg, evs), Restart); w.initDone ==>
      w'.state == w.state && w'.initDone && w'.log.timers == Metas(w.state.pending)
  {
    StoreIsCurrent(cfg, evs);
  }

  lemma {:induction false} StoreIsCurrent(cfg: Config, evs: seq<Event>)
    requires AllWritten(evs)
    ensures var w := Run(cfg, evs); w.initDone ==> w.store == Some(w.state)
  {
    if evs != [] {
      var w, ev := Run(cfg, evs[..|evs| - 1]), evs[|evs| - 1];
      StoreIsCurrent(cfg, evs[..|evs| - 1]);
      if w.initDone && !ev.Restart? { StepStores(cfg, w, ev); }
    }
  }

  // ---------------------------------------------------- one dispatch, exactly when it comes back

  /** Every Pending dispatch whose own snapshot succeeded is Pending in the store. */
  predicate WatchedStored(w: World) {
    w.initDone ==> w.store.Some? && forall id | id in w.state.pending && w.state.pending[id].task.meta !in w.log.stranded ::
      Effective(w.store.value, w.state.pending[id].task.meta)
  }

  lemma {:induction false} WatchedIsStored(cfg: Config, evs: seq<Event>)
    requires forall ev | ev in evs :: Possible(ev)
    ensures WatchedStored(Run(cfg, evs))
  {
    if evs != [] {
      var init, ev := evs[..|evs| - 1], evs[|evs| - 1];
      var w := Run(cfg, init);
      WatchedIsStored(cfg, init);
      assert Inv(cfg, w) && Inv(cfg, Step(cfg, w, ev)) by { RunInv(cfg, init); RunInv(cfg, evs); }
      if ev.Restart? || !w.initDone {
        WatchedStart(cfg, w, ev);
      } else {
        WatchedStep(cfg, w, ev);
      }
    }
  }

  lemma WatchedStart(cfg: Config, w: World, ev: Event)
    requires Inv(cfg, w) && Inv(cfg, Step(cfg, w, ev)) && (ev.Restart? || !w.initDone)
    ensures WatchedStored(Step(cfg, w, ev))
  {
    var s := Step(cfg, w, ev).state;
    if Step(cfg, w, ev).initDone {
      assert Step(cfg, w, ev).store == Some(s);
      KeyedEffective(s, w.log.dataset);
    }
  }

  lemma KeyedEffective(s: State, d: map<int, seq<Chunk>>)
    requires Conserved(s, d) || s.pending == map[]
    ensures forall id | id in s.pending :: Effective(s, s.pending[id].task.meta)
  {}

  lemma WatchedStep(cfg: Config, w: World, ev: Event)
    requires Inv(cfg, w) && Inv(cfg, Step(cfg, w, ev)) && w.initDone && !ev.Restart? && WatchedStored(w)
    ensures WatchedStored(Step(cfg, w, ev))
  {
    var w' := Step(cfg, w, ev);
    StepStores(cfg, w, ev);
    if w'.store == w.store {
      forall id | id in w'.state.pending && w'.state.pending[id].task.meta !in w'.log.stranded
        ensures Effective(w.store.value, w'.state.pending[id].task.meta)
      {
        PendingComesFrom(cfg, w, ev, id);
      }
    } else {
      KeyedEffective(w'.state, w'.log.dataset);
    }
  }

  /** A Pending entry was Pending before, or is stranded, or was saved with this event. */
  lemma PendingComesFrom(cfg: Config, w: World, ev: Event, id: int)
    requires w.initDone && !ev.Restart? && id in Step(cfg, w, ev).state.pending
    ensures var w', e := Step(cfg, w, ev), Step(cfg, w, ev).state.pending[id];
      || (id in w.state.pending && w.state.pending[id] == e && (e.task.meta in w.log.stranded ==> e.task.meta in w'.log.stranded))
      || e.task.meta in w'.log.stranded || w'.store == Some(w'.state)
  {}

  /** No event of `more` that changed the queues, when it came after `evs`, was written. */
  predicate AllLost(cfg: Config, evs: seq<Event>, more: seq<Event>)
    decreases |more|
  {
    more == [] ||
    var init, ev := more[..|more| - 1], more[|more| - 1];
    AllLost(cfg, evs, init) && !ev.Restart? && (Changes(cfg, Run(cfg, evs + init), ev) ==> ev.outcome.NotSaved?)
  }

  lemma DepartureLogged(cfg: Config, w: World, ev: Event, m: TaskMeta)
    requires Inv(cfg, w) && w.initDone && !ev.Restart? && Effective(w.state, m) && !Effective(Step(cfg, w, ev).state, m)
    ensures m in Step(cfg, w, ev).log.left
  {
    assert w.state.pending[m.id].task.meta == m;
    if ev.GetTask? && w.state.todo != [] {
      assert w.state.todo[0].Id() != m.id by { HeadAlone(w.state, w.log.dataset); }
      StaysPending(w.state, m);
    } else if ev.TaskFinished? && ev.id in w.state.pending {
      FinishKeepsOthers(w.state, ev.id, m);
    } else if ev.TaskFailed? || ev.TimerFires? {
      FailKeepsOthers(cfg, w.state, ev.meta, m);
    }
  }

  lemma StaysPending(s: State, m: TaskMeta)
    requires s.todo != [] && Effective(s, m) && s.todo[0].Id() != m.id
    ensures Effective(Dispatch(s), m)
  {}

  lemma FinishKeepsOthers(s: State, id: int, m: TaskMeta)
    requires id in s.pending && Effective(s, m)
    ensures id != m.id ==> Effective(Finish(s, id), m) && Effective(Rollover(Finish(s, id)), m)
  {}

  lemma FailKeepsOthers(cfg: Config, s: State, r: TaskMeta, m: TaskMeta)
    requires Effective(s, m)
    ensures Effective(s, r) && r != m ==> Effective(Fail(cfg, s, r.id), m)
  {}

  /** `more` begins with the event that takes dispatch `m` out of Pending. */
  ghost predicate Departure(cfg: Config, evs: seq<Event>, more: seq<Event>, m: TaskMeta) {
    && (forall ev | ev in evs + more :: Possible(ev)) && (forall ev | ev in more :: !ev.Restart?)
    && Run(cfg, evs).initDone && Effective(Run(cfg, evs).state, m)
    && more != [] && !Effective(Step(cfg, Run(cfg, evs), more[0]).state, m)
  }

  /** Dispatch `m` has left, and the store is still the one from before if every write was lost since. */
  ghost predicate Departed(w: World, m: TaskMeta, before: Option<State>, allLost: bool) {
    && w.initDone && m in w.log.left && w.store.Some?
    && if allLost then w.store == before else !Effective(w.store.value, m)
  }

  lemma LeftIsGone(cfg: Config, w: World, m: TaskMeta)
    requires Inv(cfg, w) && w.initDone && m in w.log.left
    ensures !Effective(w.state, m) && w.store.Some?
  {}

  lemma StepAfterDeparture(cfg: Config, w: World, ev: Event, m: TaskMeta, before: Option<State>, allLost: bool)
    requires Inv(cfg, Step(cfg, w, ev)) && w.initDone && !ev.Restart? && m in Step(cfg, w, ev).log.left
    requires w.store.Some? && if allLost then w.store == before else !Effective(w.store.value, m)
    ensures Departed(Step(cfg, w, ev), m, before, allLost && (Changes(cfg, w, ev) ==> ev.outcome.NotSaved?))
  {
    StepStores(cfg, w, ev);
    LeftIsGone(cfg, Step(cfg, w, ev), m);
  }

  lemma RunInvPrefix(cfg: Config, evs: seq<Event>, more: seq<Event>, n: nat)
    requires (forall ev | ev in evs + more :: Possible(ev)) && n <= |more|
    ensures Inv(cfg, Run(cfg, evs + more[..n])) && forall ev | ev in evs + more[..n] :: Possible(ev)
  {
    assert forall ev | ev in evs + more[..n] :: ev in evs + more;
    RunInv(cfg, evs + more[..n]);
  }

  lemma {:induction false} StoreAfterDeparture(cfg: Config, evs: seq<Event>, more: seq<Event>, m: TaskMeta)
    requires Departure(cfg, evs, more, m)
    ensures Departed(Run(cfg, evs + more), m, Run(cfg, evs).store, AllLost(cfg, evs, more))
    decreases |more|
  {
    var init, ev := more[..|more| - 1], more[|more| - 1];
    var p := Run(cfg, evs + init);
    CutLast(evs, more);
    RunInvPrefix(cfg, evs, more, |more| - 1);
    assert Inv(cfg, Run(cfg, evs + more)) by { assert more[..|more|] == more; RunInvPrefix(cfg, evs, more, |more|); }
    if init == [] {
      assert evs + init == evs;
      DepartureLogged(cfg, p, ev, m);
      assert p.store.Some?;
    } else {
      StoreAfterDeparture(cfg, evs, init, m);
      StepRecalls(cfg, p, [], ev);
    }
    StepAfterDeparture(cfg, p, ev, m, Run(cfg, evs).store, AllLost(cfg, evs, init));
  }

  /** The exact condition, over whole runs: a dispatch that left Pending is Pending again after a restart if and
      only if the store knew it as Pending when it left, and the snapshot of its departure and all later ones
      up to the restart were lost. The store knows every dispatch whose own snapshot succeeded. */
  lemma RevivedIffWritesLost(cfg: Config, evs: seq<Event>, more: seq<Event>, m: TaskMeta)
    requires Departure(cfg, evs, more, m)
    ensures var w := Run(cfg, evs);
      && w.store.Some?
      && (Effective(Step(cfg, Run(cfg, evs + more), Restart).state, m) <==>
            AllLost(cfg, evs, more) && Effective(w.store.value, m))
      && (m !in w.log.stranded ==> Effective(w.store.value, m))
  {
    StoreAfterDeparture(cfg, evs, more, m);
    StoreKnows(cfg, evs, more, m);
  }

  lemma StoreKnows(cfg: Config, evs: seq<Event>, more: seq<Event>, m: TaskMeta)
    requires Departure(cfg, evs, more, m)
    ensures var w := Run(cfg, evs); w.store.Some? && (m !in w.log.stranded ==> Effective(w.store.value, m))
  {
    assert Inv(cfg, Run(cfg, evs)) && WatchedStored(Run(cfg, evs)) by {
      RunInvPrefix(cfg, evs, more, 0);
      assert evs + more[..0] == evs;
      WatchedIsStored(cfg, evs);
    }
    assert Run(cfg, evs).state.pending[m.id].task.meta == m;
  }

  // ------------------------------------------------------------- all dispatches, over all restarts

  /** The dispatches that left Pending, over the whole run, restarts included. */
  function LeftEver(cfg: Config, evs: seq<Event>): seq<TaskMeta> {
    if evs == [] then []
    else
      var w, ev := Run(cfg, evs[..|evs| - 1]), evs[|evs| - 1];
      LeftEver(cfg, evs[..|evs| - 1]) + if ev.Restart? then [] else Leaving(cfg, w, ev)
  }

  function Leaving(cfg: Config, w: World, ev: Event): seq<TaskMeta> {
    var left, left' := w.log.left, Step(cfg, w, ev).log.left;
    if |left| < |left'| then left'[|left|..] else []
  }

  /** Since the last restart a dispatch left Pending, and from then on no snapshot was written. */
  predicate Unwritten(cfg: Config, evs: seq<Event>) {
    evs != [] &&
    var init, ev := evs[..|evs| - 1], evs[|evs| - 1];
    var w := Run(cfg, init);
    && !ev.Restart?
    && if Changes(cfg, w, ev) then ev.outcome.NotSaved? && (Unwritten(cfg, init) || Leaving(cfg, w, ev) != [])
       else Unwritten(cfg, init)
  }

  /** No restart finds a departure unwritten. */
  predicate DeparturesWritten(cfg: Config, evs: seq<Event>) {
    forall k | 0 <= k < |evs| && evs[k].Restart? :: !Unwritten(cfg, evs[..k])
  }

  lemma DeparturesPrefix(cfg: Config, evs: seq<Event>, n: nat)
    requires n <= |evs| && DeparturesWritten(cfg, evs)
    ensures DeparturesWritten(cfg, evs[..n])
  {
    forall k | 0 <= k < n && evs[..n][k].Restart? ensures !Unwritten(cfg, evs[..n][..k]) {
      assert evs[..n][..k] == evs[..k];
    }
  }

  function Recalling(w: World, left: seq<TaskMeta>): World { w.(log := w.log.(left := left)) }

  /** What leaves Pending does not depend on what left before. */
  lemma StepRecalls(cfg: Config, w: World, left: seq<TaskMeta>, ev: Event)
    requires !ev.Restart?
    ensures var w' := Step(cfg, w, ev);
      && w'.log.left == w.log.left + Leaving(cfg, w, ev)
      && Step(cfg, Recalling(w, left), ev) == Recalling(w', left + Leaving(cfg, w, ev))
  {
    var w' := Step(cfg, w, ev);
    if w'.log.left == w.log.left { assert left + [] == left && w.log.left + [] == w.log.left; }
  }

  /** Nothing in `left` is or will be Pending, in memory and, unless a departure is unwritten, in the store. */
  ghost predicate Gone(cfg: Config, evs: seq<Event>, w: World, left: seq<TaskMeta>) {
    && Inv(cfg, Recalling(w, left))
    && (w.initDone && !Unwritten(cfg, evs) ==> LeftForGood(w.store.value, w.log.dataset, left))
  }

  lemma GoneStep(cfg: Config, evs: seq<Event>, w: World, left: seq<TaskMeta>, ev: Event)
    requires Possible(ev) && !ev.Restart? && w == Run(cfg, evs) && Gone(cfg, evs, w, left)
    ensures Gone(cfg, evs + [ev], Step(cfg, w, ev), left + Leaving(cfg, w, ev))
  {
    var w', left' := Step(cfg, w, ev), left + Leaving(cfg, w, ev);
    StepRecalls(cfg, w, left, ev);
    StepInv(cfg, Recalling(w, left), ev);
    assert (evs + [ev])[..|evs|] == evs;
    if w.initDone {
      StepStores(cfg, w, ev);
      if Leaving(cfg, w, ev) == [] { assert left' == left; }
      LeavingChanges(cfg, w, ev);
    } else {
      assert left == [] && left' == [];
    }
  }

  lemma LeavingChanges(cfg: Config, w: World, ev: Event)
    requires w.initDone && !ev.Restart?
    ensures Leaving(cfg, w, ev) != [] ==> Changes(cfg, w, ev)
  {
    if ev.TaskFinished? && ev.id in w.state.pending { assert ev.id !in Finish(w.state, ev.id).pending; }
    if (ev.TaskFailed? || ev.TimerFires?) && Effective(w.state, ev.meta) {
      assert ev.meta.id !in Fail(cfg, w.state, ev.meta.id).pending;
    }
  }

  lemma GoneRestart(cfg: Config, evs: seq<Event>, w: World, left: seq<TaskMeta>)
    requires w == Run(cfg, evs) && Gone(cfg, evs, w, left) && !Unwritten(cfg, evs)
    ensures Gone(cfg, evs + [Restart], Step(cfg, w, Restart), left)
  {
    RestartInv(cfg, Recalling(w, left));
  }

  lemma {:induction false} AllGone(cfg: Config, evs: seq<Event>)
    requires (forall ev | ev in evs :: Possible(ev)) && DeparturesWritten(cfg, evs)
    ensures Gone(cfg, evs, Run(cfg, evs), LeftEver(cfg, evs))
  {
    if evs != [] {
      var init, ev := evs[..|evs| - 1], evs[|evs| - 1];
      assert evs == init + [ev];
      DeparturesPrefix(cfg, evs, |init|);
      AllGone(cfg, init);
      if ev.Restart? {
        GoneRestart(cfg, init, Run(cfg, init), LeftEver(cfg, init));
        assert LeftEver(cfg, evs) == LeftEver(cfg, init);
      } else {
        GoneStep(cfg, init, Run(cfg, init), LeftEver(cfg, init), ev);
      }
    }
  }

  /** If no restart finds a departure unwritten, each dispatch leaves Pending at most once in the whole run,
      and is never Pending again. Single snapshots may well be lost. */
  lemma LeavesOnce(cfg: Config, evs: seq<Event>)
    requires (forall ev | ev in evs :: Possible(ev)) && DeparturesWritten(cfg, evs)
    ensures NoDup(LeftEver(cfg, evs))
    ensures var w := Run(cfg, evs); w.initDone ==> forall m | m in LeftEver(cfg, evs) :: !Effective(w.state, m)
  {
    AllGone(cfg, evs);
  }

  // ------------------------------------------------------------- and only then

  predicate GetTaskSaved(evs: seq<Event>) { forall ev | ev in evs && ev.GetTask? :: ev.outcome.Saved? }

  /** The record of departures is exact: an event adds a dispatch if and only if it takes it out of Pending. */
  lemma LeavingIsDeparture(cfg: Config, w: World, ev: Event, m: TaskMeta)
    requires Inv(cfg, w) && w.initDone && Possible(ev) && !ev.Restart?
    ensures m in Leaving(cfg, w, ev) <==> Effective(w.state, m) && !Effective(Step(cfg, w, ev).state, m)
  {
    StepRecalls(cfg, w, [], ev);
    StepInv(cfg, w, ev);
    StepStores(cfg, w, ev);
    if m in Leaving(cfg, w, ev) {
      LeftIsGone(cfg, Step(cfg, w, ev), m);
      LeavingWasPending(cfg, w, ev);
    } else if Effective(w.state, m) && !Effective(Step(cfg, w, ev).state, m) {
      DepartureLogged(cfg, w, ev, m);
      WasNotGone(cfg, w, m);
    }
  }

  lemma LeavingWasPending(cfg: Config, w: World, ev: Event)
    requires Inv(cfg, w) && w.initDone && !ev.Restart?
    ensures forall m | m in Leaving(cfg, w, ev) :: Effective(w.state, m)
  {
    if ev.TaskFinished? && ev.id in w.state.pending { assert Effective(w.state, w.state.pending[ev.id].task.meta); }
  }

  lemma WasNotGone(cfg: Config, w: World, m: TaskMeta)
    requires Inv(cfg, w) && w.initDone && Effective(w.state, m)
    ensures m !in w.log.left
  {}

  /** Some dispatch that left Pending in `evs` is Pending at their end. */
  ghost predicate CameBack(cfg: Config, evs: seq<Event>) {
    exists m :: m in LeftEver(cfg, evs) && Run(cfg, evs).initDone && Effective(Run(cfg, evs).state, m)
  }

  lemma {:induction false} LeftIsLeftEver(cfg: Config, evs: seq<Event>, m: TaskMeta)
    requires m in Run(cfg, evs).log.left
    ensures m in LeftEver(cfg, evs)
  {
    if evs != [] {
      var init, ev := evs[..|evs| - 1], evs[|evs| - 1];
      if !ev.Restart? {
        StepRecalls(cfg, Run(cfg, init), [], ev);
        if m in Run(cfg, init).log.left { LeftIsLeftEver(cfg, init, m); }
      }
    }
  }

  /** An unwritten departure is one that the store does not know of. */
  lemma {:induction false} UnwrittenIsStored(cfg: Config, evs: seq<Event>) returns (m: TaskMeta)
    requires (forall ev | ev in evs :: Possible(ev)) && GetTaskSaved(evs) && Unwritten(cfg, evs)
    ensures var w := Run(cfg, evs); w.initDone && w.store.Some? && m in w.log.left && Effective(w.store.value, m)
  {
    var init, ev := evs[..|evs| - 1], evs[|evs| - 1];
    var w := Run(cfg, init);
    RunInv(cfg, init);
    if Unwritten(cfg, init) {
      m := UnwrittenIsStored(cfg, init);
      StepRecalls(cfg, w, [], ev);
    } else {
      m := Leaving(cfg, w, ev)[0];
      LeavingIsStored(cfg, init, ev);
      StepRecalls(cfg, w, [], ev);
    }
    StepStores(cfg, w, ev);
  }

  lemma LeavingIsStored(cfg: Config, evs: seq<Event>, ev: Event)
    requires (forall e | e in evs :: Possible(e)) && GetTaskSaved(evs) && !ev.Restart?
    requires Leaving(cfg, Run(cfg, evs), ev) != []
    ensures var w := Run(cfg, evs); w.initDone && w.store.Some? && Effective(w.store.value, Leaving(cfg, w, ev)[0])
  {
    WatchedIsStored(cfg, evs);
    RunInv(cfg, evs);
    NeverStranded(cfg, evs);
    var w := Run(cfg, evs);
    var m := Leaving(cfg, w, ev)[0];
    assert Effective(w.state, m) && w.state.pending[m.id].task.meta == m;
  }

  /** When GetTask's own snapshots succeed the condition is exact: some dispatch that left Pending comes back in
      the course of the run if and only if some restart finds a departure unwritten. */
  lemma ComesBackIffUnwritten(cfg: Config, evs: seq<Event>)
    requires (forall ev | ev in evs :: Possible(ev)) && GetTaskSaved(evs)
    ensures (exists n | 0 <= n <= |evs| :: CameBack(cfg, evs[..n])) <==> !DeparturesWritten(cfg, evs)
  {
    if DeparturesWritten(cfg, evs) {
      forall n | 0 <= n <= |evs| ensures !CameBack(cfg, evs[..n]) {
        DeparturesPrefix(cfg, evs, n);
        LeavesOnce(cfg, evs[..n]);
      }
    } else {
      var k :| 0 <= k < |evs| && evs[k].Restart? && Unwritten(cfg, evs[..k]);
      assert evs[..k + 1] == evs[..k] + [Restart];
      RestartRevives(cfg, evs[..k]);
    }
  }

  lemma RestartRevives(cfg: Config, evs: seq<Event>)
    requires (forall ev | ev in evs :: Possible(ev)) && GetTaskSaved(evs) && Unwritten(cfg, evs)
    ensures CameBack(cfg, evs + [Restart])
  {
    var all := evs + [Restart];
    assert all[..|all| - 1] == evs;
    var m := UnwrittenIsStored(cfg, evs);
    assert m in LeftEver(cfg, evs) by { LeftIsLeftEver(cfg, evs, m); }
    assert LeftEver(cfg, all) == LeftEver(cfg, evs) + [];
    var w := RestartStep(Run(cfg, evs).store, Run(cfg, evs).log);
    assert Run(cfg, all) == w && w.initDone && Effective(w.state, m);
  }

  /** A run that gets there: the snapshot of a failure is lost, and the restarted master has the failed
      dispatch Pending. */
  lemma LostFailureComesBack(chunk: Chunk)
    ensures var cfg, m := Config(1, 0), TaskMeta(0, 1);
      var evs := [SetDataset([chunk.path], Some([chunk]), 0, Saved), GetTask(0, Saved), TaskFailed(m, NotSaved)];
      m in Run(cfg, evs).log.left && Effective(Step(cfg, Run(cfg, evs), Restart).state, m)
  {
    var cfg := Config(1, 0);
    var a, b, c := SetDataset([chunk.path], Some([chunk]), 0, Saved), GetTask(0, Saved), TaskFailed(TaskMeta(0, 1), NotSaved);
    assert [a, b, c][..2] == [a, b] && [a, b][..1] == [a] && [a][..0] == [];
    var task := NewEntry(0, [chunk]);
    assert Partition([chunk], 1, 0) == [task];
    assert Run(cfg, []).state == EMPTY && !Run(cfg, []).initDone;
    var w1 := Run(cfg, [a]);
    assert w1.state == EMPTY.(todo := [task]) && w1.initDone;
    var w2 := Run(cfg, [a, b]);
    assert w2.state.pending == map[0 := Bumped(w1.state)] && w2.store == Some(w2.state);
  }
}
