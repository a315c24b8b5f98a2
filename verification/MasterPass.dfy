/** The work left in a pass of the master: a measure that every dispatch, finish and effective failure decreases. */
module MasterPass {
  import opened Common
  import opened Master
  import opened MasterRuns
  import opened MasterRestarts

  /** A waiting task may still be dispatched and come back as often as it is allowed to. */
  function Waiting(cfg: Config): Entry -> nat { (e: Entry) => 2 * Allowance(cfg, e) }

  function Running(cfg: Config): Entry -> nat { (e: Entry) => 2 * Allowance(cfg, e) - 1 }

  function SumSeq(q: seq<Entry>, f: Entry -> nat): nat {
    if q == [] then 0 else f(q[0]) + SumSeq(q[1..], f)
  }

  lemma {:induction false} SumSeqAppend(q: seq<Entry>, e: Entry, f: Entry -> nat)
    ensures SumSeq(q + [e], f) == SumSeq(q, f) + f(e)
  {
    if q == [] {
      assert q + [e] == [e] && [e][1..] == [];
    } else {
      assert (q + [e])[1..] == q[1..] + [e];
      SumSeqAppend(q[1..], e, f);
    }
  }

  ghost function WorkLeft(cfg: Config, s: State): nat {
    SumSeq(s.todo, Waiting(cfg)) + SumMap(s.pending, Running(cfg))
  }

  lemma DispatchWorks(cfg: Config, s: State)
    requires s.todo != [] && s.todo[0].Id() !in s.pending
    ensures WorkLeft(cfg, Dispatch(s)) == WorkLeft(cfg, s) - 1
  {
    var t, next := Bumped(s), Dispatch(s).pending;
    SumMapRemove(next, Running(cfg), t.Id());
    assert next - {t.Id()} == s.pending;
    assert Running(cfg)(t) == Waiting(cfg)(s.todo[0]) - 1;
  }

  lemma FinishWorks(cfg: Config, s: State, id: int)
    requires id in s.pending
    ensures WorkLeft(cfg, Finish(s, id)) < WorkLeft(cfg, s)
  {
    SumMapRemove(s.pending, Running(cfg), id);
  }

  lemma FailWorks(cfg: Config, s: State, id: int)
    requires id in s.pending
    ensures WorkLeft(cfg, Fail(cfg, s, id)) < WorkLeft(cfg, s)
  {
    var t := s.pending[id].(numFailure := s.pending[id].numFailure + 1);
    SumMapRemove(s.pending, Running(cfg), id);
    SumSeqAppend(s.todo, t, Waiting(cfg));
  }

  /** Every event that changes the queues without ending the pass leaves less to do. */
  lemma StepWorks(cfg: Config, w: World, ev: Event)
    requires Inv(cfg, w) && w.initDone && !ev.Restart?
    requires Changes(cfg, w, ev) && Step(cfg, w, ev).state.curPass == w.state.curPass
    ensures WorkLeft(cfg, Step(cfg, w, ev).state) < WorkLeft(cfg, w.state)
  {
    match ev
    case SetDataset(_, _, _, _) =>
    case GetTask(_, _) =>
      HeadAlone(w.state, w.log.dataset);
      DispatchWorks(cfg, w.state);
    case TaskFinished(id, _) => FinishWorks(cfg, w.state, id);
    case TaskFailed(m, _) => FailWorks(cfg, w.state, m.id);
    case TimerFires(m, _) => FailWorks(cfg, w.state, m.id);
  }

  // ------------------------------------------------------------------- over runs

  /** How many events of `more` changed the queues, when they came after `evs`. */
  function Changing(cfg: Config, evs: seq<Event>, more: seq<Event>): nat
    decreases |more|
  {
    if more == [] then 0
    else
      var init := more[..|more| - 1];
      Changing(cfg, evs, init) + if Changes(cfg, Run(cfg, evs + init), more[|more| - 1]) then 1 else 0
  }

  lemma {:induction false} PassNeverFalls(cfg: Config, evs: seq<Event>, more: seq<Event>)
    requires (forall ev | ev in evs + more :: Possible(ev)) && forall ev | ev in more :: !ev.Restart?
    requires Run(cfg, evs).initDone
    ensures Run(cfg, evs + more).initDone && Run(cfg, evs).state.curPass <= Run(cfg, evs + more).state.curPass
    decreases |more|
  {
    if more == [] {
      assert evs + more == evs;
    } else {
      var init := more[..|more| - 1];
      CutLast(evs, more);
      RunInvPrefix(cfg, evs, more, |init|);
      PassNeverFalls(cfg, evs, init);
      PassRises(cfg, Run(cfg, evs + init), more[|more| - 1]);
      StepStores(cfg, Run(cfg, evs + init), more[|more| - 1]);
    }
  }

  /** Within one pass the events that change the queues use up the work that was left. */
  lemma {:induction false} PassIsFinite(cfg: Config, evs: seq<Event>, more: seq<Event>)
    requires (forall ev | ev in evs + more :: Possible(ev)) && forall ev | ev in more :: !ev.Restart?
    requires Run(cfg, evs).initDone && Run(cfg, evs + more).state.curPass == Run(cfg, evs).state.curPass
    ensures Changing(cfg, evs, more) + WorkLeft(cfg, Run(cfg, evs + more).state) <= WorkLeft(cfg, Run(cfg, evs).state)
    decreases |more|
  {
    if more == [] {
      assert evs + more == evs;
    } else {
      var init, ev := more[..|more| - 1], more[|more| - 1];
      var w := Run(cfg, evs + init);
      CutLast(evs, more);
      RunInvPrefix(cfg, evs, more, |init|);
      PassNeverFalls(cfg, evs, init);
      PassRises(cfg, w, ev);
      PassIsFinite(cfg, evs, init);
      if Changes(cfg, w, ev) { StepWorks(cfg, w, ev); }
    }
  }

  lemma {:induction false} SumSeqBound(q: seq<Entry>, f: Entry -> nat, k: nat)
    requires forall i | 0 <= i < |q| :: f(q[i]) <= k
    ensures SumSeq(q, f) <= Times(|q|, k)
  {
    if q != [] { SumSeqBound(q[1..], f, k); }
  }

  lemma {:induction false} SumMapBound<K>(m: map<K, Entry>, f: Entry -> nat, k: nat)
    requires forall e | e in m.Values :: f(e) <= k
    ensures SumMap(m, f) <= Times(|m|, k)
    decreases m.Keys
  {
    if m != map[] {
      var x :| x in m;
      SumMapRemove(m, f, x);
      assert (m - {x}).Values <= m.Values;
      SumMapBound(m - {x}, f, k);
      assert (m - {x}).Keys == m.Keys - {x} && |m.Keys| == |m| && |(m - {x}).Keys| == |m - {x}|;
      assert |m| == |m - {x}| + 1;
    }
  }

  /** At most 2 N (failureMax + 1) events change the queues in one pass of N tasks between two restarts. */
  lemma PassBound(cfg: Config, evs: seq<Event>, more: seq<Event>)
    requires (forall ev | ev in evs + more :: Possible(ev)) && forall ev | ev in more :: !ev.Restart?
    requires Run(cfg, evs).initDone && Run(cfg, evs + more).state.curPass == Run(cfg, evs).state.curPass
    ensures Changing(cfg, evs, more) <= |Run(cfg, evs).log.dataset| * (2 * cfg.failureMax + 2)
  {
    PassIsFinite(cfg, evs, more);
    RunInvPrefix(cfg, evs, more, 0);
    assert evs + more[..0] == evs;
    CountsAddUp(Run(cfg, evs).state, Run(cfg, evs).log.dataset);
    WorkBound(cfg, Run(cfg, evs).state, |Run(cfg, evs).log.dataset|);
    TimesIsProduct(|Run(cfg, evs).log.dataset|, 2 * cfg.failureMax + 2);
  }

  lemma KeyOf<K, V>(m: map<K, V>, v: V) returns (k: K)
    requires v in m.Values
    ensures k in m && m[k] == v
  {
    k :| k in m && m[k] == v;
  }

  lemma WorkBound(cfg: Config, s: State, n: nat)
    requires FailureBounds(cfg, s) && |s.todo| + |s.pending| <= n
    ensures WorkLeft(cfg, s) <= Times(n, 2 * cfg.failureMax + 2)
  {
    var k := 2 * cfg.failureMax + 2;
    SumSeqBound(s.todo, Waiting(cfg), k);
    forall e | e in s.pending.Values ensures Running(cfg)(e) <= k {
      var id := KeyOf(s.pending, e);
      assert 0 <= s.pending[id].numFailure;
    }
    SumMapBound(s.pending, Running(cfg), k);
    TimesPlus(|s.todo|, |s.pending|, n, k);
  }

  lemma {:induction false} TimesPlus(a: nat, b: nat, n: nat, k: nat)
    requires a + b <= n
    ensures Times(a, k) + Times(b, k) <= Times(n, k)
    decreases n
  {
    if a > 0 { TimesPlus(a - 1, b, n - 1, k); }
    else if b < n { TimesPlus(a, b, n - 1, k); }
  }
}
