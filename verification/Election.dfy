/** Electing the trainer that initialises the parameter servers (go/pserver/client/etcd_client.go,
    FinishInitParams of go/pserver/client/client.go and of go/pserver/service.go). A session is one call
    of Select with its lock handle. The etcd lock has at most one owner, may be lost at any moment, and
    a handle that lost it never owns it again. Every etcd transaction and every RPC is one step. */
module Election {
  import opened Common

  /** `Selected(k)`: Select returned true, and the running FinishInitParams was accepted by the first
      `k` servers. `Refused`: Select returned (false, nil). */
  datatype Phase = Waiting | Locked | Selected(next: nat) | Refused | Failed

  datatype World = World(owner: Option<nat>, doneKey: bool, accepted: seq<Option<nat>>,
                         phases: map<nat, Phase>, committed: set<nat>)

  datatype Event =
    | Open(h: nat)                          // NewSession and NewMutex
    | Acquire(h: nat)                       // Lock returns
    | Lose                                  // the owner's session expires, or it unlocks
    | SelectTxn(h: nat, err: bool)          // If(IsOwner).Then(Get(done)); Commit may report an error
    | Begin(h: nat)                         // FinishInitParams of the client is called, perhaps after an
                                            // earlier call returned an error without reaching a handler
    | FinishCall(h: nat, replyLost: bool)   // Service.FinishInitParams on the next server
    | DoneTxn(h: nat, lost: bool)           // If(IsOwner).Then(Put(done)); the request may not get through

  function Init(n: nat): World { World(None, false, seq(n, _ => None), map[], {}) }

  predicate Possible(w: World, e: Event) {
    match e
    case Open(h) => h !in w.phases
    case Acquire(h) => h in w.phases && w.phases[h] == Waiting && w.owner == None
    case Lose => true
    case SelectTxn(h, _) => h in w.phases && w.phases[h] == Locked
    case Begin(h) => h in w.phases && w.phases[h].Selected?
    case FinishCall(h, _) => h in w.phases && w.phases[h].Selected? && w.phases[h].next < |w.accepted|
    case DoneTxn(h, _) => h in w.phases && w.phases[h] == Selected(|w.accepted|)
  }

  /** FinishInitParams of the client stops at the first error; a server accepts only once. Done is
      reached only when every server has replied without error, and ends the call: whatever it returned, a
      later Done comes after another round over the servers, from the first one on. */
  function Step(w: World, e: Event): World
    requires Possible(w, e)
  {
    match e
    case Open(h) => w.(phases := w.phases[h := Waiting])
    case Acquire(h) => w.(owner := Some(h), phases := w.phases[h := Locked])
    case Lose => w.(owner := None)
    case SelectTxn(h, err) =>
      w.(phases := w.phases[h := if err || w.owner != Some(h) then Failed else if w.doneKey then Refused else Selected(0)])
    case Begin(h) => w.(phases := w.phases[h := Selected(0)])
    case FinishCall(h, replyLost) =>
      var k := w.phases[h].next;
      if w.accepted[k].Some? then w.(phases := w.phases[h := Selected(0)])
      else w.(accepted := w.accepted[k := Some(h)],
              phases := w.phases[h := if replyLost then Selected(0) else Selected(k + 1)])
    case DoneTxn(h, lost) =>
      var w' := w.(phases := w.phases[h := Selected(0)]);
      if !lost && w.owner == Some(h) then w'.(doneKey := true, committed := w.committed + {h}) else w'
  }

  function Run(n: nat, es: seq<Event>): Option<World> {
    if es == [] then Some(Init(n))
    else
      var p := Run(n, es[..|es| - 1]);
      if p.Some? && Possible(p.value, es[|es| - 1]) then Some(Step(p.value, es[|es| - 1])) else None
  }

  predicate AcceptedFirst(w: World, h: nat, k: nat) {
    k <= |w.accepted| && forall j | 0 <= j < k :: w.accepted[j] == Some(h)
  }

  ghost predicate Inv(n: nat, w: World) {
    && |w.accepted| == n
    && (w.owner.Some? ==> w.owner.value in w.phases && !w.phases[w.owner.value].Waiting?)
    && (forall h | h in w.phases && w.phases[h].Selected? :: AcceptedFirst(w, h, w.phases[h].next))
    && (forall j | 0 <= j < n && w.accepted[j].Some? ::
          w.accepted[j].value in w.phases && w.phases[w.accepted[j].value].Selected?)
    && (w.doneKey <==> w.committed != {})
    && (forall h | h in w.committed :: h in w.phases && w.phases[h].Selected? && AcceptedFirst(w, h, n))
    && (forall h | h in w.phases && w.phases[h].Refused? :: w.doneKey)
    && (forall g, h | g in w.committed && h in w.committed :: g == h)
    && (forall h | w.doneKey && w.owner == Some(h) && w.phases[h].Selected? :: h in w.committed)
  }

  lemma StepInv(n: nat, w: World, e: Event)
    requires Inv(n, w) && Possible(w, e)
    ensures Inv(n, Step(w, e))
  {
    assert forall h, k | AcceptedFirst(w, h, k) :: AcceptedFirst(Step(w, e), h, k);
    if e.DoneTxn? { DoneInv(n, w, e.h, e.lost); } else { OtherInv(n, w, e); }
  }

  lemma DoneInv(n: nat, w: World, h: nat, lost: bool)
    requires Inv(n, w) && Possible(w, DoneTxn(h, lost))
    ensures Inv(n, Step(w, DoneTxn(h, lost)))
  {
    if !lost && w.owner == Some(h) { assert h in Step(w, DoneTxn(h, lost)).committed; }
  }

  lemma OtherInv(n: nat, w: World, e: Event)
    requires Inv(n, w) && Possible(w, e) && !e.DoneTxn?
    requires forall h, k | AcceptedFirst(w, h, k) :: AcceptedFirst(Step(w, e), h, k)
    ensures Inv(n, Step(w, e))
  {}

  lemma {:induction false} RunInv(n: nat, es: seq<Event>)
    ensures Run(n, es).Some? ==> Inv(n, Run(n, es).value)
  {
    if es != [] {
      RunInv(n, es[..|es| - 1]);
      var p := Run(n, es[..|es| - 1]);
      if p.Some? && Possible(p.value, es[|es| - 1]) { StepInv(n, p.value, es[|es| - 1]); }
    }
  }

  /** In every run, under arbitrary loss of the lock: when a Done commits, every server accepted its one
      FinishInitParams from that same session; at most one session's Done ever commits; and Select
      returns (false, nil) only after that commit. */
  lemma ElectionIsSafe(n: nat, es: seq<Event>)
    requires Run(n, es).Some?
    ensures var w := Run(n, es).value;
      && (forall h | h in w.committed :: AcceptedFirst(w, h, n) && |w.accepted| == n)
      && (forall g, h | g in w.committed && h in w.committed :: g == h)
      && (forall h | h in w.phases && w.phases[h].Refused? :: w.doneKey && w.committed != {})
  {
    RunInv(n, es);
  }

  // --------------------------------------------- when initialisation can still complete

  /** Session `h` owns the lock and its running FinishInitParams is past server `j`. */
  predicate PastServer(w: World, j: nat, h: nat) {
    w.owner == Some(h) && h in w.phases && w.phases[h].Selected? && w.phases[h].next > j
  }

  /** Nobody has begun, or the session that all accepting servers accepted still owns the lock and is past
      each of them in its running FinishInitParams. */
  predicate Completable(w: World) {
    forall j | 0 <= j < |w.accepted| && w.accepted[j].Some? :: PastServer(w, j, w.accepted[j].value)
  }

  /** Once it is lost, the chance never comes back. */
  lemma DeadStep(n: nat, w: World, e: Event)
    requires Inv(n, w) && Possible(w, e) && !w.doneKey && !Completable(w)
    ensures !Step(w, e).doneKey && !Completable(Step(w, e))
  {
    var w' := Step(w, e);
    var j :| 0 <= j < n && w.accepted[j].Some? && !PastServer(w, j, w.accepted[j].value);
    var h := w.accepted[j].value;
    assert w'.accepted[j] == w.accepted[j];
    assert h in w.phases && w.phases[h].Selected?;
    if e.DoneTxn? { assert AcceptedFirst(w, e.h, n); }
    assert !PastServer(w', j, h);
  }

  lemma {:induction false} DeadForever(n: nat, es: seq<Event>, more: seq<Event>)
    requires Run(n, es).Some? && !Run(n, es).value.doneKey && !Completable(Run(n, es).value)
    ensures var r := Run(n, es + more); r.Some? ==> !r.value.doneKey && !Completable(r.value)
  {
    if more == [] {
      assert es + more == es;
    } else {
      var init := more[..|more| - 1];
      CutLast(es, more);
      DeadForever(n, es, init);
      RunInv(n, es + init);
      var p := Run(n, es + init);
      if p.Some? && Possible(p.value, more[|more| - 1]) { DeadStep(n, p.value, more[|more| - 1]); }
    }
  }

  function RunFrom(w: World, es: seq<Event>): Option<World>
    decreases |es|
  {
    if es == [] then Some(w) else if Possible(w, es[0]) then RunFrom(Step(w, es[0]), es[1..]) else None
  }

  lemma {:induction false} RunAppend(n: nat, es: seq<Event>, more: seq<Event>)
    ensures Run(n, es + more) == if Run(n, es).Some? then RunFrom(Run(n, es).value, more) else None
    decreases |more|
  {
    if more == [] {
      assert es + more == es;
    } else {
      var es' := es + [more[0]];
      assert es + more == es' + more[1..] && es'[..|es|] == es;
      RunAppend(n, es', more[1..]);
    }
  }

  lemma RunCons(w: World, e: Event, es: seq<Event>)
    requires Possible(w, e)
    ensures RunFrom(w, [e] + es) == RunFrom(Step(w, e), es)
  {
    assert ([e] + es)[1..] == es;
  }

  /** The owner that is past every accepting server tells the others and commits. */
  lemma {:induction false} OwnerFinishes(n: nat, w: World, h: nat) returns (more: seq<Event>)
    requires Inv(n, w) && w.owner == Some(h) && w.phases[h].Selected?
    requires forall j | w.phases[h].next <= j < n :: w.accepted[j].None?
    ensures var r := RunFrom(w, more); r.Some? && r.value.doneKey
    decreases n - w.phases[h].next
  {
    assert AcceptedFirst(w, h, w.phases[h].next);
    if w.phases[h].next == n {
      more := [DoneTxn(h, false)];
      assert more == more + [];
      RunCons(w, more[0], []);
    } else {
      var e := FinishCall(h, false);
      StepInv(n, w, e);
      var rest := OwnerFinishes(n, Step(w, e), h);
      more := [e] + rest;
      RunCons(w, e, rest);
    }
  }

  function NextHandle(es: seq<Event>): nat {
    if es == [] then 0
    else
      var e, k := es[|es| - 1], NextHandle(es[..|es| - 1]);
      if e.Open? && e.h >= k then e.h + 1 else k
  }

  lemma {:induction false} HandleIsNew(n: nat, es: seq<Event>)
    requires Run(n, es).Some?
    ensures forall h | h in Run(n, es).value.phases :: h < NextHandle(es)
  {
    if es != [] { HandleIsNew(n, es[..|es| - 1]); }
  }

  /** As long as no server accepted anyone, a new session can get the lock and finish. */
  lemma NewSessionFinishes(n: nat, w: World, h: nat) returns (more: seq<Event>)
    requires Inv(n, w) && !w.doneKey && h !in w.phases && forall j | 0 <= j < n :: w.accepted[j].None?
    ensures var r := RunFrom(w, more); r.Some? && r.value.doneKey
  {
    var w1 := Step(w, Lose);
    var w2 := Step(w1, Open(h));
    var w3 := Step(w2, Acquire(h));
    var w4 := Step(w3, SelectTxn(h, false));
    StepInv(n, w, Lose);
    StepInv(n, w1, Open(h));
    StepInv(n, w2, Acquire(h));
    StepInv(n, w3, SelectTxn(h, false));
    var rest := OwnerFinishes(n, w4, h);
    RunCons(w3, SelectTxn(h, false), rest);
    RunCons(w2, Acquire(h), [SelectTxn(h, false)] + rest);
    RunCons(w1, Open(h), [Acquire(h)] + ([SelectTxn(h, false)] + rest));
    more := [Lose] + ([Open(h)] + ([Acquire(h)] + ([SelectTxn(h, false)] + rest)));
    RunCons(w, Lose, more[1..]);
    assert more == [Lose] + more[1..] && more[1..] == [Open(h)] + ([Acquire(h)] + ([SelectTxn(h, false)] + rest));
  }

  /** In every reachable state, initialisation is done or can still be completed if and only if no server
      accepted an attempt that has lost the lock, failed or started over. */
  lemma CompletableIff(n: nat, es: seq<Event>)
    requires Run(n, es).Some?
    ensures (exists more :: Run(n, es + more).Some? && Run(n, es + more).value.doneKey)
      <==> Run(n, es).value.doneKey || Completable(Run(n, es).value)
  {
    var w := Run(n, es).value;
    RunInv(n, es);
    if w.doneKey {
      assert es + [] == es;
    } else if Completable(w) {
      var more := Completes(n, es);
      RunAppend(n, es, more);
    } else {
      forall more | Run(n, es + more).Some? ensures !Run(n, es + more).value.doneKey { DeadForever(n, es, more); }
    }
  }

  lemma Completes(n: nat, es: seq<Event>) returns (more: seq<Event>)
    requires Run(n, es).Some? && !Run(n, es).value.doneKey && Completable(Run(n, es).value)
    ensures var r := RunFrom(Run(n, es).value, more); r.Some? && r.value.doneKey
  {
    var w := Run(n, es).value;
    RunInv(n, es);
    if j :| 0 <= j < n && w.accepted[j].Some? {
      more := OwnerFinishes(n, w, w.accepted[j].value);
    } else {
      HandleIsNew(n, es);
      more := NewSessionFinishes(n, w, NextHandle(es));
    }
  }

  /** A run that gets there: the first of two servers accepts, and the lock is lost before the second does. */
  lemma LostLockIsFatal()
    ensures var es := [Open(0), Acquire(0), SelectTxn(0, false), FinishCall(0, false), Lose];
      Run(2, es).Some? && !Run(2, es).value.doneKey && !Completable(Run(2, es).value)
  {
    var d, e := FinishCall(0, false), Lose;
    var es := FirstAccepts(2);
    RunSnoc(2, es + [d], e);
    assert es + [d] + [e] == [Open(0), Acquire(0), SelectTxn(0, false), d, e];
    assert !PastServer(Run(2, es + [d] + [e]).value, 0, 0);
  }

  /** Session 0 is selected, and the first of `n` servers accepts it. */
  lemma FirstAccepts(n: nat) returns (es: seq<Event>)
    requires n > 0
    ensures es == [Open(0), Acquire(0), SelectTxn(0, false)]
    ensures At(Run(n, es + [FinishCall(0, false)]), n, Some(0), Some(0), Selected(1))
  {
    var a, b, c, d := Open(0), Acquire(0), SelectTxn(0, false), FinishCall(0, false);
    es := [a, b, c];
    assert At(Run(n, [a]), n, None, None, Waiting) by {
      RunSnoc(n, [], a);
      assert [] + [a] == [a];
    }
    assert At(Run(n, es), n, Some(0), None, Selected(0)) by {
      RunSnoc(n, [a], b);
      RunSnoc(n, [a, b], c);
      assert [a] + [b] == [a, b] && [a, b] + [c] == es;
    }
    RunSnoc(n, es, d);
  }

  /** The lock's owner, who the first of `n` servers accepted, and the phase of session 0, before any Done. */
  predicate At(r: Option<World>, n: nat, owner: Option<nat>, first: Option<nat>, phase: Phase) {
    && n > 0 && r.Some? && r.value.owner == owner && !r.value.doneKey
    && |r.value.accepted| == n && r.value.accepted[0] == first
    && 0 in r.value.phases && r.value.phases[0] == phase
  }

  /** Once a server has accepted, the chance survives exactly the events that are not a loss of the lock, a new start,
      a lost reply or a lost Done of the one session that can still finish. */
  lemma SurvivesIff(n: nat, w: World, e: Event, h: nat)
    requires Inv(n, w) && Possible(w, e) && !w.doneKey && Completable(w) && n > 0 && w.accepted[0] == Some(h)
    ensures var w' := Step(w, e);
      w'.doneKey || Completable(w') <==>
        !(e.Lose? || e == Begin(h) || e == FinishCall(h, true) || e == DoneTxn(h, true))
  {
    assert PastServer(w, 0, h);
    var w' := Step(w, e);
    if e.Lose? || e == Begin(h) || e == FinishCall(h, true) || e == DoneTxn(h, true) {
      assert w'.accepted[0] == Some(h) && !PastServer(w', 0, h);
    } else if e == DoneTxn(h, false) {
      assert w'.doneKey;
    } else {
      ChanceKept(n, w, e, h);
    }
  }

  lemma ChanceKept(n: nat, w: World, e: Event, h: nat)
    requires Inv(n, w) && Possible(w, e) && !w.doneKey && Completable(w) && n > 0 && w.accepted[0] == Some(h)
    requires !e.Lose? && e != Begin(h) && e != FinishCall(h, true) && !(e.DoneTxn? && e.h == h)
    ensures Completable(Step(w, e))
  {
    var w' := Step(w, e);
    assert PastServer(w, 0, h);
    if (e.FinishCall? && e.h != h) || e.DoneTxn? { OthersAreRefused(n, w, e.h, h); }
    forall j | 0 <= j < n && w'.accepted[j].Some? ensures PastServer(w', j, w'.accepted[j].value) {
      if w.accepted[j].Some? { assert PastServer(w, j, w.accepted[j].value); }
    }
  }

  /** Another session that calls a server now is at the first one, which turns it away. */
  lemma OthersAreRefused(n: nat, w: World, g: nat, h: nat)
    requires Inv(n, w) && n > 0 && w.accepted[0] == Some(h) && g != h && g in w.phases && w.phases[g].Selected?
    ensures w.phases[g].next == 0
  {
    assert AcceptedFirst(w, g, w.phases[g].next);
  }

  /** A Done that does not commit loses the chance as well, whatever the reason, unless there is no server. */
  lemma FailedDoneIsFatal(n: nat, es: seq<Event>, h: nat, lost: bool)
    requires Run(n, es).Some? && Possible(Run(n, es).value, DoneTxn(h, lost))
    ensures var w' := Step(Run(n, es).value, DoneTxn(h, lost));
      w'.doneKey || (Completable(w') <==> n == 0)
  {
    RunInv(n, es);
    var w := Run(n, es).value;
    assert AcceptedFirst(w, h, n);
    if n > 0 { assert w.accepted[0] == Some(h) && !PastServer(Step(w, DoneTxn(h, lost)), 0, h); }
  }

  /** The smallest run of this kind: one server accepts, and the transaction of Done never gets through. */
  lemma LostDoneIsFatal()
    ensures var es := [Open(0), Acquire(0), SelectTxn(0, false), FinishCall(0, false), DoneTxn(0, true)];
      Run(1, es).Some? && !Run(1, es).value.doneKey && !Completable(Run(1, es).value)
  {
    var d, e := FinishCall(0, false), DoneTxn(0, true);
    var es := FirstAccepts(1);
    RunSnoc(1, es + [d], e);
    assert es + [d] + [e] == [Open(0), Acquire(0), SelectTxn(0, false), d, e];
    FailedDoneIsFatal(1, es + [d], 0, true);
  }

  lemma RunSnoc(n: nat, es: seq<Event>, e: Event)
    ensures var p := Run(n, es);
      Run(n, es + [e]) == if p.Some? && Possible(p.value, e) then Some(Step(p.value, e)) else None
  {
    assert (es + [e])[..|es|] == es;
  }

  // -------------------------------------------------------------------- the objects

  /** What all trainers share: etcd's lock and done key; the servers and the sessions are ghost here. */
  class Cluster {
    var owner: Option<nat>
    var doneKey: bool
    ghost var accepted: seq<Option<nat>>
    ghost var phases: map<nat, Phase>
    ghost var committed: set<nat>

    ghost function View(): World
      reads this
    {
      World(owner, doneKey, accepted, phases, committed)
    }

    constructor (n: nat)
      ensures View() == Init(n)
    {
      owner, doneKey := None, false;
      accepted, phases, committed := seq(n, _ => None), map[], {};
    }

    method Unlock(succeeds: bool)
      modifies this
      ensures View() == if succeeds then Step(old(View()), Lose) else old(View())
    {
      if succeeds { owner := None; }
    }
  }

  /** The answers of Select: (true, nil), (false, nil) and (false, err). */
  datatype Answer = Chosen | AlreadyDone | SelectError

  /** What becomes of a transaction: it is answered, it never gets through, or it is carried out but an
      error is reported. */
  datatype Commit = Answered | Lost | ErrorAfter

  class Etcd {
    const cluster: Cluster
    var lock: Option<nat>

    constructor (cluster: Cluster)
      ensures this.cluster == cluster && lock == None
    {
      this.cluster := cluster;
      lock := None;
    }

    /** Select once the lock `h` was acquired; `unlocks` says whether a final Unlock gets through. */
    method SelectTxn(h: nat, commit: Commit, unlocks: bool) returns (r: Answer)
      requires Possible(cluster.View(), Event.SelectTxn(h, !commit.Answered?))
      modifies this`lock, cluster
      ensures var w := Step(old(cluster.View()), Event.SelectTxn(h, !commit.Answered?));
        && cluster.View() == (if r.AlreadyDone? && unlocks then Step(w, Lose) else w)
        && (r.Chosen? <==> w.phases[h].Selected?) && (r.AlreadyDone? <==> w.phases[h].Refused?)
      ensures r.Chosen? <==> commit.Answered? && old(cluster.owner) == Some(h) && !old(cluster.doneKey)
      ensures r.AlreadyDone? <==> commit.Answered? && old(cluster.owner) == Some(h) && old(cluster.doneKey)
      ensures cluster.doneKey == old(cluster.doneKey)
      ensures cluster.owner == if r.AlreadyDone? && unlocks then None else old(cluster.owner)
      ensures lock == if r.Chosen? then Some(h) else old(lock)
    {
      if !commit.Answered? || cluster.owner != Some(h) {
        cluster.phases := cluster.phases[h := Failed];
        return SelectError;
      }
      if !cluster.doneKey {
        lock := Some(h);
        cluster.phases := cluster.phases[h := Selected(0)];
        return Chosen;
      }
      cluster.phases := cluster.phases[h := Refused];
      cluster.Unlock(unlocks);
      r := AlreadyDone;
    }

    /** Done, called at the end of FinishInitParams; true when it returns nil. An error can hide a commit. */
    method Done(commit: Commit, unlocks: bool) returns (ok: bool)
      requires lock.Some? ==> Possible(cluster.View(), DoneTxn(lock.value, commit.Lost?))
      modifies this`lock, cluster
      ensures ok <==> commit.Answered? && old(lock).Some? && old(cluster.owner) == old(lock)
      ensures ok ==> cluster.doneKey && old(lock).value in cluster.committed
      ensures var commits := !commit.Lost? && old(lock).Some? && old(cluster.owner) == old(lock);
        cluster.doneKey == (old(cluster.doneKey) || commits)
      ensures cluster.owner == if ok && unlocks then None else old(cluster.owner)
      ensures old(lock).None? ==> cluster.View() == old(cluster.View())
      ensures old(lock).Some? ==>
        var w := Step(old(cluster.View()), DoneTxn(old(lock).value, commit.Lost?));
        cluster.View() == if ok && unlocks then Step(w, Lose) else w
      ensures lock == if ok && unlocks then None else old(lock)
    {
      if lock.None? { return false; }
      cluster.phases := cluster.phases[lock.value := Selected(0)];
      if !commit.Lost? && cluster.owner == lock {
        cluster.doneKey := true;
        cluster.committed := cluster.committed + {lock.value};
      }
      if !commit.Answered? || cluster.owner != lock { return false; }
      cluster.Unlock(unlocks);
      if unlocks { lock := None; }
      ok := true;
    }
  }
}
