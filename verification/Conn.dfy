/** The connection shared by concurrent callers (go/connection/conn.go). Each section that holds the
    mutex is one method here; the blocking dial and the wait on a channel lie between sections, so a
    run of any number of concurrent Connect, Call and Close is a sequence of these calls. */
module Conn {
  import opened Common

  /** What outlives a section: the clients dialled so far, those held by an unfinished Connect, those
      on which Close was called, the wait channels made so far, the closed ones, and for each parked
      Call the channel it waits on. */
  datatype Ledger = Ledger(dialled: set<nat>, held: set<nat>, closed: set<nat>,
                           made: set<nat>, closedChans: set<nat>, parked: map<nat, nat>)

  datatype State = State(client: Option<nat>, waitConn: Option<nat>, log: Ledger)

  datatype Event =
    | Dial(c: nat)                  // rpc.DialHTTP returned the new client c to some Connect
    | Drop(closeFails: bool)        // first section of Connect
    | Install(c: nat)               // second section of Connect, holding client c
    | Enter(call: nat, ch: nat)     // the section of Call; ch is the channel it would make
    | Wake(call: nat)               // the parked call finds its channel closed and starts over
    | Shut                          // Close

  const EMPTY := State(None, None, Ledger({}, {}, {}, {}, {}, map[]))

  /** Fresh clients and channels are new; closing a client on which Close was called before fails, as
      net/rpc clients do, and a first Close may fail too; only a held client is installed; a call is
      parked once; a parked call wakes only when its channel is closed. */
  predicate Possible(s: State, e: Event) {
    match e
    case Dial(c) => c !in s.log.dialled
    case Drop(fails) => s.client.Some? && s.client.value in s.log.closed ==> fails
    case Install(c) => c in s.log.held
    case Enter(call, ch) => call !in s.log.parked && ch !in s.log.made
    case Wake(call) => call in s.log.parked && s.log.parked[call] in s.log.closedChans
    case _ => true
  }

  function Step(s: State, e: Event): State
    requires Possible(s, e)
  {
    var g := s.log;
    match e
    case Dial(c) => s.(log := g.(dialled := g.dialled + {c}, held := g.held + {c}))
    case Drop(fails) =>
      if s.client.None? then s
      else
        var s' := s.(log := g.(closed := g.closed + {s.client.value}));
        if fails then s' else s'.(client := None)
    case Install(c) =>
      var g' := g.(held := g.held - {c});
      if s.client.Some? then s.(log := g'.(closed := g'.closed + {c}))
      else if s.waitConn.Some? then State(Some(c), None, g'.(closedChans := g'.closedChans + {s.waitConn.value}))
      else s.(client := Some(c), log := g')
    case Enter(call, ch) =>
      if s.client.Some? then s
      else if s.waitConn.Some? then s.(log := g.(parked := g.parked[call := s.waitConn.value]))
      else s.(waitConn := Some(ch), log := g.(made := g.made + {ch}, parked := g.parked[call := ch]))
    case Wake(call) => s.(log := g.(parked := g.parked - {call}))
    case Shut => if s.client.None? then s else s.(log := g.(closed := g.closed + {s.client.value}))
  }

  function Run(es: seq<Event>): Option<State> {
    if es == [] then Some(EMPTY)
    else
      var p := Run(es[..|es| - 1]);
      if p.Some? && Possible(p.value, es[|es| - 1]) then Some(Step(p.value, es[|es| - 1])) else None
  }

  predicate Inv(s: State) {
    && (s.waitConn.Some? ==> s.client.None? && s.waitConn.value in s.log.made && s.waitConn.value !in s.log.closedChans)
    && s.log.closedChans <= s.log.made
    && (forall k | k in s.log.parked :: s.waitConn == Some(s.log.parked[k]) || s.log.parked[k] in s.log.closedChans)
    && s.log.held <= s.log.dialled
    && (s.client.Some? ==> s.client.value in s.log.dialled && s.client.value !in s.log.held)
    && (forall c | c in s.log.dialled :: c in s.log.held || s.client == Some(c) || c in s.log.closed)
  }

  lemma StepInv(s: State, e: Event)
    requires Inv(s) && Possible(s, e)
    ensures Inv(Step(s, e))
  {}

  lemma {:induction false} RunInv(es: seq<Event>)
    ensures Run(es).Some? ==> Inv(Run(es).value)
  {
    if es != [] {
      RunInv(es[..|es| - 1]);
      var p := Run(es[..|es| - 1]);
      if p.Some? && Possible(p.value, es[|es| - 1]) { StepInv(p.value, es[|es| - 1]); }
    }
  }

  /** In every run: waitConn is set only while there is no client; every parked Call waits on it or on
      a closed channel, so an installed client leaves no Call asleep; and every dialled client that is
      neither installed nor held by an unfinished Connect has had Close called. */
  lemma {:induction false} NoLostWakeUp(es: seq<Event>)
    requires Run(es).Some?
    ensures var s := Run(es).value;
      && (s.waitConn.Some? ==> s.client.None?)
      && (forall k | k in s.log.parked :: s.waitConn == Some(s.log.parked[k]) || s.log.parked[k] in s.log.closedChans)
      && (s.client.Some? ==> forall k | k in s.log.parked :: Possible(s, Wake(k)))
      && (forall c | c in s.log.dialled :: c in s.log.held || s.client == Some(c) || c in s.log.closed)
  {
    RunInv(es);
  }

  /** In every run, installing a client closes the channel the sleepers wait on, and that channel was
      never closed before. */
  lemma {:induction false} NoDoubleClose(es: seq<Event>, c: nat)
    requires Run(es).Some? && Possible(Run(es).value, Install(c))
    ensures var s := Run(es).value;
      && (s.waitConn.Some? ==> s.waitConn.value !in s.log.closedChans)
      && (s.client.None? ==> Step(s, Install(c)).client == Some(c))
      && Step(s, Install(c)).log.closedChans - s.log.closedChans == (if s.waitConn.Some? then {s.waitConn.value} else {})
  {
    RunInv(es);
  }

  lemma StepKeepsClosed(s: State, e: Event)
    requires Possible(s, e) && s.client.Some? && s.client.value in s.log.closed
    ensures Step(s, e).client == s.client && s.log.closed <= Step(s, e).log.closed
  {}

  lemma {:induction false} KeepsClosed(es: seq<Event>, more: seq<Event>)
    requires Run(es).Some? && Run(es).value.client.Some? && Run(es).value.client.value in Run(es).value.log.closed
    ensures var r := Run(es + more); r.Some? ==>
      r.value.client == Run(es).value.client && r.value.client.value in r.value.log.closed
  {
    if more == [] {
      assert es + more == es;
    } else {
      var init := more[..|more| - 1];
      CutLast(es, more);
      KeepsClosed(es, init);
      var p := Run(es + init);
      if p.Some? && Possible(p.value, more[|more| - 1]) { StepKeepsClosed(p.value, more[|more| - 1]); }
    }
  }

  /** Close closes the client there is, and changes nothing else. */
  lemma ShutCloses(s: State)
    ensures s.client.Some? ==> s.client.value in Step(s, Shut).log.closed
    ensures Step(s, Shut) == s.(log := s.log.(closed := Step(s, Shut).log.closed))
    ensures s.client.None? ==> Step(s, Shut) == s
  {}

  /** In every reachable state with a client: no continuation ever replaces or drops that client if and only
      if Close was called on it. So after Close the connection is dead, whatever Connect is tried later. */
  lemma ClosedForGood(es: seq<Event>)
    requires Run(es).Some? && Run(es).value.client.Some?
    ensures var s := Run(es).value;
      (forall more | Run(es + more).Some? :: Run(es + more).value.client == s.client) <==> s.client.value in s.log.closed
  {
    var s := Run(es).value;
    if s.client.value in s.log.closed {
      forall more | Run(es + more).Some? ensures Run(es + more).value.client == s.client { KeepsClosed(es, more); }
    } else {
      var more := [Drop(false)];
      assert (es + more)[..|es + more| - 1] == es;
      assert Run(es + more).Some? && Run(es + more).value.client == None;
    }
  }

  /** A run that gets there: connect, close; the client is closed before any other Connect. */
  lemma CloseCloses()
    ensures var es := [Dial(0), Install(0), Shut];
      Run(es).Some? && Run(es).value.client == Some(0) && Run(es).value.log.closed == {0}
  {
    var es := [Dial(0), Install(0), Shut];
    assert es[..2] == [Dial(0), Install(0)] && es[..2][..1] == [Dial(0)] && [Dial(0)][..0] == [];
    assert Run([Dial(0)]) == Some(Step(EMPTY, Dial(0)));
  }

  /** A run that gets there: connect, close, and a Connect that fails and leaves the closed client. */
  lemma ReconnectFails()
    ensures var es := [Dial(0), Install(0), Shut, Drop(true)];
      Run(es).Some? && Run(es).value.client == Some(0) && 0 in Run(es).value.log.closed
  {
    var es := [Dial(0), Install(0), Shut, Drop(true)];
    assert es[..3] == [Dial(0), Install(0), Shut] && es[..3][..2] == [Dial(0), Install(0)];
    assert es[..3][..2][..1] == [Dial(0)] && [Dial(0)][..0] == [];
    assert Run([Dial(0)]) == Some(Step(EMPTY, Dial(0)));
  }

  /** The connection object; each method is one section under the mutex. */
  class Connection {
    var client: Option<nat>
    var waitConn: Option<nat>
    ghost var log: Ledger

    ghost function View(): State
      reads this
    {
      State(client, waitConn, log)
    }

    constructor ()
      ensures View() == EMPTY
    {
      client := None;
      waitConn := None;
      log := EMPTY.log;
    }

    method Close()
      modifies this`log
      ensures View() == Step(old(View()), Shut)
      ensures log == old(log).(closed := old(log).closed + if client.Some? then {client.value} else {})
    {
      if client.None? { return; }
      log := log.(closed := log.closed + {client.value});
    }

    method ConnectDrop(closeFails: bool) returns (err: bool)
      requires Possible(View(), Drop(closeFails))
      modifies this
      ensures View() == Step(old(View()), Drop(closeFails)) && err == (old(client).Some? && closeFails)
      ensures client == (if closeFails then old(client) else None) && waitConn == old(waitConn)
      ensures log == old(log).(closed := old(log).closed + if old(client).Some? then {old(client).value} else {})
    {
      if client.Some? {
        log := log.(closed := log.closed + {client.value});
        if closeFails { return true; }
        client := None;
      }
      err := false;
    }

    method ConnectInstall(c: nat) returns (err: bool)
      requires Possible(View(), Install(c))
      modifies this
      ensures View() == Step(old(View()), Install(c)) && err == old(client).Some?
      ensures old(client).Some? ==> client == old(client) && waitConn == old(waitConn)
      ensures old(client).Some? ==> log == old(log).(held := old(log).held - {c}, closed := old(log).closed + {c})
      ensures old(client).None? ==> client == Some(c) && waitConn == None
      ensures old(client).None? ==>
        var woken := if old(waitConn).Some? then {old(waitConn).value} else {};
        log == old(log).(held := old(log).held - {c}, closedChans := old(log).closedChans + woken)
    {
      log := log.(held := log.held - {c});
      if client.None? {
        client := Some(c);
        if waitConn.Some? {
          log := log.(closedChans := log.closedChans + {waitConn.value});
          waitConn := None;
        }
        err := false;
      } else {
        log := log.(closed := log.closed + {c});
        err := true;
      }
    }

    /** Returns the client to call, or the channel to wait on. */
    method CallEnter(ghost call: nat, ch: nat) returns (c: Option<nat>, waitCh: Option<nat>)
      requires Possible(View(), Enter(call, ch))
      modifies this
      ensures View() == Step(old(View()), Enter(call, ch))
      ensures c == old(client) && (c.Some? <==> waitCh.None?) && client == old(client)
      ensures c.Some? ==> log == old(log) && waitConn == old(waitConn)
      ensures c.None? ==> waitConn == waitCh == if old(waitConn).Some? then old(waitConn) else Some(ch)
      ensures c.None? ==>
        var made := if old(waitConn).Some? then {} else {ch};
        log == old(log).(made := old(log).made + made, parked := old(log).parked[call := waitCh.value])
      ensures waitCh.Some? ==> call in log.parked && log.parked[call] == waitCh.value && waitConn == waitCh
    {
      c := client;
      waitCh := None;
      if c.None? {
        if waitConn.Some? {
          waitCh := waitConn;
        } else {
          waitCh := Some(ch);
          waitConn := waitCh;
          log := log.(made := log.made + {ch});
        }
        log := log.(parked := log.parked[call := waitCh.value]);
      }
    }
  }
}
