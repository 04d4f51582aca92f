/** backend/ws/connection.py in its own form: the module's dictionaries and the tables of its one
    `ConnectionManager` as fields that the operations update in place.  Each operation is proved
    to move the abstract state exactly as the transition system in SessionProtocol says. */
module SessionHub {
  import opened Common
  import opened SessionProtocol

  class ConnectionHub {
    var sessionCancelTokens: map<string, nat>
    var sessionTasks: map<string, SessionTask>
    var pendingCancellations: map<(string, nat), nat>
    var timers: map<nat, Timer>
    var cancelledTokens: set<nat>
    var nextId: nat
    var connections: set<string>
    var sessionConnections: map<string, set<string>>

    ghost function View(): Hub
      reads this
    {
      Hub(sessionCancelTokens, sessionTasks, pendingCancellations, timers, cancelledTokens, nextId,
          connections, sessionConnections)
    }

    constructor ()
      ensures View() == INIT
    {
      sessionCancelTokens, sessionTasks, pendingCancellations, timers := map[], map[], map[], map[];
      cancelledTokens, nextId, connections, sessionConnections := {}, 0, {}, map[];
    }

    method GetCancelToken(s: string) returns (token: nat)
      requires Inv(View())
      modifies this
      ensures View() == Step(old(View()), GetTokenOp(s))
      ensures s in sessionCancelTokens && token == sessionCancelTokens[s] && token !in cancelledTokens
    {
      if s in sessionCancelTokens {
        var oldToken := sessionCancelTokens[s];
        if oldToken in cancelledTokens {
          sessionCancelTokens := sessionCancelTokens - {s};
          if s in sessionTasks {
            sessionTasks := sessionTasks - {s};
          }
        }
      }
      if s !in sessionCancelTokens {
        var taskId, cancelToken := nextId, nextId + 1;
        nextId := nextId + 2;
        sessionCancelTokens := sessionCancelTokens[s := cancelToken];
        sessionTasks := sessionTasks[s := SessionTask(taskId, cancelToken, 0)];
      }
      token := sessionCancelTokens[s];
    }

    method AcquireCancelToken(s: string) returns (token: nat, created: bool)
      requires Inv(View())
      modifies this
      ensures View() == Step(old(View()), GetTokenOp(s))
      ensures s in sessionCancelTokens && token == sessionCancelTokens[s] && token !in cancelledTokens
      ensures created <==> token >= old(nextId)
      ensures !created ==> View() == old(View())
    {
      var ownsExisting := s in sessionCancelTokens && sessionCancelTokens[s] !in cancelledTokens;
      token := GetCancelToken(s);
      created := !ownsExisting;
    }

    method CancelSession(s: string) returns (found: bool)
      modifies this
      ensures View() == Step(old(View()), CancelSessionOp(s))
      ensures found <==> s in sessionCancelTokens
      ensures found ==> sessionCancelTokens[s] in cancelledTokens
    {
      if s in sessionCancelTokens {
        cancelledTokens := cancelledTokens + {sessionCancelTokens[s]};
        return true;
      }
      return false;
    }

    method CleanupCancelToken(s: string, only: Option<nat>)
      modifies this
      ensures View() == Step(old(View()), CleanupOp(s, only))
    {
      if only.Some? && (s !in sessionCancelTokens || sessionCancelTokens[s] != only.value) {
        return;
      }
      sessionCancelTokens := sessionCancelTokens - {s};
      sessionTasks := sessionTasks - {s};
    }

    method IncrementConnectionCount(s: string) returns (count: int)
      modifies this`sessionTasks
      ensures sessionTasks == if s in old(sessionTasks) then old(sessionTasks)[s := Incremented(old(sessionTasks)[s])]
                              else old(sessionTasks)
      ensures count == if s in sessionTasks then sessionTasks[s].connectionCount else 0
    {
      if s in sessionTasks {
        var task := sessionTasks[s];
        sessionTasks := sessionTasks[s := task.(connectionCount := task.connectionCount + 1)];
        return sessionTasks[s].connectionCount;
      }
      return 0;
    }

    method DecrementConnectionCount(s: string) returns (count: int)
      modifies this`sessionTasks
      ensures sessionTasks == if s in old(sessionTasks) then old(sessionTasks)[s := Decremented(old(sessionTasks)[s])]
                              else old(sessionTasks)
      ensures count == if s in sessionTasks then sessionTasks[s].connectionCount else 0
    {
      if s in sessionTasks {
        var task := sessionTasks[s];
        var lower := task.connectionCount - 1;
        sessionTasks := sessionTasks[s := task.(connectionCount := if 0 >= lower then 0 else lower)];
        return sessionTasks[s].connectionCount;
      }
      return 0;
    }

    /** `Task.cancel()` on a timer; a finished one ignores it. */
    method InterruptTimer(id: nat)
      modifies this`timers
      ensures View() == Interrupt(old(View()), id)
    {
      if id in timers {
        timers := timers[id := timers[id].(interrupted := true)];
      }
    }

    method ScheduleDelayedCancellation(s: string)
      modifies this
      ensures View() == SessionProtocol.ScheduleDelayedCancellation(old(View()), s)
    {
      if s !in sessionTasks {
        return;
      }
      var key := (s, sessionTasks[s].taskId);
      if key in pendingCancellations {
        InterruptTimer(pendingCancellations[key]);
      }
      timers := timers[nextId := Timer(s, key.1, false, false)];
      pendingCancellations := pendingCancellations[key := nextId];
      nextId := nextId + 1;
    }

    method CancelDelayedCancellation(s: string)
      modifies this
      ensures View() == SessionProtocol.CancelDelayedCancellation(old(View()), s)
    {
      if s !in sessionTasks {
        return;
      }
      var key := (s, sessionTasks[s].taskId);
      if key in pendingCancellations {
        InterruptTimer(pendingCancellations[key]);
        pendingCancellations := pendingCancellations - {key};
      }
    }

    /** One run of `delayed_cancel` by the event loop: up to its sleep, or from there to its end. */
    method RunTimer(id: nat)
      requires Enabled(View(), TimerOp(id))
      modifies this
      ensures View() == Step(old(View()), TimerOp(id))
    {
      var t := timers[id];
      if !t.started {
        if t.interrupted {
          timers := timers - {id};
        } else {
          timers := timers[id := t.(started := true)];
        }
        return;
      }
      if !t.interrupted && t.session in sessionTasks && sessionTasks[t.session].taskId == t.taskId {
        if sessionTasks[t.session].connectionCount <= 0 {
          var _ := CancelSession(t.session);
        }
      }
      timers := timers - {id};
      pendingCancellations := pendingCancellations - {(t.session, t.taskId)};
    }

    method Connect(c: string)
      modifies this`connections
      ensures View() == Step(old(View()), ConnectOp(c))
    {
      connections := connections + {c};
    }

    method BindSession(c: string, s: string)
      modifies this
      ensures View() == Step(old(View()), BindOp(c, s))
    {
      if s !in sessionConnections {
        sessionConnections := sessionConnections[s := {}];
      }
      var isNew := c !in sessionConnections[s];
      sessionConnections := sessionConnections[s := sessionConnections[s] + {c}];
      if isNew {
        var _ := IncrementConnectionCount(s);
      }
      assert View() == AddConnection(old(View()), c, s);
      if isNew {
        CancelDelayedCancellation(s);
      }
    }

    /** The body of `disconnect`'s loop over the sessions. */
    method UnbindOne(c: string, s: string) returns (check: bool)
      requires s in sessionConnections
      modifies this`sessionTasks, this`sessionConnections
      ensures View() == UnbindSession(old(View()), c, s)
      ensures check <==> NeedsCheck(old(View()), c, s)
    {
      check := false;
      if c in sessionConnections[s] {
        sessionConnections := sessionConnections[s := sessionConnections[s] - {c}];
        var count := DecrementConnectionCount(s);
        if sessionConnections[s] == {} {
          assert old(sessionConnections[s]) == {c};
          sessionConnections := sessionConnections - {s};
          check := count == 0;
        }
      }
    }

    /** The locked region of `disconnect`. */
    method UnbindEverywhere(c: string) returns (sessionsToCheck: seq<string>, ghost order: seq<string>)
      modifies this
      ensures Enabled(old(View()), DisconnectOp(c, order))
      ensures sessionsToCheck == Checks(old(View()), c, order)
      ensures View() == Unbind(old(View()), c)
    {
      ghost var h0 := View();
      sessionsToCheck, order := [], [];
      UnbindPartAll(h0, c);
      var todo := sessionConnections.Keys;
      assert h0.sessionConnections.Keys - todo == {};
      while todo != {}
        modifies this`sessionTasks, this`sessionConnections
        invariant todo <= h0.sessionConnections.Keys
        invariant Lists(order, h0.sessionConnections.Keys - todo)
        invariant sessionsToCheck == Checks(h0, c, order)
        invariant View() == UnbindPart(h0, c, h0.sessionConnections.Keys - todo)
        decreases todo
      {
        var s :| s in todo;
        ListsSnoc(order, h0.sessionConnections.Keys, todo, s);
        ChecksSnoc(h0, c, order, s);
        UnbindPartGrows(h0, c, h0.sessionConnections.Keys - todo, s);
        var check := UnbindOne(c, s);
        if check {
          sessionsToCheck := sessionsToCheck + [s];
        }
        todo, order := todo - {s}, order + [s];
      }
      assert h0.sessionConnections.Keys - todo == h0.sessionConnections.Keys;
      assert View() == UnbindPart(h0, c, h0.sessionConnections.Keys);
      connections := connections - {c};
      assert View() == UnbindPart(h0, c, h0.sessionConnections.Keys).(connections := h0.connections - {c});
    }

    method Disconnect(c: string) returns (ghost order: seq<string>)
      modifies this
      ensures Enabled(old(View()), DisconnectOp(c, order))
      ensures View() == Step(old(View()), DisconnectOp(c, order))
    {
      var sessionsToCheck;
      sessionsToCheck, order := UnbindEverywhere(c);
      ghost var h1 := View();
      var k := 0;
      while k < |sessionsToCheck|
        invariant 0 <= k <= |sessionsToCheck|
        invariant ScheduleAll(View(), sessionsToCheck[k..]) == ScheduleAll(h1, sessionsToCheck)
      {
        assert sessionsToCheck[k..][1..] == sessionsToCheck[k + 1..];
        ScheduleDelayedCancellation(sessionsToCheck[k]);
        k := k + 1;
      }
    }
  }

  lemma {:induction false} ListsSnoc(order: seq<string>, keys: set<string>, todo: set<string>, s: string)
    requires Lists(order, keys - todo) && s in todo && todo <= keys
    ensures Lists(order + [s], keys - (todo - {s}))
    ensures keys - (todo - {s}) == keys - todo + {s}
  {
    assert keys - (todo - {s}) == keys - todo + {s};
  }

  // ---------- the loop of `disconnect`, one session at a time ----------

  ghost function UnbindSession(h: Hub, c: string, s: string): Hub
    requires s in h.sessionConnections
  {
    if c !in h.sessionConnections[s] then h
    else
      var h1 := if s in h.tasks then h.(tasks := h.tasks[s := Decremented(h.tasks[s])]) else h;
      if h.sessionConnections[s] == {c} then h1.(sessionConnections := h.sessionConnections - {s})
      else h1.(sessionConnections := h.sessionConnections[s := h.sessionConnections[s] - {c}])
  }

  /** The state when the sessions of `done` are processed. */
  ghost function UnbindPart(h: Hub, c: string, done: set<string>): Hub {
    h.(tasks := map s | s in h.tasks :: if s in done && c in Bound(h, s) then Decremented(h.tasks[s]) else h.tasks[s],
       sessionConnections := map s | s in h.sessionConnections && !(s in done && h.sessionConnections[s] == {c})
                               :: if s in done then h.sessionConnections[s] - {c} else h.sessionConnections[s])
  }

  lemma {:induction false} UnbindPartGrows(h: Hub, c: string, done: set<string>, s: string)
    requires s in h.sessionConnections && s !in done
    ensures s in UnbindPart(h, c, done).sessionConnections
    ensures UnbindSession(UnbindPart(h, c, done), c, s) == UnbindPart(h, c, done + {s})
    ensures NeedsCheck(UnbindPart(h, c, done), c, s) <==> NeedsCheck(h, c, s)
  {
    UnbindPartTasks(h, c, done, s);
    UnbindPartSets(h, c, done, s);
  }

  lemma {:induction false} UnbindPartTasks(h: Hub, c: string, done: set<string>, s: string)
    requires s in h.sessionConnections && s !in done
    ensures UnbindSession(UnbindPart(h, c, done), c, s).tasks == UnbindPart(h, c, done + {s}).tasks
  {
  }

  lemma {:induction false} UnbindPartSets(h: Hub, c: string, done: set<string>, s: string)
    requires s in h.sessionConnections && s !in done
    ensures UnbindSession(UnbindPart(h, c, done), c, s).sessionConnections
            == UnbindPart(h, c, done + {s}).sessionConnections
  {
    if c !in h.sessionConnections[s] { assert h.sessionConnections[s] - {c} == h.sessionConnections[s]; }
  }

  lemma {:induction false} UnbindPartAll(h: Hub, c: string)
    ensures UnbindPart(h, c, {}) == h
    ensures UnbindPart(h, c, h.sessionConnections.Keys).(connections := h.connections - {c}) == Unbind(h, c)
  {
    assert UnbindPart(h, c, {}).tasks == h.tasks;
    assert UnbindPart(h, c, {}).sessionConnections == h.sessionConnections;
    assert UnbindPart(h, c, h.sessionConnections.Keys).tasks == Unbind(h, c).tasks;
    assert UnbindPart(h, c, h.sessionConnections.Keys).sessionConnections == Unbind(h, c).sessionConnections;
  }

  lemma {:induction false} ChecksSnoc(h: Hub, c: string, order: seq<string>, s: string)
    ensures Checks(h, c, order + [s]) == Checks(h, c, order) + if NeedsCheck(h, c, s) then [s] else []
    decreases |order|
  {
    if order == [] {
      assert [s][1..] == [];
    } else {
      assert (order + [s])[1..] == order[1..] + [s];
      ChecksSnoc(h, c, order[1..], s);
    }
  }
}
