/** The session protocol of backend/ws/connection.py as a transition system on values.

    One `Hub` value holds the module's dictionaries, the pending asyncio timers and the two
    tables of the `ConnectionManager`.  Task ids, cancellation tokens and timers are fresh
    identities drawn from one counter.  Every code path between two suspension points is one
    atomic step: the locked part of `disconnect` and the scheduling after it contain no
    suspension, and neither does `bind_session` once it holds its lock. */
module SessionProtocol {

  import opened Common

  /** `SessionTask`: the record of the task registered for a session. */
  datatype SessionTask = SessionTask(taskId: nat, token: nat, connectionCount: int)

  /** A live asyncio task running `delayed_cancel`.  `started` is false until the event loop
      first runs it; `interrupted` records a `Task.cancel()` not yet delivered. */
  datatype Timer = Timer(session: string, taskId: nat, started: bool, interrupted: bool)

  datatype Hub = Hub(
    tokens: map<string, nat>,                     // _session_cancel_tokens
    tasks: map<string, SessionTask>,              // _session_tasks
    pending: map<(string, nat), nat>,             // _pending_cancellations: key -> timer
    timers: map<nat, Timer>,                      // timers the event loop still has to run
    cancelled: set<nat>,                          // tokens whose flag is set
    nextId: nat,                                   // next unused identity
    connections: set<string>,                     // _connections
    sessionConnections: map<string, set<string>>) // _session_connections

  const INIT := Hub(map[], map[], map[], map[], {}, 0, {}, map[])

  /** The connections bound to a session. */
  function Bound(h: Hub, s: string): set<string> {
    if s in h.sessionConnections then h.sessionConnections[s] else {}
  }

  ghost predicate Current(h: Hub, s: string, taskId: nat) {
    s in h.tasks && h.tasks[s].taskId == taskId
  }

  // ---------- token registry ----------

  function DropRegistration(h: Hub, s: string): Hub {
    h.(tokens := h.tokens - {s}, tasks := h.tasks - {s})
  }

  function Register(h: Hub, s: string): Hub {
    h.(tokens := h.tokens[s := h.nextId + 1],
       tasks := h.tasks[s := SessionTask(h.nextId, h.nextId + 1, 0)],
       nextId := h.nextId + 2)
  }

  function GetCancelToken(h: Hub, s: string): Hub {
    var h1 := if s in h.tokens && h.tokens[s] in h.cancelled then DropRegistration(h, s) else h;
    if s in h1.tokens then h1 else Register(h1, s)
  }

  function CancelSession(h: Hub, s: string): Hub {
    if s in h.tokens then h.(cancelled := h.cancelled + {h.tokens[s]}) else h
  }

  function Cleanup(h: Hub, s: string, token: Option<nat>): Hub {
    if token.Some? && !(s in h.tokens && h.tokens[s] == token.value) then h
    else DropRegistration(h, s)
  }

  // ---------- grace timers ----------

  function Interrupt(h: Hub, id: nat): Hub {
    if id in h.timers then h.(timers := h.timers[id := h.timers[id].(interrupted := true)]) else h
  }

  /** A new timer for the key, and its entry. */
  function Arm(h: Hub, key: (string, nat)): Hub {
    h.(timers := h.timers[h.nextId := Timer(key.0, key.1, false, false)],
       pending := h.pending[key := h.nextId],
       nextId := h.nextId + 1)
  }

  function ScheduleDelayedCancellation(h: Hub, s: string): Hub {
    if s !in h.tasks then h
    else
      var key := (s, h.tasks[s].taskId);
      Arm(if key in h.pending then Interrupt(h, h.pending[key]) else h, key)
  }

  function CancelDelayedCancellation(h: Hub, s: string): Hub {
    if s !in h.tasks then h
    else
      var key := (s, h.tasks[s].taskId);
      if key !in h.pending then h
      else
        var h1 := Interrupt(h, h.pending[key]);
        h1.(pending := h1.pending - {key})
  }

  function ScheduleAll(h: Hub, sessions: seq<string>): Hub
    decreases |sessions|
  {
    if sessions == [] then h
    else ScheduleAll(ScheduleDelayedCancellation(h, sessions[0]), sessions[1..])
  }

  /** The timer's task ends; its `finally` removes whatever entry its key has by then. */
  function EndTimer(h: Hub, id: nat): Hub
    requires id in h.timers
  {
    var key := (h.timers[id].session, h.timers[id].taskId);
    h.(timers := h.timers - {id}, pending := h.pending - {key})
  }

  /** The event loop runs timer `id` up to its next suspension or its end. */
  function TimerStep(h: Hub, id: nat): Hub
    requires id in h.timers
  {
    var t := h.timers[id];
    if !t.started then
      // cancelled before its first run: the body and its `finally` are never entered
      if t.interrupted then h.(timers := h.timers - {id})
      else h.(timers := h.timers[id := t.(started := true)])
    else if t.interrupted then EndTimer(h, id)
    else if t.session !in h.tasks || h.tasks[t.session].taskId != t.taskId then EndTimer(h, id)
    else if h.tasks[t.session].connectionCount > 0 then EndTimer(h, id)
    else EndTimer(CancelSession(h, t.session), id)
  }

  // ---------- connections ----------

  function Decremented(task: SessionTask): SessionTask {
    task.(connectionCount := if task.connectionCount - 1 > 0 then task.connectionCount - 1 else 0)
  }

  function Incremented(task: SessionTask): SessionTask {
    task.(connectionCount := task.connectionCount + 1)
  }

  function Connect(h: Hub, c: string): Hub {
    h.(connections := h.connections + {c})
  }

  /** The locked part of `disconnect`. */
  function Unbind(h: Hub, c: string): Hub {
    h.(tasks := map s | s in h.tasks :: if c in Bound(h, s) then Decremented(h.tasks[s]) else h.tasks[s],
       sessionConnections := map s | s in h.sessionConnections && h.sessionConnections[s] != {c}
                               :: h.sessionConnections[s] - {c},
       connections := h.connections - {c})
  }

  /** `sessions_to_check`: c was the last connection and the count is now 0 (0 too without a task). */
  predicate NeedsCheck(h: Hub, c: string, s: string) {
    && s in h.sessionConnections && h.sessionConnections[s] == {c}
    && (s in h.tasks ==> Decremented(h.tasks[s]).connectionCount == 0)
  }

  function Checks(h: Hub, c: string, order: seq<string>): (r: seq<string>)
    ensures forall s :: s in r <==> s in order && NeedsCheck(h, c, s)
    ensures |r| <= |order|
  {
    if order == [] then []
    else (if NeedsCheck(h, c, order[0]) then [order[0]] else []) + Checks(h, c, order[1..])
  }

  /** `order` is the iteration order of the `_session_connections` dictionary. */
  function Disconnect(h: Hub, c: string, order: seq<string>): Hub {
    ScheduleAll(Unbind(h, c), Checks(h, c, order))
  }

  /** The locked part of `bind_session`. */
  function AddConnection(h: Hub, c: string, s: string): Hub {
    var h1 := h.(sessionConnections := h.sessionConnections[s := Bound(h, s) + {c}]);
    if c !in Bound(h, s) && s in h.tasks then h1.(tasks := h1.tasks[s := Incremented(h1.tasks[s])]) else h1
  }

  function Bind(h: Hub, c: string, s: string): Hub {
    var h1 := AddConnection(h, c, s);
    if c in Bound(h, s) then h1 else CancelDelayedCancellation(h1, s)
  }

  // ---------- runs ----------

  datatype Op =
    | GetTokenOp(s: string)                        // get_cancel_token, acquire_cancel_token
    | CleanupOp(s: string, only: Option<nat>)
    | CancelSessionOp(s: string)                   // /stop, queue cancel
    | CancelTokenOp(token: nat)                    // a holder calls token.cancel() itself
    | ConnectOp(c: string)
    | BindOp(c: string, s: string)
    | DisconnectOp(c: string, order: seq<string>)  // closing, or a send that failed
    | TimerOp(id: nat)

  ghost predicate Lists(order: seq<string>, keys: set<string>) {
    && (forall s :: s in order <==> s in keys)
    && (forall i, j :: 0 <= i < j < |order| ==> order[i] != order[j])
  }

  ghost predicate Enabled(h: Hub, op: Op) {
    match op
    case CancelTokenOp(token) => token < h.nextId
    case DisconnectOp(_, order) => Lists(order, h.sessionConnections.Keys)
    case TimerOp(id) => id in h.timers
    case _ => true
  }

  function Step(h: Hub, op: Op): Hub
    requires op.TimerOp? ==> op.id in h.timers
  {
    match op
    case GetTokenOp(s) => GetCancelToken(h, s)
    case CleanupOp(s, token) => Cleanup(h, s, token)
    case CancelSessionOp(s) => CancelSession(h, s)
    case CancelTokenOp(token) => h.(cancelled := h.cancelled + {token})
    case ConnectOp(c) => Connect(h, c)
    case BindOp(c, s) => Bind(h, c, s)
    case DisconnectOp(c, order) => Disconnect(h, c, order)
    case TimerOp(id) => TimerStep(h, id)
  }

  ghost predicate Runs(h: Hub, ops: seq<Op>)
    decreases |ops|
  {
    ops == [] || (Enabled(h, ops[0]) && Runs(Step(h, ops[0]), ops[1..]))
  }

  ghost function After(h: Hub, ops: seq<Op>): Hub
    requires Runs(h, ops)
    decreases |ops|
  {
    if ops == [] then h else After(Step(h, ops[0]), ops[1..])
  }

  // ---------- the invariant ----------

  ghost predicate RegistryAgrees(h: Hub) {
    && h.tokens.Keys == h.tasks.Keys
    && (forall s :: s in h.tasks ==> h.tasks[s].token == h.tokens[s])
  }

  ghost predicate NoEmptySet(h: Hub) {
    forall s :: s in h.sessionConnections ==> h.sessionConnections[s] != {}
  }

  /** A bind before the task exists is not counted, so the count may only be too small. */
  ghost predicate NeverOvercounts(h: Hub) {
    forall s :: s in h.tasks ==> 0 <= h.tasks[s].connectionCount <= |Bound(h, s)|
  }

  /** Identities in use are older than the counter. */
  ghost predicate IdsOld(h: Hub) {
    && (forall s :: s in h.tasks ==> h.tasks[s].taskId < h.nextId && h.tasks[s].token < h.nextId)
    && (forall id :: id in h.timers ==> id < h.nextId && h.timers[id].taskId < h.nextId)
    && (forall key :: key in h.pending ==> h.pending[key] < h.nextId)
    && (forall k :: k in h.cancelled ==> k < h.nextId)
  }

  /** An entry that still names a live timer names one of its own session and task. */
  ghost predicate EntriesMatch(h: Hub) {
    forall key :: key in h.pending && h.pending[key] in h.timers ==>
                    h.timers[h.pending[key]].session == key.0 && h.timers[h.pending[key]].taskId == key.1
  }

  /** Once a timer was armed for a task, that task's count is exact for as long as it is current. */
  ghost predicate ArmedCountExact(h: Hub) {
    forall id :: id in h.timers && Current(h, h.timers[id].session, h.timers[id].taskId) ==>
                   h.tasks[h.timers[id].session].connectionCount == |Bound(h, h.timers[id].session)|
  }

  ghost predicate Inv(h: Hub) {
    RegistryAgrees(h) && NoEmptySet(h) && NeverOvercounts(h) && IdsOld(h) && EntriesMatch(h) && ArmedCountExact(h)
  }

  // ---------- every step keeps the invariant ----------

  lemma {:induction false} DropKeepsInv(h: Hub, s: string)
    requires Inv(h)
    ensures Inv(DropRegistration(h, s))
  {
  }

  lemma {:induction false} RegisterKeepsInv(h: Hub, s: string)
    requires Inv(h)
    ensures Inv(Register(h, s))
  {
    var h' := Register(h, s);
    assert forall x :: Bound(h', x) == Bound(h, x);
    assert NeverOvercounts(h');
    assert ArmedCountExact(h');
  }

  lemma {:induction false} CancelSessionKeepsInv(h: Hub, s: string)
    requires Inv(h)
    ensures Inv(CancelSession(h, s))
  {
  }

  lemma {:induction false} EndTimerKeepsInv(h: Hub, id: nat)
    requires Inv(h) && id in h.timers
    ensures Inv(EndTimer(h, id))
  {
  }

  lemma {:induction false} TimerKeepsInv(h: Hub, id: nat)
    requires Inv(h) && id in h.timers
    ensures Inv(TimerStep(h, id))
  {
    var t := h.timers[id];
    if t.started {
      EndTimerKeepsInv(h, id);
      CancelSessionKeepsInv(h, t.session);
      EndTimerKeepsInv(CancelSession(h, t.session), id);
    } else {
      FirstRunKeepsInv(h, id);
    }
  }

  lemma {:induction false} FirstRunKeepsInv(h: Hub, id: nat)
    requires Inv(h) && id in h.timers && !h.timers[id].started
    ensures Inv(TimerStep(h, id))
  {
    if h.timers[id].interrupted {
      assert TimerStep(h, id) == h.(timers := h.timers - {id});
      TimerGoneKeepsInv(h, id);
    } else {
      assert TimerStep(h, id) == h.(timers := h.timers[id := h.timers[id].(started := true)]);
      TimerFlagKeepsInv(h, id, h.timers[id].(started := true));
    }
  }

  lemma {:induction false} TimerGoneKeepsInv(h: Hub, id: nat)
    requires Inv(h)
    ensures Inv(h.(timers := h.timers - {id}))
  {
  }

  /** A timer of the same session and task in the place of timer `id`. */
  lemma {:induction false} TimerFlagKeepsInv(h: Hub, id: nat, t: Timer)
    requires Inv(h) && id in h.timers && t.session == h.timers[id].session && t.taskId == h.timers[id].taskId
    ensures Inv(h.(timers := h.timers[id := t]))
  {
    var h' := h.(timers := h.timers[id := t]);
    assert forall x :: Bound(h', x) == Bound(h, x);
  }

  lemma {:induction false} InterruptKeepsInv(h: Hub, id: nat)
    requires Inv(h)
    ensures Inv(Interrupt(h, id))
  {
  }

  lemma {:induction false} CancelDelayedKeepsInv(h: Hub, s: string)
    requires Inv(h)
    ensures Inv(CancelDelayedCancellation(h, s))
  {
    if s in h.tasks && (s, h.tasks[s].taskId) in h.pending {
      InterruptKeepsInv(h, h.pending[(s, h.tasks[s].taskId)]);
    }
  }

  lemma {:induction false} AddConnectionKeepsInv(h: Hub, c: string, s: string)
    requires Inv(h)
    ensures Inv(AddConnection(h, c, s))
  {
    if c in Bound(h, s) {
      assert Bound(h, s) + {c} == h.sessionConnections[s];
      assert AddConnection(h, c, s) == h;
    } else {
      AddNewKeepsCounts(h, c, s);
      AddNewKeepsRest(h, c, s);
    }
  }

  lemma {:induction false} AddNewKeepsRest(h: Hub, c: string, s: string)
    requires Inv(h)
    ensures var h' := AddConnection(h, c, s); RegistryAgrees(h') && NoEmptySet(h') && IdsOld(h') && EntriesMatch(h')
  {
    AddNewKeepsIds(h, c, s);
    AddNewKeepsSets(h, c, s);
  }

  lemma {:induction false} AddNewKeepsSets(h: Hub, c: string, s: string)
    requires RegistryAgrees(h) && NoEmptySet(h)
    ensures RegistryAgrees(AddConnection(h, c, s)) && NoEmptySet(AddConnection(h, c, s))
  {
    var h' := AddConnection(h, c, s);
    assert h'.tokens == h.tokens && h'.tasks.Keys == h.tasks.Keys;
    forall x | x in h'.tasks ensures h'.tasks[x].token == h'.tokens[x] {
      assert h'.tasks[x].token == h.tasks[x].token;
    }
    forall x | x in h'.sessionConnections ensures h'.sessionConnections[x] != {} {
      if x == s { assert c in h'.sessionConnections[x]; }
    }
  }

  lemma {:induction false} AddNewKeepsIds(h: Hub, c: string, s: string)
    requires IdsOld(h) && EntriesMatch(h)
    ensures IdsOld(AddConnection(h, c, s)) && EntriesMatch(AddConnection(h, c, s))
  {
    var h' := AddConnection(h, c, s);
    assert h'.timers == h.timers && h'.pending == h.pending && h'.cancelled == h.cancelled && h'.nextId == h.nextId;
    forall x | x in h'.tasks ensures h'.tasks[x].taskId < h'.nextId && h'.tasks[x].token < h'.nextId {
      assert h'.tasks[x].taskId == h.tasks[x].taskId;
    }
  }

  /** A new binding adds one to the set of its session and one to the count of its task. */
  lemma {:induction false} AddNewCounts(h: Hub, c: string, s: string, x: string)
    requires c !in Bound(h, s)
    ensures |Bound(AddConnection(h, c, s), x)| == |Bound(h, x)| + if x == s then 1 else 0
    ensures x in h.tasks ==> AddConnection(h, c, s).tasks[x].connectionCount
                             == h.tasks[x].connectionCount + if x == s then 1 else 0
  {
  }

  lemma {:induction false} AddNewKeepsCounts(h: Hub, c: string, s: string)
    requires Inv(h) && c !in Bound(h, s)
    ensures NeverOvercounts(AddConnection(h, c, s)) && ArmedCountExact(AddConnection(h, c, s))
  {
    var h' := AddConnection(h, c, s);
    forall x | x in h'.tasks ensures 0 <= h'.tasks[x].connectionCount <= |Bound(h', x)| { AddNewCounts(h, c, s, x); }
    forall id | id in h'.timers && Current(h', h'.timers[id].session, h'.timers[id].taskId)
      ensures h'.tasks[h'.timers[id].session].connectionCount == |Bound(h', h'.timers[id].session)|
    {
      AddNewCounts(h, c, s, h.timers[id].session);
    }
  }

  lemma {:induction false} UnbindBound(h: Hub, c: string, s: string)
    ensures Bound(Unbind(h, c), s) == Bound(h, s) - {c}
    ensures |Bound(Unbind(h, c), s)| == |Bound(h, s)| - (if c in Bound(h, s) then 1 else 0)
  {
    if c !in Bound(h, s) { assert Bound(h, s) - {c} == Bound(h, s); }
  }

  lemma {:induction false} UnbindKeepsInv(h: Hub, c: string)
    requires Inv(h)
    ensures Inv(Unbind(h, c))
  {
    var h' := Unbind(h, c);
    forall s | s in h'.tasks ensures 0 <= h'.tasks[s].connectionCount <= |Bound(h', s)| { UnbindBound(h, c, s); }
    forall id | id in h'.timers && Current(h', h'.timers[id].session, h'.timers[id].taskId)
      ensures h'.tasks[h'.timers[id].session].connectionCount == |Bound(h', h'.timers[id].session)|
    { UnbindBound(h, c, h.timers[id].session); }
    forall s | s in h'.sessionConnections ensures h'.sessionConnections[s] != {} { }
  }

  lemma {:induction false} ArmKeepsInv(h: Hub, s: string)
    requires Inv(h) && Bound(h, s) == {} && s in h.tasks
    ensures Inv(Arm(h, (s, h.tasks[s].taskId)))
  {
    var h' := Arm(h, (s, h.tasks[s].taskId));
    assert forall x :: Bound(h', x) == Bound(h, x);
    assert h.tasks[s].connectionCount == 0;
    assert ArmedCountExact(h');
  }

  lemma {:induction false} ScheduleKeepsInv(h: Hub, s: string)
    requires Inv(h) && Bound(h, s) == {}
    ensures Inv(ScheduleDelayedCancellation(h, s))
    ensures forall x :: Bound(ScheduleDelayedCancellation(h, s), x) == Bound(h, x)
  {
    if s in h.tasks {
      var key := (s, h.tasks[s].taskId);
      if key in h.pending {
        InterruptKeepsInv(h, h.pending[key]);
        ArmKeepsInv(Interrupt(h, h.pending[key]), s);
      } else {
        ArmKeepsInv(h, s);
      }
    }
  }

  lemma {:induction false} ScheduleAllKeepsInv(h: Hub, sessions: seq<string>)
    requires Inv(h) && forall s :: s in sessions ==> Bound(h, s) == {}
    ensures Inv(ScheduleAll(h, sessions))
    decreases |sessions|
  {
    if sessions != [] {
      ScheduleKeepsInv(h, sessions[0]);
      ScheduleAllKeepsInv(ScheduleDelayedCancellation(h, sessions[0]), sessions[1..]);
    }
  }

  lemma {:induction false} DisconnectKeepsInv(h: Hub, c: string, order: seq<string>)
    requires Inv(h)
    ensures Inv(Disconnect(h, c, order))
  {
    UnbindKeepsInv(h, c);
    forall s | s in Checks(h, c, order) ensures Bound(Unbind(h, c), s) == {} { UnbindBound(h, c, s); }
    ScheduleAllKeepsInv(Unbind(h, c), Checks(h, c, order));
  }

  lemma {:induction false} StepKeepsInv(h: Hub, op: Op)
    requires Inv(h) && Enabled(h, op)
    ensures Inv(Step(h, op))
  {
    match op
    case GetTokenOp(s) => GetTokenKeepsInv(h, s);
    case CleanupOp(s, _) => DropKeepsInv(h, s);
    case CancelSessionOp(s) => CancelSessionKeepsInv(h, s);
    case CancelTokenOp(_) =>
    case ConnectOp(_) =>
    case BindOp(c, s) =>
      AddConnectionKeepsInv(h, c, s);
      CancelDelayedKeepsInv(AddConnection(h, c, s), s);
    case DisconnectOp(c, order) => DisconnectKeepsInv(h, c, order);
    case TimerOp(id) => TimerKeepsInv(h, id);
  }

  lemma {:induction false} GetTokenKeepsInv(h: Hub, s: string)
    requires Inv(h)
    ensures Inv(GetCancelToken(h, s))
  {
    DropKeepsInv(h, s);
    RegisterKeepsInv(h, s);
    RegisterKeepsInv(DropRegistration(h, s), s);
  }

  lemma {:induction false} RunKeepsInv(h: Hub, ops: seq<Op>)
    requires Inv(h) && Runs(h, ops)
    ensures Inv(After(h, ops))
    decreases |ops|
  {
    if ops != [] {
      StepKeepsInv(h, ops[0]);
      RunKeepsInv(Step(h, ops[0]), ops[1..]);
    }
  }

  lemma {:induction false} InitInv()
    ensures Inv(INIT)
  {
  }

  // ---------- what each step does, and to whom ----------

  /** Taking a token: afterwards the session has one that is not cancelled.  One that is registered and
      not cancelled stays; otherwise token and task are new and nobody counts.  Nobody else notices. */
  lemma {:induction false} GetTokenDoes(h: Hub, s: string)
    requires Inv(h)
    ensures var h' := Step(h, GetTokenOp(s));
            && s in h'.tokens && h'.tokens[s] !in h'.cancelled
            && (s in h.tokens && h.tokens[s] !in h.cancelled ==> h' == h)
            && (!(s in h.tokens && h.tokens[s] !in h.cancelled) ==>
                  && h.nextId <= h'.tokens[s] < h'.nextId && h.nextId <= h'.tasks[s].taskId < h'.nextId
                  && h'.tasks[s] == SessionTask(h'.tasks[s].taskId, h'.tokens[s], 0)
                  && h'.tokens - {s} == h.tokens - {s} && h'.tasks - {s} == h.tasks - {s}
                  && h' == h.(tokens := h'.tokens, tasks := h'.tasks, nextId := h'.nextId))
  {
    var h' := Step(h, GetTokenOp(s));
    if !(s in h.tokens && h.tokens[s] !in h.cancelled) {
      assert h' == Register(if s in h.tokens then DropRegistration(h, s) else h, s);
      RegisteredAnew(h, s);
    }
  }

  lemma {:induction false} RegisteredAnew(h: Hub, s: string)
    requires Inv(h)
    ensures var h' := Register(if s in h.tokens then DropRegistration(h, s) else h, s);
            && h'.tokens == h.tokens[s := h.nextId + 1] && h'.tokens - {s} == h.tokens - {s}
            && h'.tasks == h.tasks[s := SessionTask(h.nextId, h.nextId + 1, 0)] && h'.tasks - {s} == h.tasks - {s}
            && h' == h.(tokens := h'.tokens, tasks := h'.tasks, nextId := h.nextId + 2)
            && h.nextId + 1 !in h.cancelled
  {
    if s in h.tokens {
      DroppedAndPut(h.tokens, s, h.nextId + 1);
      DroppedAndPut(h.tasks, s, SessionTask(h.nextId, h.nextId + 1, 0));
    }
    assert h.tokens[s := h.nextId + 1] - {s} == h.tokens - {s};
    assert h.tasks[s := SessionTask(h.nextId, h.nextId + 1, 0)] - {s} == h.tasks - {s};
  }

  lemma {:induction false} DroppedAndPut<V>(m: map<string, V>, s: string, v: V)
    ensures (m - {s})[s := v] == m[s := v]
  {
  }

  /** Cleaning up: the registration of s goes if no token was named or the named one is registered. */
  lemma {:induction false} CleanupDoes(h: Hub, s: string, only: Option<nat>)
    ensures var h' := Step(h, CleanupOp(s, only));
            if only.Some? && !(s in h.tokens && h.tokens[s] == only.value) then h' == h
            else && h'.tokens.Keys == h.tokens.Keys - {s} && h'.tasks.Keys == h.tasks.Keys - {s}
                 && (forall x :: x in h'.tokens ==> h'.tokens[x] == h.tokens[x])
                 && (forall x :: x in h'.tasks ==> h'.tasks[x] == h.tasks[x])
                 && h' == h.(tokens := h'.tokens, tasks := h'.tasks)
  {
  }

  /** Connecting adds the connection to the table and nothing else. */
  lemma {:induction false} ConnectDoes(h: Hub, c: string, x: string)
    ensures var h' := Step(h, ConnectOp(c));
            && (x in h'.connections <==> x == c || x in h.connections)
            && h' == h.(connections := h'.connections)
  {
  }

  /** Stopping a session cancels its registered token and changes nothing else. */
  lemma {:induction false} StopDoes(h: Hub, s: string, token: nat)
    ensures var h' := Step(h, CancelSessionOp(s));
            && (token in h'.cancelled <==> token in h.cancelled || (s in h.tokens && token == h.tokens[s]))
            && h' == h.(cancelled := h'.cancelled)
  {
  }

  ghost function EntryAt(h: Hub, key: (string, nat)): Option<nat> {
    if key in h.pending then Some(h.pending[key]) else None
  }

  /** The timer the entry of the session's current task names. */
  ghost function EntryOf(h: Hub, s: string): Option<nat> {
    if s in h.tasks then EntryAt(h, (s, h.tasks[s].taskId)) else None
  }

  /** Binding: the connection joins the session's set.  A connection that is new there is counted, and the
      session's grace timer is called off: it is interrupted, and its entry is gone. */
  lemma {:induction false} BindDoes(h: Hub, c: string, s: string)
    ensures var h' := Step(h, BindOp(c, s)); var isNew := c !in Bound(h, s);
            && (forall x :: Bound(h', x) == if x == s then Bound(h, s) + {c} else Bound(h, x))
            && h'.tasks == (if isNew && s in h.tasks
                            then h.tasks[s := h.tasks[s].(connectionCount := h.tasks[s].connectionCount + 1)]
                            else h.tasks)
            && h'.tokens == h.tokens && h'.cancelled == h.cancelled && h'.nextId == h.nextId
            && h'.connections == h.connections
    ensures if c !in Bound(h, s) then CallsOff(h, Step(h, BindOp(c, s)), EntryOf(h, s))
            else Step(h, BindOp(c, s)).timers == h.timers && Step(h, BindOp(c, s)).pending == h.pending
    ensures c !in Bound(h, s) ==> EntryOf(Step(h, BindOp(c, s)), s) == None
  {
    var h1 := AddConnection(h, c, s);
    AddConnectionDoes(h, c, s);
    CancelDelayedDoes(h1, s);
    assert EntryOf(h1, s) == EntryOf(h, s);
  }

  lemma {:induction false} AddConnectionDoes(h: Hub, c: string, s: string)
    ensures var h' := AddConnection(h, c, s);
            && (forall x :: Bound(h', x) == if x == s then Bound(h, s) + {c} else Bound(h, x))
            && h'.tasks == (if c !in Bound(h, s) && s in h.tasks
                            then h.tasks[s := h.tasks[s].(connectionCount := h.tasks[s].connectionCount + 1)]
                            else h.tasks)
            && h' == h.(tasks := h'.tasks, sessionConnections := h'.sessionConnections)
  {
  }

  /** From h to h' the timer of the entry is interrupted and the entry removed; the others stay. */
  ghost predicate CallsOff(h: Hub, h': Hub, entry: Option<nat>) {
    && h'.timers.Keys == h.timers.Keys
    && (forall id :: id in h.timers ==>
          h'.timers[id] == if entry == Some(id) then h.timers[id].(interrupted := true) else h.timers[id])
    && (forall key :: key in h'.pending ==> key in h.pending && h'.pending[key] == h.pending[key])
    && (forall key :: key in h.pending && key !in h'.pending ==> entry == Some(h.pending[key]))
  }

  lemma {:induction false} CancelDelayedDoes(h: Hub, s: string)
    ensures var h' := CancelDelayedCancellation(h, s);
            && CallsOff(h, h', EntryOf(h, s)) && EntryOf(h', s) == None
            && h' == h.(timers := h'.timers, pending := h'.pending)
  {
  }

  /** An interrupted timer cancels nothing and is over when it runs. */
  lemma {:induction false} CalledOffTimerIsHarmless(h: Hub, id: nat)
    requires id in h.timers && h.timers[id].interrupted
    ensures var h' := Step(h, TimerOp(id)); h'.cancelled == h.cancelled && id !in h'.timers
  {
  }

  /** A run of a timer: the first one, if it is not interrupted by then, only puts it to sleep; any other
      is its last, and when it was past its start the entry of its key goes with it. */
  lemma {:induction false} TimerStepDoes(h: Hub, id: nat, other: nat)
    requires Enabled(h, TimerOp(id))
    ensures var t, h' := h.timers[id], Step(h, TimerOp(id));
            && (id in h'.timers <==> !t.started && !t.interrupted)
            && (id in h'.timers ==> h'.timers[id] == Timer(t.session, t.taskId, true, false))
            && (other != id ==> (other in h'.timers <==> other in h.timers))
            && (other != id && other in h.timers ==> h'.timers[other] == h.timers[other])
            && h'.pending.Keys == h.pending.Keys - (if t.started then {(t.session, t.taskId)} else {})
            && (forall key :: key in h'.pending ==> h'.pending[key] == h.pending[key])
            && h' == h.(timers := h'.timers, pending := h'.pending, cancelled := h'.cancelled)
  {
  }

  // ---------- a timer takes at most two steps ----------

  /** Other steps add new timers that have not started and may interrupt old ones; nothing more. */
  ghost predicate TimersOnlyInterrupted(h: Hub, h': Hub) {
    && h.nextId <= h'.nextId
    && (forall id :: id in h.timers ==> id in h'.timers && h'.timers[id].started == h.timers[id].started)
    && (forall id :: id in h'.timers && id !in h.timers ==> h.nextId <= id < h'.nextId && !h'.timers[id].started)
  }

  lemma {:induction false} ScheduleTimers(h: Hub, s: string)
    requires IdsOld(h)
    ensures TimersOnlyInterrupted(h, ScheduleDelayedCancellation(h, s)) && IdsOld(ScheduleDelayedCancellation(h, s))
  {
  }

  lemma {:induction false} TimersTrans(a: Hub, b: Hub, c: Hub)
    requires TimersOnlyInterrupted(a, b) && TimersOnlyInterrupted(b, c)
    ensures TimersOnlyInterrupted(a, c)
  {
  }

  lemma {:induction false} ScheduleAllTimers(h: Hub, sessions: seq<string>)
    requires IdsOld(h)
    ensures TimersOnlyInterrupted(h, ScheduleAll(h, sessions))
    decreases |sessions|
  {
    if sessions != [] {
      var h1 := ScheduleDelayedCancellation(h, sessions[0]);
      ScheduleTimers(h, sessions[0]);
      ScheduleAllTimers(h1, sessions[1..]);
      TimersTrans(h, h1, ScheduleAll(h1, sessions[1..]));
    }
  }

  lemma {:induction false} OtherStepsKeepTimers(h: Hub, op: Op)
    requires IdsOld(h) && !op.TimerOp?
    ensures TimersOnlyInterrupted(h, Step(h, op))
  {
    match op
    case GetTokenOp(_) =>
    case CleanupOp(_, _) =>
    case CancelSessionOp(_) =>
    case CancelTokenOp(_) =>
    case ConnectOp(_) =>
    case BindOp(c, s) =>
      BindDoes(h, c, s);
    case DisconnectOp(c, order) => ScheduleAllTimers(Unbind(h, c), Checks(h, c, order));
  }

  /** How many runs the timer can still have: two from its arming, one from its sleep, none when over. */
  function RunsLeft(h: Hub, id: nat): nat {
    if id in h.timers then (if h.timers[id].started then 1 else 2) else if id < h.nextId then 0 else 2
  }

  function RunsOf(ops: seq<Op>, id: nat): nat {
    if ops == [] then 0 else (if ops[0] == TimerOp(id) then 1 else 0) + RunsOf(ops[1..], id)
  }

  lemma {:induction false} StepUsesRuns(h: Hub, op: Op, id: nat)
    requires IdsOld(h) && Enabled(h, op)
    ensures RunsLeft(Step(h, op), id) + (if op == TimerOp(id) then 1 else 0) <= RunsLeft(h, id)
  {
    if op.TimerOp? { TimerStepDoes(h, op.id, id); } else { OtherStepsKeepTimers(h, op); }
  }

  /** A timer that is over never runs again: in any run a timer has at most the runs it has left. */
  lemma {:induction false} TimerRunsAtMost(h: Hub, ops: seq<Op>, id: nat)
    requires Inv(h) && Runs(h, ops)
    ensures RunsOf(ops, id) <= RunsLeft(h, id)
    ensures id < h.nextId && id !in h.timers ==> id !in After(h, ops).timers && RunsOf(ops, id) == 0
    decreases |ops|
  {
    if ops != [] {
      StepKeepsInv(h, ops[0]);
      StepUsesRuns(h, ops[0], id);
      if ops[0].TimerOp? { TimerStepDoes(h, ops[0].id, id); } else { OtherStepsKeepTimers(h, ops[0]); }
      TimerRunsAtMost(Step(h, ops[0]), ops[1..], id);
    }
  }

  /** So every timer of every run has at most two. */
  lemma {:induction false} TimerRunsTwice(ops: seq<Op>, id: nat)
    requires Runs(INIT, ops)
    ensures RunsOf(ops, id) <= 2
  {
    InitInv();
    TimerRunsAtMost(INIT, ops, id);
  }

  // ---------- whom a disconnect concerns ----------

  /** One of the sessions is s and has a task. */
  predicate Concerns(h: Hub, sessions: seq<string>, s: string) {
    s in sessions && s in h.tasks
  }

  /** Scheduling for several sessions: each of them with a task gets a new timer that has not started,
      named by its entry; other entries stay. */
  lemma {:induction false} ScheduleAllEntries(h: Hub, sessions: seq<string>, s: string, taskId: nat)
    requires IdsOld(h) && NoTwice(sessions)
    ensures var h' := ScheduleAll(h, sessions); var key := (s, taskId);
            if Concerns(h, sessions, s) && taskId == h.tasks[s].taskId
            then && key in h'.pending && h.nextId <= h'.pending[key] && h'.pending[key] in h'.timers
                 && h'.timers[h'.pending[key]] == Timer(s, taskId, false, false)
            else EntryAt(h', key) == EntryAt(h, key)
    decreases |sessions|
  {
    if sessions != [] {
      var h1, rest := ScheduleDelayedCancellation(h, sessions[0]), sessions[1..];
      ScheduleOneEntry(h, sessions[0], s, taskId);
      ScheduleOneTimer(h, sessions[0], h.nextId);
      ScheduleAllEntries(h1, rest, s, taskId);
      if sessions[0] == s && s in h.tasks && taskId == h.tasks[s].taskId {
        assert !Concerns(h1, rest, s);
        ScheduleAllTimersDo(h1, rest, h.nextId);
        NoEntryYet(h, sessions);
      }
    }
  }

  /** No session scheduled later has an entry for the timer armed first. */
  lemma {:induction false} NoEntryYet(h: Hub, sessions: seq<string>)
    requires IdsOld(h) && NoTwice(sessions) && sessions != []
    ensures var h1 := ScheduleDelayedCancellation(h, sessions[0]);
            forall x :: Concerns(h1, sessions[1..], x) ==> EntryOf(h1, x) == EntryOf(h, x) != Some(h.nextId)
  {
    var h1 := ScheduleDelayedCancellation(h, sessions[0]);
    forall x | Concerns(h1, sessions[1..], x) ensures EntryOf(h1, x) == EntryOf(h, x) != Some(h.nextId) {
      assert x != sessions[0];
      ScheduleOneEntry(h, sessions[0], x, h1.tasks[x].taskId);
    }
  }

  lemma {:induction false} ScheduleOneEntry(h: Hub, x: string, s: string, taskId: nat)
    requires IdsOld(h)
    ensures var h' := ScheduleDelayedCancellation(h, x); var key := (s, taskId);
            && IdsOld(h') && h'.tasks == h.tasks
            && if x == s && s in h.tasks && taskId == h.tasks[s].taskId
               then && EntryAt(h', key) == Some(h.nextId) && h'.nextId == h.nextId + 1
                    && h.nextId in h'.timers && h'.timers[h.nextId] == Timer(s, taskId, false, false)
               else EntryAt(h', key) == EntryAt(h, key)
  {
  }

  lemma {:induction false} ScheduleOneTimer(h: Hub, x: string, id: nat)
    requires IdsOld(h)
    ensures var h' := ScheduleDelayedCancellation(h, x);
            && IdsOld(h') && h'.tasks == h.tasks && h.nextId <= h'.nextId
            && (id in h.timers ==>
                  && id in h'.timers
                  && h'.timers[id] == if EntryOf(h, x) == Some(id) then h.timers[id].(interrupted := true)
                                      else h.timers[id])
  {
  }

  /** Some session of the list has an entry for the timer. */
  ghost predicate Named(h: Hub, sessions: seq<string>, id: nat) {
    exists x :: Concerns(h, sessions, x) && EntryOf(h, x) == Some(id)
  }

  /** The timers the entries named before are interrupted, no others. */
  lemma {:induction false} ScheduleAllTimersDo(h: Hub, sessions: seq<string>, id: nat)
    requires IdsOld(h) && NoTwice(sessions) && id in h.timers
    ensures var h' := ScheduleAll(h, sessions);
            && id in h'.timers
            && h'.timers[id] == if Named(h, sessions, id) then h.timers[id].(interrupted := true) else h.timers[id]
    decreases |sessions|
  {
    if sessions != [] {
      ScheduleOneTimer(h, sessions[0], id);
      ScheduleAllTimersDo(ScheduleDelayedCancellation(h, sessions[0]), sessions[1..], id);
      NamedCons(h, sessions, id);
    }
  }

  lemma {:induction false} NamedCons(h: Hub, sessions: seq<string>, id: nat)
    requires IdsOld(h) && sessions != [] && NoTwice(sessions)
    ensures Named(h, sessions, id)
            <==> EntryOf(h, sessions[0]) == Some(id)
                 || Named(ScheduleDelayedCancellation(h, sessions[0]), sessions[1..], id)
  {
    var h1 := ScheduleDelayedCancellation(h, sessions[0]);
    NoEntryYet(h, sessions);
    ScheduleOneTimer(h, sessions[0], id);
    if Named(h, sessions, id) {
      var x :| Concerns(h, sessions, x) && EntryOf(h, x) == Some(id);
      if x != sessions[0] { assert Concerns(h1, sessions[1..], x); }
    }
    if Named(h1, sessions[1..], id) {
      var x :| Concerns(h1, sessions[1..], x) && EntryOf(h1, x) == Some(id);
      assert Concerns(h, sessions, x);
    }
    if EntryOf(h, sessions[0]) == Some(id) { assert Concerns(h, sessions, sessions[0]); }
  }

  /** The connection is the only one of a session with a task. */
  predicate LosesLast(h: Hub, c: string, s: string) {
    s in h.tasks && Bound(h, s) == {c}
  }

  /** A disconnect, apart from what it forgets: every session of the connection counts one less, not below
      0; a session with a task that loses its only connection gets a new timer, which has not started and
      is named by its entry.  All other entries stay as they are. */
  lemma {:induction false} DisconnectDoes(h: Hub, c: string, order: seq<string>, s: string, taskId: nat)
    requires Inv(h) && Enabled(h, DisconnectOp(c, order))
    ensures var h' := Step(h, DisconnectOp(c, order)); var key := (s, taskId);
            && h'.tasks.Keys == h.tasks.Keys
            && (s in h.tasks ==> h'.tasks[s] == if c in Bound(h, s) then Decremented(h.tasks[s]) else h.tasks[s])
            && h'.tokens == h.tokens && h'.cancelled == h.cancelled && h'.connections == h.connections - {c}
            && if LosesLast(h, c, s) && taskId == h.tasks[s].taskId
               then && key in h'.pending && h.nextId <= h'.pending[key] && h'.pending[key] in h'.timers
                    && h'.timers[h'.pending[key]] == Timer(s, taskId, false, false)
               else EntryAt(h', key) == EntryAt(h, key)
  {
    UnbindKeepsInv(h, c);
    ScheduleAllFrame(Unbind(h, c), Checks(h, c, order));
    ChecksDistinct(h, c, order);
    ConcernedIff(h, c, order, s);
    ScheduleAllEntries(Unbind(h, c), Checks(h, c, order), s, taskId);
  }

  /** And of the timers there were, exactly those are interrupted that the entries of such sessions named. */
  lemma {:induction false} DisconnectInterruptsIff(h: Hub, c: string, order: seq<string>, id: nat)
    requires Inv(h) && Enabled(h, DisconnectOp(c, order)) && id in h.timers
    ensures var h' := Step(h, DisconnectOp(c, order));
            && id in h'.timers
            && h'.timers[id] == if exists x :: LosesLast(h, c, x) && EntryOf(h, x) == Some(id)
                                then h.timers[id].(interrupted := true) else h.timers[id]
  {
    var h1, checks := Unbind(h, c), Checks(h, c, order);
    UnbindKeepsInv(h, c);
    ChecksDistinct(h, c, order);
    ScheduleAllTimersDo(h1, checks, id);
    forall x ensures Concerns(h1, checks, x) <==> LosesLast(h, c, x) { ConcernedIff(h, c, order, x); }
    assert forall x :: EntryOf(h1, x) == EntryOf(h, x);
  }

  /** No other timer is new. */
  lemma {:induction false} DisconnectArmsOnly(h: Hub, c: string, order: seq<string>, id: nat)
    requires Inv(h) && Enabled(h, DisconnectOp(c, order))
    requires id in Step(h, DisconnectOp(c, order)).timers && id !in h.timers
    ensures exists s :: LosesLast(h, c, s) && EntryOf(Step(h, DisconnectOp(c, order)), s) == Some(id)
  {
    var h1, checks := Unbind(h, c), Checks(h, c, order);
    UnbindKeepsInv(h, c);
    ChecksDistinct(h, c, order);
    ScheduleAllFrame(h1, checks);
    NewIsNamed(h1, checks, id);
    var s :| Concerns(h1, checks, s) && EntryOf(ScheduleAll(h1, checks), s) == Some(id);
    ConcernedIff(h, c, order, s);
  }

  lemma {:induction false} NewIsNamed(h: Hub, sessions: seq<string>, id: nat)
    requires IdsOld(h) && NoTwice(sessions) && id in ScheduleAll(h, sessions).timers && id !in h.timers
    ensures exists s :: Concerns(h, sessions, s) && EntryOf(ScheduleAll(h, sessions), s) == Some(id)
    decreases |sessions|
  {
    var h1, x, end := ScheduleDelayedCancellation(h, sessions[0]), sessions[0], ScheduleAll(h, sessions);
    ScheduleOneTimer(h, x, id);
    ScheduleAllFrame(h1, sessions[1..]);
    if id in h1.timers {
      assert x in h.tasks && id == h.nextId;
      ScheduleOneEntry(h, x, x, h.tasks[x].taskId);
      ScheduleAllEntries(h1, sessions[1..], x, h.tasks[x].taskId);
      assert Concerns(h, sessions, x) && EntryOf(end, x) == Some(id);
    } else {
      NewIsNamed(h1, sessions[1..], id);
      var s :| Concerns(h1, sessions[1..], s) && EntryOf(end, s) == Some(id);
      assert Concerns(h, sessions, s);
    }
  }

  lemma {:induction false} ConcernedIff(h: Hub, c: string, order: seq<string>, x: string)
    requires Inv(h) && Enabled(h, DisconnectOp(c, order))
    ensures Concerns(Unbind(h, c), Checks(h, c, order), x) <==> LosesLast(h, c, x)
  {
    if LosesLast(h, c, x) {
      assert |{c}| == 1 && h.tasks[x].connectionCount <= |Bound(h, x)|;
      assert x in order;
    }
  }

  ghost predicate NoTwice(sessions: seq<string>) {
    forall i, j :: 0 <= i < j < |sessions| ==> sessions[i] != sessions[j]
  }

  lemma {:induction false} ChecksDistinct(h: Hub, c: string, order: seq<string>)
    requires NoTwice(order)
    ensures NoTwice(Checks(h, c, order))
    decreases |order|
  {
    if order != [] {
      var rest := Checks(h, c, order[1..]);
      ChecksDistinct(h, c, order[1..]);
      forall i | 0 <= i < |rest| ensures rest[i] != order[0] { assert rest[i] in rest; assert rest[i] in order[1..]; }
      var head := if NeedsCheck(h, c, order[0]) then [order[0]] else [];
      assert Checks(h, c, order) == head + rest;
    }
  }

  // ---------- safety: what a delayed cancellation may cancel ----------

  /** A timer step cancels a token exactly when the timer is past its sleep and not interrupted,
      its task is still the current one, and no connection is bound to its session. */
  lemma {:induction false} TimerCancelsIffAbandoned(h: Hub, id: nat)
    requires Inv(h) && id in h.timers
    ensures var t := h.timers[id];
            TimerStep(h, id).cancelled ==
            if t.started && !t.interrupted && Current(h, t.session, t.taskId) && Bound(h, t.session) == {}
            then h.cancelled + {h.tasks[t.session].token}
            else h.cancelled
  {
    var t := h.timers[id];
    if Current(h, t.session, t.taskId) {
      assert h.tasks[t.session].connectionCount == |Bound(h, t.session)|;
      assert Bound(h, t.session) == {} <==> |Bound(h, t.session)| == 0;
    }
  }

  /** Grace-timer safety over every run: whatever was bound, dropped, created, cleaned up or
      interrupted before, a timer step that cancels a token cancels the token of the task it
      was armed for, and does so while its session has no connection. */
  lemma {:induction false} GraceTimerSafety(ops: seq<Op>, id: nat, token: nat)
    requires Runs(INIT, ops) && id in After(INIT, ops).timers
    requires token in TimerStep(After(INIT, ops), id).cancelled && token !in After(INIT, ops).cancelled
    ensures var h := After(INIT, ops); var t := h.timers[id];
            && Current(h, t.session, t.taskId)
            && token == h.tasks[t.session].token == h.tokens[t.session]
            && t.session !in h.sessionConnections
  {
    InitInv();
    RunKeepsInv(INIT, ops);
    TimerCancelsIffAbandoned(After(INIT, ops), id);
  }

  /** The registry and the task table agree, no connection set is empty, and counts never exceed
      the sets, in every reachable state. */
  lemma {:induction false} RegistryAgreesOnEveryRun(ops: seq<Op>)
    requires Runs(INIT, ops)
    ensures var h := After(INIT, ops);
            && h.tokens.Keys == h.tasks.Keys
            && (forall s :: s in h.tokens ==> h.tasks[s].token == h.tokens[s])
            && (forall s :: s in h.sessionConnections ==> h.sessionConnections[s] != {})
            && (forall s :: s in h.tasks ==> h.tasks[s].connectionCount <= |Bound(h, s)|)
  {
    InitInv();
    RunKeepsInv(INIT, ops);
  }

  // ---------- no lost grace timer ----------

  ghost predicate Armed(h: Hub, id: nat, s: string, taskId: nat) {
    id in h.timers && h.timers[id].session == s && h.timers[id].taskId == taskId && !h.timers[id].interrupted
  }

  /** Nobody is connected to s, and the task is cancelled already or a live timer will see to it. */
  ghost predicate Doomed(h: Hub, s: string, taskId: nat) {
    && Current(h, s, taskId)
    && s !in h.sessionConnections
    && (h.tasks[s].token in h.cancelled || exists id :: Armed(h, id, s, taskId))
  }

  lemma {:induction false} ScheduleKeepsDoomed(h: Hub, x: string, s: string, taskId: nat)
    requires Inv(h) && Doomed(h, s, taskId)
    ensures Doomed(ScheduleDelayedCancellation(h, x), s, taskId)
  {
    var h' := ScheduleDelayedCancellation(h, x);
    if h.tasks[s].token !in h.cancelled {
      var id :| Armed(h, id, s, taskId);
      assert Armed(h', if x == s then h.nextId else id, s, taskId);
    }
  }

  lemma {:induction false} ScheduleDooms(h: Hub, s: string)
    requires Inv(h) && s in h.tasks && s !in h.sessionConnections
    ensures Doomed(ScheduleDelayedCancellation(h, s), s, h.tasks[s].taskId)
  {
    assert Armed(ScheduleDelayedCancellation(h, s), h.nextId, s, h.tasks[s].taskId);
  }

  lemma {:induction false} ScheduleAllDooms(h: Hub, sessions: seq<string>, s: string)
    requires Inv(h) && forall x :: x in sessions ==> Bound(h, x) == {}
    requires s in h.tasks && s !in h.sessionConnections
    requires s in sessions || Doomed(h, s, h.tasks[s].taskId)
    ensures Doomed(ScheduleAll(h, sessions), s, h.tasks[s].taskId)
    decreases |sessions|
  {
    if sessions != [] {
      var h1 := ScheduleDelayedCancellation(h, sessions[0]);
      ScheduleKeepsInv(h, sessions[0]);
      if Doomed(h, s, h.tasks[s].taskId) { ScheduleKeepsDoomed(h, sessions[0], s, h.tasks[s].taskId); }
      if sessions[0] == s { ScheduleDooms(h, s); }
      ScheduleAllDooms(h1, sessions[1..], s);
    }
  }

  /** When the last connection of a session leaves, a timer for its current task is armed. */
  lemma {:induction false} LastDisconnectDooms(h: Hub, c: string, order: seq<string>, s: string)
    requires Inv(h) && Enabled(h, DisconnectOp(c, order))
    requires s in h.tasks && Bound(h, s) == {c}
    ensures Doomed(Disconnect(h, c, order), s, h.tasks[s].taskId)
  {
    UnbindKeepsInv(h, c);
    forall x | x in Checks(h, c, order) ensures Bound(Unbind(h, c), x) == {} { UnbindBound(h, c, x); }
    assert NeedsCheck(h, c, s);
    ScheduleAllDooms(Unbind(h, c), Checks(h, c, order), s);
  }

  lemma {:induction false} DisconnectKeepsDoomed(h: Hub, c: string, order: seq<string>, s: string, taskId: nat)
    requires Inv(h) && Doomed(h, s, taskId)
    ensures Doomed(Disconnect(h, c, order), s, taskId)
  {
    var h1 := Unbind(h, c);
    UnbindKeepsInv(h, c);
    forall x | x in Checks(h, c, order) ensures Bound(h1, x) == {} { UnbindBound(h, c, x); }
    if h.tasks[s].token !in h.cancelled {
      var id :| Armed(h, id, s, taskId);
      assert Armed(h1, id, s, taskId);
    }
    ScheduleAllDooms(h1, Checks(h, c, order), s);
  }

  lemma {:induction false} BindKeepsDoomed(h: Hub, c: string, x: string, s: string, taskId: nat)
    requires Inv(h) && Doomed(h, s, taskId) && x != s
    ensures Doomed(Bind(h, c, x), s, taskId)
  {
    var h1 := AddConnection(h, c, x);
    AddConnectionKeepsInv(h, c, x);
    if h.tasks[s].token !in h.cancelled {
      var id :| Armed(h, id, s, taskId);
      assert Armed(h1, id, s, taskId);
    }
    CancelDelayedKeepsDoomed(h1, x, s, taskId);
  }

  lemma {:induction false} CancelDelayedKeepsDoomed(h: Hub, x: string, s: string, taskId: nat)
    requires Inv(h) && Doomed(h, s, taskId) && x != s
    ensures Doomed(CancelDelayedCancellation(h, x), s, taskId)
  {
    if h.tasks[s].token !in h.cancelled {
      var id :| Armed(h, id, s, taskId);
      assert Armed(CancelDelayedCancellation(h, x), id, s, taskId);
    }
  }

  lemma {:induction false} TimerKeepsDoomed(h: Hub, id: nat, s: string, taskId: nat)
    requires Inv(h) && id in h.timers && Doomed(h, s, taskId)
    ensures Doomed(TimerStep(h, id), s, taskId)
  {
    var h' := TimerStep(h, id);
    if h.tasks[s].token !in h.cancelled {
      var live :| Armed(h, live, s, taskId);
      if live != id || !h.timers[id].started { assert Armed(h', live, s, taskId); }
    }
  }

  lemma {:induction false} StepKeepsDoomed(h: Hub, op: Op, s: string, taskId: nat)
    requires Inv(h) && Enabled(h, op) && Doomed(h, s, taskId)
    requires !(op.BindOp? && op.s == s)
    requires Current(Step(h, op), s, taskId)
    ensures Doomed(Step(h, op), s, taskId)
  {
    match op
    case BindOp(c, x) => BindKeepsDoomed(h, c, x, s, taskId);
    case DisconnectOp(c, order) => DisconnectKeepsDoomed(h, c, order, s, taskId);
    case TimerOp(id) => TimerKeepsDoomed(h, id, s, taskId);
    case GetTokenOp(x) => GetTokenKeepsDoomed(h, x, s, taskId);
    case _ =>
      if h.tasks[s].token !in h.cancelled {
        var id :| Armed(h, id, s, taskId);
        assert Armed(Step(h, op), id, s, taskId);
      }
  }

  lemma {:induction false} GetTokenKeepsDoomed(h: Hub, x: string, s: string, taskId: nat)
    requires Inv(h) && Doomed(h, s, taskId) && Current(GetCancelToken(h, x), s, taskId)
    ensures Doomed(GetCancelToken(h, x), s, taskId)
  {
    TokenFrame(h, x, s);
    assert GetCancelToken(h, x).cancelled == h.cancelled && GetCancelToken(h, x).timers == h.timers;
    if h.tasks[s].token !in h.cancelled {
      var id :| Armed(h, id, s, taskId);
      assert Armed(GetCancelToken(h, x), id, s, taskId);
    }
  }

  ghost predicate SameTaskIds(h: Hub, h': Hub) {
    h'.tasks.Keys == h.tasks.Keys && forall s :: s in h.tasks ==> h'.tasks[s].taskId == h.tasks[s].taskId
  }

  lemma {:induction false} TokenFrame(h: Hub, x: string, s: string)
    ensures var h' := GetCancelToken(h, x);
            && h.nextId <= h'.nextId && h'.sessionConnections == h.sessionConnections
            && (s in h'.tasks ==> h'.tasks[s].taskId == h.nextId || (s in h.tasks && h'.tasks[s] == h.tasks[s]))
  {
  }

  lemma {:induction false} BindFrame(h: Hub, c: string, x: string)
    ensures var h' := Bind(h, c, x);
            h'.tokens == h.tokens && h'.cancelled == h.cancelled && h'.nextId == h.nextId && SameTaskIds(h, h')
  {
    var h1 := AddConnection(h, c, x);
    assert h1.tokens == h.tokens && h1.cancelled == h.cancelled && h1.nextId == h.nextId && SameTaskIds(h, h1);
    CancelDelayedFrame(h1, x);
  }

  lemma {:induction false} CancelDelayedFrame(h: Hub, x: string)
    ensures var h' := CancelDelayedCancellation(h, x);
            && h'.tasks == h.tasks && h'.tokens == h.tokens && h'.sessionConnections == h.sessionConnections
            && h'.cancelled == h.cancelled && h'.nextId == h.nextId
  {
  }

  lemma {:induction false} DisconnectFrame(h: Hub, c: string, order: seq<string>)
    ensures var h' := Disconnect(h, c, order);
            h'.tokens == h.tokens && h'.cancelled == h.cancelled && h'.nextId >= h.nextId && SameTaskIds(h, h')
  {
    ScheduleAllFrame(Unbind(h, c), Checks(h, c, order));
  }

  lemma {:induction false} TimerFrame(h: Hub, id: nat)
    requires id in h.timers
    ensures var h' := TimerStep(h, id);
            && h'.tasks == h.tasks && h'.tokens == h.tokens && h'.nextId == h.nextId && h.cancelled <= h'.cancelled
            && h'.sessionConnections == h.sessionConnections
  {
  }

  /** Steps only use up identities; a task current after a step was current before it or is new. */
  lemma {:induction false} StepIds(h: Hub, op: Op, s: string, taskId: nat)
    requires Enabled(h, op)
    ensures h.nextId <= Step(h, op).nextId
    ensures Current(Step(h, op), s, taskId) && taskId < h.nextId ==> Current(h, s, taskId)
  {
    match op
    case GetTokenOp(x) => TokenFrame(h, x, s);
    case CleanupOp(_, _) =>
    case CancelSessionOp(_) =>
    case CancelTokenOp(_) =>
    case ConnectOp(_) =>
    case BindOp(c, x) => BindFrame(h, c, x);
    case DisconnectOp(c, order) => DisconnectFrame(h, c, order);
    case TimerOp(id) => TimerFrame(h, id);
  }

  lemma {:induction false} ScheduleAllFrame(h: Hub, sessions: seq<string>)
    ensures var h' := ScheduleAll(h, sessions);
            && h'.tasks == h.tasks && h'.tokens == h.tokens && h'.cancelled == h.cancelled
            && h'.sessionConnections == h.sessionConnections && h'.connections == h.connections
            && h'.nextId >= h.nextId
    decreases |sessions|
  {
    if sessions != [] { ScheduleAllFrame(ScheduleDelayedCancellation(h, sessions[0]), sessions[1..]); }
  }

  /** A task replaced or removed is never current again. */
  lemma {:induction false} GoneStaysGoneOnRuns(h: Hub, ops: seq<Op>, s: string, taskId: nat)
    requires Inv(h) && Runs(h, ops) && taskId < h.nextId && !Current(h, s, taskId)
    ensures !Current(After(h, ops), s, taskId)
    decreases |ops|
  {
    if ops != [] {
      StepKeepsInv(h, ops[0]);
      StepIds(h, ops[0], s, taskId);
      GoneStaysGoneOnRuns(Step(h, ops[0]), ops[1..], s, taskId);
    }
  }

  lemma {:induction false} DoomedOnRuns(h: Hub, ops: seq<Op>, s: string, taskId: nat)
    requires Inv(h) && Runs(h, ops) && Doomed(h, s, taskId)
    requires forall i :: 0 <= i < |ops| ==> !(ops[i].BindOp? && ops[i].s == s)
    requires Current(After(h, ops), s, taskId)
    ensures Doomed(After(h, ops), s, taskId)
    decreases |ops|
  {
    if ops != [] {
      var h1 := Step(h, ops[0]);
      StepKeepsInv(h, ops[0]);
      StepIds(h, ops[0], s, taskId);
      if !Current(h1, s, taskId) {
        GoneStaysGoneOnRuns(h1, ops[1..], s, taskId);
        assert false;
      }
      StepKeepsDoomed(h, ops[0], s, taskId);
      DoomedOnRuns(h1, ops[1..], s, taskId);
    }
  }

  /** No lost grace timer: the last connection of s leaves after any run `before`; through any
      continuation `rest` without a new binding to s, as long as the task stays current its
      token is cancelled or an uninterrupted timer for it is still live, and letting that timer
      finish its sleep cancels the token. */
  lemma {:induction false} NoLostGraceTimer(before: seq<Op>, c: string, order: seq<string>, s: string, rest: seq<Op>)
    requires Runs(INIT, before)
    requires Enabled(After(INIT, before), DisconnectOp(c, order))
    requires s in After(INIT, before).tasks && Bound(After(INIT, before), s) == {c}
    requires Runs(Disconnect(After(INIT, before), c, order), rest)
    requires forall i :: 0 <= i < |rest| ==> !(rest[i].BindOp? && rest[i].s == s)
    ensures var taskId := After(INIT, before).tasks[s].taskId;
            var h := After(Disconnect(After(INIT, before), c, order), rest);
            Current(h, s, taskId) ==>
              && s !in h.sessionConnections
              && (h.tasks[s].token in h.cancelled || exists id :: Armed(h, id, s, taskId))
              && (forall id :: Armed(h, id, s, taskId) && h.timers[id].started ==>
                                 h.tasks[s].token in TimerStep(h, id).cancelled)
  {
    InitInv();
    RunKeepsInv(INIT, before);
    var h0 := After(INIT, before);
    var taskId := h0.tasks[s].taskId;
    LastDisconnectDooms(h0, c, order, s);
    DisconnectKeepsInv(h0, c, order);
    var h1 := Disconnect(h0, c, order);
    RunKeepsInv(h1, rest);
    var h := After(h1, rest);
    if Current(h, s, taskId) {
      DoomedOnRuns(h1, rest, s, taskId);
      forall id | Armed(h, id, s, taskId) && h.timers[id].started
        ensures h.tasks[s].token in TimerStep(h, id).cancelled
      { TimerCancelsIffAbandoned(h, id); }
    }
  }

  /** After a disconnect the connection is in no session set and not in the connection table. */
  lemma {:induction false} DisconnectForgets(h: Hub, c: string, order: seq<string>)
    ensures var h' := Disconnect(h, c, order);
            && c !in h'.connections
            && (forall s :: Bound(h', s) == Bound(h, s) - {c})
            && (forall s :: s in h'.sessionConnections ==> c !in h'.sessionConnections[s])
  {
    ScheduleAllFrame(Unbind(h, c), Checks(h, c, order));
    forall s ensures Bound(Unbind(h, c), s) == Bound(h, s) - {c} { UnbindBound(h, c, s); }
  }

  // ---------- why the statements are over live timers and an under-count ----------

  lemma {:induction false} RunsCons(h: Hub, op: Op, rest: seq<Op>)
    requires Enabled(h, op) && Runs(Step(h, op), rest)
    ensures Runs(h, [op] + rest) && After(h, [op] + rest) == After(Step(h, op), rest)
  {
    assert ([op] + rest)[1..] == rest;
  }

  /** A bind before the task exists is never counted. */
  lemma {:induction false} CountCanBeTooSmall(s: string, c: string)
    ensures var ops := [BindOp(c, s)] + ([GetTokenOp(s)] + []);
            && Runs(INIT, ops)
            && Current(After(INIT, ops), s, 0)
            && After(INIT, ops).tasks[s].connectionCount == 0
            && Bound(After(INIT, ops), s) == {c}
  {
    var h1 := Step(INIT, BindOp(c, s));
    RunsCons(h1, GetTokenOp(s), []);
    RunsCons(INIT, BindOp(c, s), [GetTokenOp(s)] + []);
  }

  ghost predicate SameTask(h: Hub, h': Hub, s: string) {
    s in h.tasks && s in h'.tasks && h.tasks[s].taskId == h'.tasks[s].taskId
  }

  /** The fewest connections session s has had since its current task was registered; `low` is that
      number at the start. */
  ghost function FewestSince(h: Hub, ops: seq<Op>, s: string, low: nat): nat
    requires Runs(h, ops)
    decreases |ops|
  {
    if ops == [] then low
    else
      var h1 := Step(h, ops[0]);
      var n := |Bound(h1, s)|;
      FewestSince(h1, ops[1..], s, if SameTask(h, h1, s) && low < n then low else n)
  }

  /** The count of s is the number of its connections less `low`. */
  ghost predicate CountsAbove(h: Hub, s: string, low: nat) {
    s in h.tasks ==> low <= |Bound(h, s)| && h.tasks[s].connectionCount == |Bound(h, s)| - low
  }

  lemma {:induction false} BindCounts(h: Hub, c: string, x: string, s: string, low: nat)
    requires Inv(h) && CountsAbove(h, s, low)
    ensures CountsAbove(Bind(h, c, x), s, low)
  {
    AddConnectionCounts(h, c, x, s, low);
    CancelDelayedFrame(AddConnection(h, c, x), x);
  }

  lemma {:induction false} AddConnectionCounts(h: Hub, c: string, x: string, s: string, low: nat)
    requires CountsAbove(h, s, low)
    ensures CountsAbove(AddConnection(h, c, x), s, low)
  {
    if c in Bound(h, x) {
      assert Bound(h, x) + {c} == h.sessionConnections[x];
      assert AddConnection(h, c, x).tasks == h.tasks;
    } else {
      AddNewCounts(h, c, x, s);
    }
  }

  /** A leaving connection takes one off the count, counted or not, unless the count is 0 already. */
  lemma {:induction false} DisconnectCounts(h: Hub, c: string, order: seq<string>, s: string, low: nat)
    requires Inv(h) && CountsAbove(h, s, low) && s in h.tasks
    ensures var h' := Disconnect(h, c, order); var n := |Bound(h', s)|;
            && s in h'.tasks && h'.tasks[s].connectionCount == n - if low < n then low else n
  {
    ScheduleAllFrame(Unbind(h, c), Checks(h, c, order));
    UnbindBound(h, c, s);
  }

  lemma {:induction false} StepCounts(h: Hub, op: Op, s: string, low: nat)
    requires Inv(h) && Enabled(h, op) && CountsAbove(h, s, low)
    ensures var h' := Step(h, op); var n := |Bound(h', s)|;
            CountsAbove(h', s, if SameTask(h, h', s) && low < n then low else n)
  {
    match op
    case GetTokenOp(x) =>
      TokenFrame(h, x, s);
      GetTokenKeepsInv(h, x);
      assert s in Step(h, op).tasks && !SameTask(h, Step(h, op), s) ==> Step(h, op).tasks[s].connectionCount == 0;
    case CleanupOp(_, _) =>
    case CancelSessionOp(_) =>
    case CancelTokenOp(_) =>
    case ConnectOp(_) =>
    case BindOp(c, x) =>
      BindFrame(h, c, x);
      BindCounts(h, c, x, s, low);
    case DisconnectOp(c, order) =>
      DisconnectFrame(h, c, order);
      if s in h.tasks { DisconnectCounts(h, c, order, s, low); }
    case TimerOp(id) => TimerFrame(h, id);
  }

  lemma {:induction false} RunCounts(h: Hub, ops: seq<Op>, s: string, low: nat)
    requires Inv(h) && Runs(h, ops) && CountsAbove(h, s, low)
    ensures CountsAbove(After(h, ops), s, FewestSince(h, ops, s, low))
    decreases |ops|
  {
    if ops != [] {
      var h1 := Step(h, ops[0]);
      var n := |Bound(h1, s)|;
      StepKeepsInv(h, ops[0]);
      StepCounts(h, ops[0], s, low);
      RunCounts(h1, ops[1..], s, if SameTask(h, h1, s) && low < n then low else n);
    }
  }

  /** By how much the count is too small: in every reachable state it is the number of connections
      above the fewest the session has had since its task was registered, so it is exact if and only
      if the session was without a connection at some moment since then. */
  lemma {:induction false} CountIsExactIff(ops: seq<Op>, s: string)
    requires Runs(INIT, ops) && s in After(INIT, ops).tasks
    ensures var h, fewest := After(INIT, ops), FewestSince(INIT, ops, s, 0);
            && h.tasks[s].connectionCount == |Bound(h, s)| - fewest
            && (h.tasks[s].connectionCount == |Bound(h, s)| <==> fewest == 0)
  {
    InitInv();
    RunCounts(INIT, ops, s, 0);
  }

  /** The only connection of the only connected session leaves. */
  lemma {:induction false} OnlyConnectionLeaves(h: Hub, s: string, c: string)
    requires Inv(h) && s in h.tasks && h.sessionConnections == map[s := {c}]
    ensures var h' := Disconnect(h, c, [s]); var key := (s, h.tasks[s].taskId);
            && Enabled(h, DisconnectOp(c, [s])) && Inv(h')
            && h'.sessionConnections == map[] && Current(h', s, key.1) && h'.nextId == h.nextId + 1
            && h'.pending == h.pending[key := h.nextId]
            && h'.timers == (if key in h.pending then Interrupt(h, h.pending[key]).timers else h.timers)
                            [h.nextId := Timer(s, key.1, false, false)]
  {
    OnlyCheck(h, s, c);
    DisconnectKeepsInv(h, c, [s]);
    OnlyUnbound(h, s, c);
  }

  lemma {:induction false} OnlyCheck(h: Hub, s: string, c: string)
    requires Inv(h) && s in h.tasks && h.sessionConnections == map[s := {c}]
    ensures Enabled(h, DisconnectOp(c, [s]))
    ensures Disconnect(h, c, [s]) == ScheduleDelayedCancellation(Unbind(h, c), s)
  {
    assert Bound(h, s) == {c} && NeedsCheck(h, c, s);
    assert [s][1..] == [];
    assert Checks(h, c, [s]) == [s];
    var h1 := ScheduleDelayedCancellation(Unbind(h, c), s);
    assert ScheduleAll(h1, [s][1..]) == h1;
  }

  lemma {:induction false} OnlyUnbound(h: Hub, s: string, c: string)
    requires s in h.tasks && h.sessionConnections == map[s := {c}]
    ensures var h' := Unbind(h, c);
            && h'.sessionConnections == map[] && h'.nextId == h.nextId
            && h'.pending == h.pending && h'.timers == h.timers
            && s in h'.tasks && h'.tasks[s].taskId == h.tasks[s].taskId
  {
  }

  lemma {:induction false} OnlyTimerSleeps(h: Hub, id: nat, s: string, taskId: nat)
    requires h.timers == map[id := Timer(s, taskId, false, false)]
    ensures TimerStep(h, id) == h.(timers := map[id := Timer(s, taskId, true, false)])
  {
  }

  /** The only timer starts sleeping, then a bind interrupts it and takes its entry away. */
  lemma {:induction false} RebindInterrupts(h: Hub, id: nat, s: string, b: string)
    requires Inv(h) && s in h.tasks && h.sessionConnections == map[]
    requires h.timers == map[id := Timer(s, h.tasks[s].taskId, false, false)]
    requires h.pending == map[(s, h.tasks[s].taskId) := id]
    ensures var h' := Bind(TimerStep(h, id), b, s);
            && Inv(h') && Current(h', s, h.tasks[s].taskId) && h'.nextId == h.nextId
            && h'.sessionConnections == map[s := {b}] && h'.pending == map[]
            && h'.timers == map[id := Timer(s, h.tasks[s].taskId, true, true)]
  {
    TimerKeepsInv(h, id);
    OnlyTimerSleeps(h, id, s, h.tasks[s].taskId);
    BindInterrupts(TimerStep(h, id), id, s, b);
  }

  lemma {:induction false} BindInterrupts(h: Hub, id: nat, s: string, b: string)
    requires Inv(h) && s in h.tasks && h.sessionConnections == map[]
    requires h.timers == map[id := Timer(s, h.tasks[s].taskId, true, false)]
    requires h.pending == map[(s, h.tasks[s].taskId) := id]
    ensures var h' := Bind(h, b, s);
            && Inv(h') && Current(h', s, h.tasks[s].taskId) && h'.nextId == h.nextId
            && h'.sessionConnections == map[s := {b}] && h'.pending == map[]
            && h'.timers == map[id := Timer(s, h.tasks[s].taskId, true, true)]
  {
    StepKeepsInv(h, BindOp(b, s));
  }

  /** An interrupted timer's `finally` removes the entry of the timer that replaced it: when a
      session's connection a leaves, b comes and leaves, and only then the first timer's
      interruption is delivered, the second timer is armed but has no entry for a bind to find. */
  lemma {:induction false} EntryLostFrom(h: Hub, s: string, a: string, b: string)
    requires Inv(h) && h.timers == map[] && h.pending == map[]
    requires s in h.tasks && h.sessionConnections == map[s := {a}]
    ensures Runs(h, LosingEntry(h.nextId, s, a, b))
    ensures Armed(After(h, LosingEntry(h.nextId, s, a, b)), h.nextId + 1, s, h.tasks[s].taskId)
    ensures After(h, LosingEntry(h.nextId, s, a, b)).pending == map[]
  {
    var leaveA, wake, bindB, leaveB := DisconnectOp(a, [s]), TimerOp(h.nextId), BindOp(b, s), DisconnectOp(b, [s]);
    OnlyConnectionLeaves(h, s, a);
    var h1 := Step(h, leaveA);
    RebindInterrupts(h1, h.nextId, s, b);
    var h3 := Step(Step(h1, wake), bindB);
    OnlyConnectionLeaves(h3, s, b);
    LateFinally(h3, h.nextId, s, b);
    RunsCons(h3, leaveB, [wake] + []);
    RunsCons(Step(h1, wake), bindB, [leaveB] + ([wake] + []));
    RunsCons(h1, wake, [bindB] + ([leaveB] + ([wake] + [])));
    RunsCons(h, leaveA, [wake] + ([bindB] + ([leaveB] + ([wake] + []))));
  }

  /** a leaves, timer `id` falls asleep, b comes and leaves, and only then timer `id` wakes up. */
  function LosingEntry(id: nat, s: string, a: string, b: string): seq<Op> {
    [DisconnectOp(a, [s])] +
    ([TimerOp(id)] + ([BindOp(b, s)] + ([DisconnectOp(b, [s])] + ([TimerOp(id)] + []))))
  }

  /** The run from the start: a turn takes its token and a binds, then as above. */
  lemma {:induction false} EntryOfLiveTimerCanBeLost(s: string, a: string, b: string)
    ensures var ops := [GetTokenOp(s)] + ([BindOp(a, s)] + LosingEntry(2, s, a, b));
            && Runs(INIT, ops)
            && Armed(After(INIT, ops), 3, s, 0)
            && After(INIT, ops).pending == map[]
  {
    InitInv();
    var h1 := Step(INIT, GetTokenOp(s));
    var h2 := Step(h1, BindOp(a, s));
    StepKeepsInv(INIT, GetTokenOp(s));
    StepKeepsInv(h1, BindOp(a, s));
    assert Bound(h1, s) + {a} == {a};
    EntryLostFrom(h2, s, a, b);
    RunsCons(h1, BindOp(a, s), LosingEntry(2, s, a, b));
    RunsCons(INIT, GetTokenOp(s), [BindOp(a, s)] + LosingEntry(2, s, a, b));
  }

  /** Waking timer `id` ends it: it was already asleep. */
  ghost predicate EndsTimerOf(h: Hub, op: Op, key: (string, nat)) {
    op.TimerOp? && op.id in h.timers && h.timers[op.id].started
    && (h.timers[op.id].session, h.timers[op.id].taskId) == key
  }

  /** Exactly what takes the entry of a timer away while the timer stays armed: the end of another
      timer of the same session and task. */
  lemma {:induction false} EntryStaysIff(h: Hub, op: Op, id: nat, s: string, taskId: nat)
    requires Inv(h) && Enabled(h, op) && Armed(h, id, s, taskId) && Armed(Step(h, op), id, s, taskId)
    requires (s, taskId) in h.pending && h.pending[(s, taskId)] == id
    ensures var h' := Step(h, op);
            (s, taskId) in h'.pending && h'.pending[(s, taskId)] == id <==> !EndsTimerOf(h, op, (s, taskId))
  {
    match op
    case GetTokenOp(_) =>
    case CleanupOp(_, _) =>
    case CancelSessionOp(_) =>
    case CancelTokenOp(_) =>
    case ConnectOp(_) =>
    case BindOp(c, x) => BindKeepsEntry(h, c, x, id, s, taskId);
    case DisconnectOp(c, order) => DisconnectKeepsEntry(h, c, order, id, s, taskId);
    case TimerOp(other) => TimerTakesEntryIff(h, other, id, s, taskId);
  }

  lemma {:induction false} BindKeepsEntry(h: Hub, c: string, x: string, id: nat, s: string, taskId: nat)
    requires Armed(h, id, s, taskId) && Armed(Bind(h, c, x), id, s, taskId)
    requires (s, taskId) in h.pending && h.pending[(s, taskId)] == id
    ensures var h' := Bind(h, c, x); (s, taskId) in h'.pending && h'.pending[(s, taskId)] == id
  {
    var h1 := AddConnection(h, c, x);
    assert h1.pending == h.pending && h1.timers == h.timers;
  }

  lemma {:induction false} TimerTakesEntryIff(h: Hub, other: nat, id: nat, s: string, taskId: nat)
    requires other in h.timers && Armed(h, id, s, taskId) && Armed(TimerStep(h, other), id, s, taskId)
    requires (s, taskId) in h.pending && h.pending[(s, taskId)] == id
    ensures var h' := TimerStep(h, other);
            (s, taskId) in h'.pending && h'.pending[(s, taskId)] == id <==> !EndsTimerOf(h, TimerOp(other), (s, taskId))
  {
    var t := h.timers[other];
    if t.started {
      assert TimerStep(h, other).pending == h.pending - {(t.session, t.taskId)};
    } else {
      assert TimerStep(h, other).pending == h.pending;
    }
  }

  lemma {:induction false} DisconnectKeepsEntry(h: Hub, c: string, order: seq<string>, id: nat, s: string, taskId: nat)
    requires Inv(h) && Armed(h, id, s, taskId) && Armed(Disconnect(h, c, order), id, s, taskId)
    requires (s, taskId) in h.pending && h.pending[(s, taskId)] == id
    ensures var h' := Disconnect(h, c, order); (s, taskId) in h'.pending && h'.pending[(s, taskId)] == id
  {
    ScheduleAllKeepsEntry(Unbind(h, c), Checks(h, c, order), id, s, taskId);
  }

  /** Rescheduling a key replaces its entry, but it interrupts the timer of the entry first. */
  lemma {:induction false} ScheduleAllKeepsEntry(h: Hub, sessions: seq<string>, id: nat, s: string, taskId: nat)
    requires id < h.nextId && (s, taskId) in h.pending && h.pending[(s, taskId)] == id
    requires Armed(ScheduleAll(h, sessions), id, s, taskId)
    ensures var h' := ScheduleAll(h, sessions); (s, taskId) in h'.pending && h'.pending[(s, taskId)] == id
    decreases |sessions|
  {
    if sessions != [] {
      var h1 := ScheduleDelayedCancellation(h, sessions[0]);
      if sessions[0] in h.tasks && (sessions[0], h.tasks[sessions[0]].taskId) == (s, taskId) {
        assert id in h1.timers ==> h1.timers[id].interrupted;
        InterruptedStays(h1, sessions[1..], id);
      } else {
        ScheduleAllKeepsEntry(h1, sessions[1..], id, s, taskId);
      }
    }
  }

  lemma {:induction false} InterruptedStays(h: Hub, sessions: seq<string>, id: nat)
    requires id < h.nextId && (id in h.timers ==> h.timers[id].interrupted)
    ensures var h' := ScheduleAll(h, sessions); id in h'.timers ==> h'.timers[id].interrupted
    decreases |sessions|
  {
    if sessions != [] { InterruptedStays(ScheduleDelayedCancellation(h, sessions[0]), sessions[1..], id); }
  }

  lemma {:induction false} LateFinally(h: Hub, id: nat, s: string, b: string)
    requires Inv(h) && s in h.tasks && h.sessionConnections == map[s := {b}] && h.pending == map[]
    requires h.timers == map[id := Timer(s, h.tasks[s].taskId, true, true)]
    ensures var h' := Disconnect(h, b, [s]);
            && Runs(h', [TimerOp(id)] + [])
            && Armed(After(h', [TimerOp(id)] + []), h.nextId, s, h.tasks[s].taskId)
            && After(h', [TimerOp(id)] + []).pending == map[]
  {
    OnlyConnectionLeaves(h, s, b);
    RunsCons(Disconnect(h, b, [s]), TimerOp(id), []);
  }
}
