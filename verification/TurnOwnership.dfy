/** How turns take and give back the session's cancellation token.

    SSE turns (backend/api/chat/stream.py) and manual tool runs (backend/ws/events.py) use
    `acquire_cancel_token` and clean up only a token they created; WebSocket message turns use
    `get_cancel_token` and always clean up the token they got.  Turns of all kinds interleave with
    every other step of the session protocol. */
module TurnOwnership {
  import opened Common
  import opened SessionProtocol
  import opened SessionHub

  /** `alwaysCleans` marks a WebSocket message turn. */
  datatype Turn = Turn(session: string, token: nat, created: bool, alwaysCleans: bool)

  datatype System = System(hub: Hub, turns: map<nat, Turn>)

  datatype TurnOp =
    | Environment(op: Op)
    | Begin(turn: nat, s: string, alwaysCleans: bool)
    | End(turn: nat)
    | Interrupt(turn: nat)    // the task of an SSE turn is cancelled

  const START := System(INIT, map[])

  predicate OwnsExisting(h: Hub, s: string) {
    s in h.tokens && h.tokens[s] !in h.cancelled
  }

  function BeginTurn(x: System, id: nat, s: string, alwaysCleans: bool): System {
    var h := GetCancelToken(x.hub, s);
    assert s in h.tokens;
    System(h, x.turns[id := Turn(s, h.tokens[s], !OwnsExisting(x.hub, s), alwaysCleans)])
  }

  predicate CleansUp(t: Turn) {
    t.created || t.alwaysCleans
  }

  function EndTurn(x: System, id: nat): System
    requires id in x.turns
  {
    var t := x.turns[id];
    System(if CleansUp(t) then Cleanup(x.hub, t.session, Some(t.token)) else x.hub, x.turns - {id})
  }

  /** The generator's `except asyncio.CancelledError` cancels the token, whoever created it, and its
      `finally` runs before anything else does. */
  function InterruptTurn(x: System, id: nat): System
    requires id in x.turns
  {
    EndTurn(x.(hub := x.hub.(cancelled := x.hub.cancelled + {x.turns[id].token})), id)
  }

  /** Outside the turns nobody takes or cleans up a token. */
  ghost predicate EnabledTurn(x: System, op: TurnOp) {
    match op
    case Environment(e) => Enabled(x.hub, e) && !e.GetTokenOp? && !e.CleanupOp?
    case Begin(id, _, _) => id !in x.turns
    case End(id) => id in x.turns
    case Interrupt(id) => id in x.turns && !x.turns[id].alwaysCleans
  }

  /** The step ends a turn, and that turn cleans up the token. */
  predicate CleansAway(x: System, op: TurnOp, token: nat) {
    (op.End? || op.Interrupt?) && op.turn in x.turns && CleansUp(x.turns[op.turn]) && x.turns[op.turn].token == token
  }

  ghost function TurnStep(x: System, op: TurnOp): System
    requires EnabledTurn(x, op)
  {
    match op
    case Environment(e) => x.(hub := Step(x.hub, e))
    case Begin(id, s, always) => BeginTurn(x, id, s, always)
    case End(id) => EndTurn(x, id)
    case Interrupt(id) => InterruptTurn(x, id)
  }

  ghost predicate TurnRuns(x: System, ops: seq<TurnOp>)
    decreases |ops|
  {
    ops == [] || (EnabledTurn(x, ops[0]) && TurnRuns(TurnStep(x, ops[0]), ops[1..]))
  }

  ghost function AfterTurns(x: System, ops: seq<TurnOp>): System
    requires TurnRuns(x, ops)
    decreases |ops|
  {
    if ops == [] then x else AfterTurns(TurnStep(x, ops[0]), ops[1..])
  }

  // ---------- ownership ----------

  /** t created its token, cleans up only such a token, and nobody has cancelled it. */
  predicate LiveOwner(h: Hub, t: Turn) {
    t.created && !t.alwaysCleans && t.token !in h.cancelled
  }

  ghost predicate Holds(h: Hub, s: string, token: nat) {
    s in h.tokens && h.tokens[s] == token
  }

  ghost predicate Registered(h: Hub, t: Turn) {
    Holds(h, t.session, t.token)
  }

  ghost predicate OwnersRegistered(x: System) {
    forall id :: id in x.turns && LiveOwner(x.hub, x.turns[id]) ==> Registered(x.hub, x.turns[id])
  }

  /** Turn `id` shares its token with another turn that owns it and is still running. */
  ghost predicate SharesOwnedToken(x: System, id: nat)
    requires id in x.turns
  {
    exists other :: other in x.turns && other != id
                    && x.turns[other].token == x.turns[id].token && LiveOwner(x.hub, x.turns[other])
  }

  /** Tokens are never shared between sessions, and never created twice. */
  ghost predicate TokensDistinct(x: System) {
    && (forall s, s' :: s in x.hub.tokens && s' in x.hub.tokens && x.hub.tokens[s] == x.hub.tokens[s'] ==> s == s')
    && (forall id :: id in x.turns ==> x.turns[id].token < x.hub.nextId)
    && (forall s, id :: s in x.hub.tokens && id in x.turns && x.hub.tokens[s] == x.turns[id].token
                        ==> x.turns[id].session == s)
    && (forall i, j :: i in x.turns && j in x.turns && i != j && x.turns[i].token == x.turns[j].token
                       ==> x.turns[i].session == x.turns[j].session && !(x.turns[i].created && x.turns[j].created))
  }

  ghost predicate TurnInv(x: System) {
    Inv(x.hub) && TokensDistinct(x)
  }

  lemma {:induction false} EnvironmentFrame(h: Hub, op: Op)
    requires Enabled(h, op) && !op.GetTokenOp? && !op.CleanupOp?
    ensures Step(h, op).tokens == h.tokens && h.cancelled <= Step(h, op).cancelled && h.nextId <= Step(h, op).nextId
  {
    match op
    case CancelSessionOp(_) =>
    case CancelTokenOp(_) =>
    case ConnectOp(_) =>
    case BindOp(c, s) => BindFrame(h, c, s);
    case DisconnectOp(c, order) => DisconnectFrame(h, c, order);
    case TimerOp(id) => TimerFrame(h, id);
  }

  lemma {:induction false} GetTokenFacts(h: Hub, s: string)
    requires Inv(h)
    ensures var h' := GetCancelToken(h, s);
            if OwnsExisting(h, s) then h' == h && h.tokens[s] < h.nextId
            else h'.tokens == h.tokens[s := h.nextId + 1] && h'.cancelled == h.cancelled && h'.nextId == h.nextId + 2
  {
    if !OwnsExisting(h, s) {
      assert (h.tokens - {s})[s := h.nextId + 1] == h.tokens[s := h.nextId + 1];
    }
  }

  lemma {:induction false} BeginFacts(x: System, id: nat, s: string, always: bool)
    requires TurnInv(x) && id !in x.turns
    ensures var x' := BeginTurn(x, id, s, always);
            && x'.hub.tokens == x.hub.tokens[s := x'.turns[id].token]
            && x'.hub.cancelled == x.hub.cancelled && x.hub.nextId <= x'.hub.nextId
            && x'.turns == x.turns[id := x'.turns[id]] && x'.turns[id].session == s
            && x'.turns[id].token < x'.hub.nextId
            && (if x'.turns[id].created
                then x.hub.nextId <= x'.turns[id].token && (s in x.hub.tokens ==> x.hub.tokens[s] in x.hub.cancelled)
                else s in x.hub.tokens && x.hub.tokens[s] == x'.turns[id].token)
  {
    GetTokenFacts(x.hub, s);
    if OwnsExisting(x.hub, s) { assert x.hub.tokens[s := x.hub.tokens[s]] == x.hub.tokens; }
  }

  lemma {:induction false} BeginKeepsTurnInv(x: System, id: nat, s: string, always: bool)
    requires TurnInv(x) && id !in x.turns
    ensures TurnInv(BeginTurn(x, id, s, always))
  {
    BeginFacts(x, id, s, always);
    BeginKeepsTokens(x, BeginTurn(x, id, s, always), id, s);
    StepKeepsInv(x.hub, GetTokenOp(s));
  }

  lemma {:induction false} BeginKeepsTokens(x: System, x': System, id: nat, s: string)
    requires TokensDistinct(x) && id !in x.turns && id in x'.turns
    requires forall s' :: s' in x.hub.tokens ==> x.hub.tokens[s'] < x.hub.nextId
    requires x'.hub.tokens == x.hub.tokens[s := x'.turns[id].token] && x.hub.nextId <= x'.hub.nextId
    requires x'.turns == x.turns[id := x'.turns[id]] && x'.turns[id].session == s && x'.turns[id].token < x'.hub.nextId
    requires if x'.turns[id].created then x.hub.nextId <= x'.turns[id].token
             else s in x.hub.tokens && x.hub.tokens[s] == x'.turns[id].token
    ensures TokensDistinct(x')
  {
  }

  lemma {:induction false} StepKeepsTurnInv(x: System, op: TurnOp)
    requires TurnInv(x) && EnabledTurn(x, op)
    ensures TurnInv(TurnStep(x, op))
  {
    match op
    case Environment(e) => StepKeepsInv(x.hub, e); EnvironmentFrame(x.hub, e);
    case Begin(id, s, always) => BeginKeepsTurnInv(x, id, s, always);
    case End(id) => EndKeepsTurnInv(x, id);
    case Interrupt(id) => InterruptKeepsTurnInv(x, id);
  }

  lemma {:induction false} EndKeepsTurnInv(x: System, id: nat)
    requires TurnInv(x) && id in x.turns
    ensures TurnInv(EndTurn(x, id))
  {
    StepKeepsInv(x.hub, CleanupOp(x.turns[id].session, Some(x.turns[id].token)));
  }

  lemma {:induction false} TokenCancelKeeps(x: System, token: nat)
    requires TurnInv(x) && token < x.hub.nextId
    ensures TurnInv(x.(hub := x.hub.(cancelled := x.hub.cancelled + {token})))
  {
    StepKeepsInv(x.hub, CancelTokenOp(token));
    assert Step(x.hub, CancelTokenOp(token)) == x.hub.(cancelled := x.hub.cancelled + {token});
  }

  lemma {:induction false} InterruptKeepsTurnInv(x: System, id: nat)
    requires TurnInv(x) && id in x.turns
    ensures TurnInv(InterruptTurn(x, id))
  {
    TokenCancelKeeps(x, x.turns[id].token);
    EndKeepsTurnInv(x.(hub := x.hub.(cancelled := x.hub.cancelled + {x.turns[id].token})), id);
  }

  /** An interrupted turn leaves every live owner registered: it cleans up only what it created. */
  lemma {:induction false} InterruptKeepsOwners(x: System, id: nat)
    requires TurnInv(x) && OwnersRegistered(x) && id in x.turns && !x.turns[id].alwaysCleans
    ensures OwnersRegistered(InterruptTurn(x, id))
  {
    var y := x.(hub := x.hub.(cancelled := x.hub.cancelled + {x.turns[id].token}));
    TokenCancelKeeps(x, x.turns[id].token);
    assert OwnersRegistered(y);
    EndKeepsOwnersIff(y, id);
  }

  /** Whom the interruption of an SSE turn hits, apart from itself: exactly the running turns that share
      its token, whoever created it, and these are turns of its own session. */
  lemma {:induction false} InterruptHitsIff(x: System, id: nat, other: nat)
    requires TurnInv(x) && EnabledTurn(x, Interrupt(id)) && other in x.turns && other != id
    requires x.turns[other].token !in x.hub.cancelled
    ensures var x' := TurnStep(x, Interrupt(id));
            && other in x'.turns
            && (x'.turns[other].token in x'.hub.cancelled <==> x.turns[other].token == x.turns[id].token)
            && (x.turns[other].token == x.turns[id].token ==> x.turns[other].session == x.turns[id].session)
  {
  }

  lemma {:induction false} BeginKeepsOwners(x: System, id: nat, s: string, always: bool)
    requires TurnInv(x) && OwnersRegistered(x) && id !in x.turns
    ensures OwnersRegistered(BeginTurn(x, id, s, always))
  {
    BeginFacts(x, id, s, always);
  }

  /** Exactly when an ending turn leaves every live owner registered: unless it is a WebSocket
      message turn cleaning up a token that another turn still owns. */
  lemma {:induction false} EndKeepsOwnersIff(x: System, id: nat)
    requires TurnInv(x) && OwnersRegistered(x) && id in x.turns
    ensures OwnersRegistered(EndTurn(x, id)) <==> !(x.turns[id].alwaysCleans && SharesOwnedToken(x, id))
  {
    var t := x.turns[id];
    if t.alwaysCleans && SharesOwnedToken(x, id) {
      var other :| other in x.turns && other != id && x.turns[other].token == t.token
                   && LiveOwner(x.hub, x.turns[other]);
      assert Registered(x.hub, x.turns[other]);
      assert other in EndTurn(x, id).turns && !Registered(EndTurn(x, id).hub, x.turns[other]);
    }
  }

  /** What an ending turn may remove: only its own token, and a borrower nothing. */
  lemma {:induction false} EndRemovesOnlyItsToken(x: System, id: nat, s: string)
    requires id in x.turns && s in x.hub.tokens
    ensures var x' := EndTurn(x, id); var t := x.turns[id];
            s in x'.hub.tokens && x'.hub.tokens[s] == x.hub.tokens[s]
            <==> !(s == t.session && x.hub.tokens[s] == t.token && CleansUp(t))
  {
  }

  // ---------- whole runs ----------

  /** No WebSocket message turn of the run ends while another turn owns the token it cleans up. */
  ghost predicate NeverTakesAway(x: System, ops: seq<TurnOp>)
    requires TurnRuns(x, ops)
    decreases |ops|
  {
    ops == [] ||
    (&& (ops[0].End? ==> !(x.turns[ops[0].turn].alwaysCleans && SharesOwnedToken(x, ops[0].turn)))
     && NeverTakesAway(TurnStep(x, ops[0]), ops[1..]))
  }

  ghost predicate NoMessageTurns(x: System, ops: seq<TurnOp>) {
    && (forall id :: id in x.turns ==> !x.turns[id].alwaysCleans)
    && (forall i :: 0 <= i < |ops| && ops[i].Begin? ==> !ops[i].alwaysCleans)
  }

  lemma {:induction false} RunKeepsOwners(x: System, ops: seq<TurnOp>)
    requires TurnInv(x) && OwnersRegistered(x) && TurnRuns(x, ops)
    requires NeverTakesAway(x, ops)
    ensures TurnInv(AfterTurns(x, ops)) && OwnersRegistered(AfterTurns(x, ops))
    decreases |ops|
  {
    if ops != [] {
      StepKeepsTurnInv(x, ops[0]);
      match ops[0] {
        case Environment(e) => EnvironmentFrame(x.hub, e);
        case Begin(id, s, always) => BeginKeepsOwners(x, id, s, always);
        case End(id) => EndKeepsOwnersIff(x, id);
        case Interrupt(id) => InterruptKeepsOwners(x, id);
      }
      RunKeepsOwners(TurnStep(x, ops[0]), ops[1..]);
    }
  }

  /** Live owners are registered now and after every step of the run. */
  ghost predicate OwnersAlwaysRegistered(x: System, ops: seq<TurnOp>)
    requires TurnRuns(x, ops)
    decreases |ops|
  {
    OwnersRegistered(x) && (ops == [] || OwnersAlwaysRegistered(TurnStep(x, ops[0]), ops[1..]))
  }

  /** A run keeps its owners registered all along exactly when no message turn takes an owned token away. */
  lemma {:induction false} RunKeepsOwnersIff(x: System, ops: seq<TurnOp>)
    requires TurnInv(x) && OwnersRegistered(x) && TurnRuns(x, ops)
    ensures OwnersAlwaysRegistered(x, ops) <==> NeverTakesAway(x, ops)
    decreases |ops|
  {
    if ops != [] {
      StepKeepsTurnInv(x, ops[0]);
      match ops[0] {
        case Environment(e) => EnvironmentFrame(x.hub, e);
        case Begin(id, s, always) => BeginKeepsOwners(x, id, s, always);
        case End(id) => EndKeepsOwnersIff(x, id);
        case Interrupt(id) => InterruptKeepsOwners(x, id);
      }
      if OwnersRegistered(TurnStep(x, ops[0])) {
        RunKeepsOwnersIff(TurnStep(x, ops[0]), ops[1..]);
      }
    }
  }

  lemma {:induction false} WithoutMessageTurns(x: System, ops: seq<TurnOp>)
    requires TurnRuns(x, ops) && NoMessageTurns(x, ops)
    ensures NeverTakesAway(x, ops)
    decreases |ops|
  {
    if ops != [] {
      var x1 := TurnStep(x, ops[0]);
      assert forall id :: id in x1.turns && !(ops[0].Begin? && id == ops[0].turn) ==> x1.turns[id] == x.turns[id];
      WithoutMessageTurns(x1, ops[1..]);
    }
  }

  /** Token ownership over every interleaving in which no message turn cleans up a token another
      turn owns: each running owner whose token is not cancelled is the one registered, so
      `cancel_session` reaches it, and a session has at most one. */
  lemma {:induction false} OwnersReachableOnRuns(ops: seq<TurnOp>, id: nat, other: nat)
    requires TurnRuns(START, ops) && NeverTakesAway(START, ops)
    requires id in AfterTurns(START, ops).turns
    requires LiveOwner(AfterTurns(START, ops).hub, AfterTurns(START, ops).turns[id])
    ensures var x := AfterTurns(START, ops); var t := x.turns[id];
            && Registered(x.hub, t)
            && CancelSession(x.hub, t.session).cancelled == x.hub.cancelled + {t.token}
            && (other in x.turns && LiveOwner(x.hub, x.turns[other]) && x.turns[other].session == t.session
                ==> other == id)
  {
    InitInv();
    RunKeepsOwners(START, ops);
  }

  /** In particular with SSE turns and manual tool runs alone: those of them that created their token
      stay within reach of a stop, one per session.  Those that borrowed it need not: see below. */
  lemma {:induction false} AcquiringOwnersReachable(ops: seq<TurnOp>, id: nat, other: nat)
    requires TurnRuns(START, ops) && NoMessageTurns(START, ops)
    requires id in AfterTurns(START, ops).turns
    requires LiveOwner(AfterTurns(START, ops).hub, AfterTurns(START, ops).turns[id])
    ensures var x := AfterTurns(START, ops); var t := x.turns[id];
            && Registered(x.hub, t)
            && CancelSession(x.hub, t.session).cancelled == x.hub.cancelled + {t.token}
            && (other in x.turns && LiveOwner(x.hub, x.turns[other]) && x.turns[other].session == t.session
                ==> other == id)
  {
    WithoutMessageTurns(START, ops);
    OwnersReachableOnRuns(ops, id, other);
  }

  // ---------- every kind of turn ----------

  /** Some turn with that token ends during the run and cleans it up. */
  ghost predicate SomeoneCleans(x: System, ops: seq<TurnOp>, token: nat)
    requires TurnRuns(x, ops)
    decreases |ops|
  {
    ops != [] &&
    (|| CleansAway(x, ops[0], token)
     || SomeoneCleans(TurnStep(x, ops[0]), ops[1..], token))
  }

  /** A token once out of the registry never comes back. */
  lemma {:induction false} GoneTokenStaysGone(x: System, ops: seq<TurnOp>, s: string, token: nat)
    requires TurnInv(x) && TurnRuns(x, ops) && token < x.hub.nextId && !Holds(x.hub, s, token)
    ensures !Holds(AfterTurns(x, ops).hub, s, token)
    decreases |ops|
  {
    if ops != [] {
      StepKeepsTurnInv(x, ops[0]);
      StepBringsNothingBack(x, ops[0], s, token);
      GoneTokenStaysGone(TurnStep(x, ops[0]), ops[1..], s, token);
    }
  }

  lemma {:induction false} StepBringsNothingBack(x: System, op: TurnOp, s: string, token: nat)
    requires TurnInv(x) && EnabledTurn(x, op) && token < x.hub.nextId && !Holds(x.hub, s, token)
    ensures !Holds(TurnStep(x, op).hub, s, token) && token < TurnStep(x, op).hub.nextId
  {
    match op
    case Environment(e) => EnvironmentFrame(x.hub, e);
    case Begin(id, s', always) => BeginFacts(x, id, s', always);
    case End(id) =>
    case Interrupt(id) =>
  }

  lemma {:induction false} CancelledStays(x: System, ops: seq<TurnOp>, token: nat)
    requires TurnInv(x) && TurnRuns(x, ops) && token in x.hub.cancelled
    ensures token in AfterTurns(x, ops).hub.cancelled
    decreases |ops|
  {
    if ops != [] {
      StepKeepsTurnInv(x, ops[0]);
      match ops[0] {
        case Environment(e) => EnvironmentFrame(x.hub, e);
        case Begin(id, s, always) => BeginFacts(x, id, s, always);
        case End(id) =>
        case Interrupt(id) =>
      }
      CancelledStays(TurnStep(x, ops[0]), ops[1..], token);
    }
  }

  /** What one step does to a registered token that nobody has cancelled. */
  lemma {:induction false} StepTakesAwayIff(x: System, op: TurnOp, s: string, token: nat)
    requires TurnInv(x) && EnabledTurn(x, op) && Holds(x.hub, s, token) && token !in x.hub.cancelled
    ensures Holds(TurnStep(x, op).hub, s, token) <==> !CleansAway(x, op, token)
    ensures token < TurnStep(x, op).hub.nextId
  {
    match op
    case Environment(e) => EnvironmentFrame(x.hub, e);
    case Begin(id, s', always) => BeginFacts(x, id, s', always);
    case End(id) => EndRemovesOnlyItsToken(x, id, s);
    case Interrupt(id) => InterruptTakesAwayIff(x, id, s, token);
  }

  lemma {:induction false} InterruptTakesAwayIff(x: System, id: nat, s: string, token: nat)
    requires TurnInv(x) && id in x.turns && Holds(x.hub, s, token)
    ensures Holds(InterruptTurn(x, id).hub, s, token) <==> !CleansAway(x, Interrupt(id), token)
    ensures InterruptTurn(x, id).hub.nextId == x.hub.nextId
  {
    var y := x.(hub := x.hub.(cancelled := x.hub.cancelled + {x.turns[id].token}));
    EndRemovesOnlyItsToken(y, id, s);
  }

  lemma {:induction false} RegisteredIff(x: System, ops: seq<TurnOp>, s: string, token: nat)
    requires TurnInv(x) && TurnRuns(x, ops) && Holds(x.hub, s, token)
    requires token !in AfterTurns(x, ops).hub.cancelled
    ensures Holds(AfterTurns(x, ops).hub, s, token) <==> !SomeoneCleans(x, ops, token)
    decreases |ops|
  {
    if token in x.hub.cancelled { CancelledStays(x, ops, token); }
    if ops != [] {
      var x1 := TurnStep(x, ops[0]);
      StepKeepsTurnInv(x, ops[0]);
      StepTakesAwayIff(x, ops[0], s, token);
      if Holds(x1.hub, s, token) {
        RegisteredIff(x1, ops[1..], s, token);
      } else {
        GoneTokenStaysGone(x1, ops[1..], s, token);
      }
    }
  }

  /** Who is within reach of a stop, for turns of every kind: a turn begins after any run `before`;
      whatever follows, as long as nobody cancels its token, the token is the registered one, and
      stopping the session cancels it, if and only if no turn that shares it and cleans up has ended
      since. */
  lemma {:induction false} TurnReachableIff(before: seq<TurnOp>, id: nat, s: string, always: bool, rest: seq<TurnOp>)
    requires TurnRuns(START, before) && id !in AfterTurns(START, before).turns
    requires TurnRuns(BeginTurn(AfterTurns(START, before), id, s, always), rest)
    requires var x := BeginTurn(AfterTurns(START, before), id, s, always);
             x.turns[id].token !in AfterTurns(x, rest).hub.cancelled
    ensures var x := BeginTurn(AfterTurns(START, before), id, s, always);
            var t, end := x.turns[id], AfterTurns(x, rest);
            && (Registered(end.hub, t) <==> !SomeoneCleans(x, rest, t.token))
            && (t.token in CancelSession(end.hub, s).cancelled <==> !SomeoneCleans(x, rest, t.token))
  {
    InitInv();
    RunKeepsTurnInv(START, before);
    var x0 := AfterTurns(START, before);
    var x := BeginTurn(x0, id, s, always);
    BeginKeepsTurnInv(x0, id, s, always);
    BeginFacts(x0, id, s, always);
    RegisteredIff(x, rest, s, x.turns[id].token);
  }

  lemma {:induction false} RunKeepsTurnInv(x: System, ops: seq<TurnOp>)
    requires TurnInv(x) && TurnRuns(x, ops)
    ensures TurnInv(AfterTurns(x, ops))
    decreases |ops|
  {
    if ops != [] {
      StepKeepsTurnInv(x, ops[0]);
      RunKeepsTurnInv(TurnStep(x, ops[0]), ops[1..]);
    }
  }

  /** An SSE turn that borrowed its token, as the second request queued at the gate does, loses it
      when the turn that created it ends: no message turn is needed for a stop to miss it. */
  lemma {:induction false} BorrowerLosesToken(s: string)
    ensures var ops := [Begin(0, s, false)] + ([Begin(1, s, false)] + ([End(0)] + []));
            && TurnRuns(START, ops) && NoMessageTurns(START, ops)
            && (var x := AfterTurns(START, ops);
                && 1 in x.turns && x.turns[1].session == s && x.turns[1].token !in x.hub.cancelled
                && CancelSession(x.hub, s) == x.hub)
  {
    var x1 := TurnStep(START, Begin(0, s, false));
    var x2 := TurnStep(x1, Begin(1, s, false));
    assert x2.turns[1].token == x1.turns[0].token;
    TurnRunsCons(x2, End(0), []);
    TurnRunsCons(x1, Begin(1, s, false), [End(0)] + []);
    TurnRunsCons(START, Begin(0, s, false), [Begin(1, s, false)] + ([End(0)] + []));
  }

  /** An SSE turn whose client goes away while it waits at the gate cancels the turn in front of it, whose
      token it borrowed. */
  lemma {:induction false} BorrowerCancelsOwner(s: string)
    ensures var ops := [Begin(0, s, false)] + ([Begin(1, s, false)] + ([Interrupt(1)] + []));
            && TurnRuns(START, ops)
            && (var x := AfterTurns(START, ops);
                && x.turns.Keys == {0} && x.turns[0].created && x.turns[0].token in x.hub.cancelled)
  {
    var x1 := TurnStep(START, Begin(0, s, false));
    var x2 := TurnStep(x1, Begin(1, s, false));
    assert x2.turns[1].token == x1.turns[0].token;
    TurnRunsCons(x2, Interrupt(1), []);
    TurnRunsCons(x1, Begin(1, s, false), [Interrupt(1)] + []);
    TurnRunsCons(START, Begin(0, s, false), [Begin(1, s, false)] + ([Interrupt(1)] + []));
  }

  lemma {:induction false} TurnRunsCons(x: System, op: TurnOp, rest: seq<TurnOp>)
    requires EnabledTurn(x, op) && TurnRuns(TurnStep(x, op), rest)
    ensures TurnRuns(x, [op] + rest) && AfterTurns(x, [op] + rest) == AfterTurns(TurnStep(x, op), rest)
  {
    assert ([op] + rest)[1..] == rest;
  }

  /** The failing family is real: whatever the first turn is, a message turn that starts and ends
      while it runs leaves it without a registration, and stopping the session cancels nothing. */
  lemma {:induction false} MessageTurnTakesTokenAway(s: string, always: bool)
    ensures var ops := [Begin(0, s, always)] + ([Begin(1, s, true)] + ([End(1)] + []));
            && TurnRuns(START, ops)
            && (var x := AfterTurns(START, ops);
                && 0 in x.turns && x.turns[0].session == s && x.turns[0].created && x.turns[0].token !in x.hub.cancelled
                && CancelSession(x.hub, s) == x.hub)
  {
    var x1 := TurnStep(START, Begin(0, s, always));
    var x2 := TurnStep(x1, Begin(1, s, true));
    var x3 := TurnStep(x2, End(1));
    assert x2.turns[1].token == x1.turns[0].token;
    TurnRunsCons(x2, End(1), []);
    TurnRunsCons(x1, Begin(1, s, true), [End(1)] + []);
    TurnRunsCons(START, Begin(0, s, always), [Begin(1, s, true)] + ([End(1)] + []));
  }

  // ---------- the turns' own bookkeeping ----------

  /** The turns in progress: for each one what its coroutine keeps in `cancel_token` and
      `token_created` until its `finally`. */
  class TurnDesk {
    const hub: ConnectionHub
    var turns: map<nat, Turn>

    constructor (hub: ConnectionHub)
      ensures this.hub == hub && turns == map[]
    {
      this.hub := hub;
      turns := map[];
    }

    ghost function View(): System
      reads this, hub
    {
      System(hub.View(), turns)
    }

    /** The opening of `event_stream` and `handle_tool_execution`. */
    method BeginAcquiring(id: nat, s: string) returns (token: nat)
      requires TurnInv(View()) && EnabledTurn(View(), Begin(id, s, false))
      modifies this, hub
      ensures View() == TurnStep(old(View()), Begin(id, s, false))
      ensures id in turns && token == turns[id].token
    {
      var created;
      token, created := hub.AcquireCancelToken(s);
      turns := turns[id := Turn(s, token, created, false)];
    }

    /** The opening of `handle_message_event`. */
    method BeginMessage(id: nat, s: string) returns (token: nat)
      requires TurnInv(View()) && EnabledTurn(View(), Begin(id, s, true))
      modifies this, hub
      ensures View() == TurnStep(old(View()), Begin(id, s, true))
      ensures id in turns && token == turns[id].token
    {
      var existing := s in hub.sessionCancelTokens && hub.sessionCancelTokens[s] !in hub.cancelledTokens;
      token := hub.GetCancelToken(s);
      turns := turns[id := Turn(s, token, !existing, true)];
    }

    /** Their `finally` blocks. */
    method EndTurn(id: nat)
      requires EnabledTurn(View(), End(id))
      modifies this, hub
      ensures View() == TurnStep(old(View()), End(id))
    {
      var t := turns[id];
      if t.alwaysCleans || t.created {
        hub.CleanupCancelToken(t.session, Some(t.token));
      }
      turns := turns - {id};
    }

    /** `except asyncio.CancelledError` of `event_stream`, and its `finally`. */
    method InterruptTurn(id: nat)
      requires EnabledTurn(View(), Interrupt(id))
      modifies this, hub
      ensures View() == TurnStep(old(View()), Interrupt(id))
    {
      hub.cancelledTokens := hub.cancelledTokens + {turns[id].token};
      EndTurn(id);
    }
  }
}
