/** The SSE generator `event_stream` of backend/api/chat/stream.py.

    A `Script` says what the environment does: whether the gate is obtained, what the agent or the
    workflow produces and how it ends, how saving the answer ends, and after which event the consumer
    goes away.  Wherever the generator suspends its task may be cancelled: waiting for the gate, in the
    agent loop, in the workflow call, in the pause after a team's event, and from the pause after a
    repeated reasoning-only answer to the end of saving. */
module EventStream {
  import opened Text

  datatype Production = Reasoning(text: string) | Content(text: string)

  datatype Ending = Finished | Raised(error: string) | Cancelled

  datatype WorkflowOutcome = Succeeded | InProgress | Rejected | FailedState | UnknownOutcome

  /** How the answer is made: by the agent loop, by a fixed team text, or by running the workflow.
      `cancelled`: the task is cancelled in the pause after the event. */
  datatype Path =
    | Agent(productions: seq<Production>, ending: Ending)
    | TeamText(content: string, cancelled: bool)
    | Workflow(outcome: WorkflowOutcome, displayText: string, cancelled: bool)
    | TeamRaises(error: string)
    | TeamCancelled

  datatype Saving = Saved | SavingRaises(error: string) | SavingCancelled

  /** `stopAfter`: the consumer closes the stream at the yield of that event, 0 for never. */
  datatype Script = Script(gateObtained: bool, path: Path, saving: Saving, stopAfter: nat)

  datatype Event =
    | Start
    | ReasoningEvent(content: string)
    | MessageEvent(content: string)
    | ToolProgress(content: string)
    | ErrorEvent(error: string)
    | Done(saved: bool)

  const UNKNOWN_PREFIX := "Tool outcome is unknown; side effects may have occurred. "

  // ---------- what the consumer should see ----------

  /** Every production in order; empty reasoning is dropped. */
  function Visible(ps: seq<Production>): seq<Event> {
    if ps == [] then [] else VisibleOne(ps[0]) + Visible(ps[1..])
  }

  function VisibleOne(p: Production): seq<Event> {
    match p
    case Reasoning(t) => if t == "" then [] else [ReasoningEvent(t)]
    case Content(t) => [MessageEvent(t)]
  }

  /** The productions up to the last content chunk. */
  function UpToLastContent(ps: seq<Production>): seq<Production> {
    if ps == [] then []
    else if ps[|ps| - 1].Content? then ps
    else UpToLastContent(ps[..|ps| - 1])
  }

  function Contents(ps: seq<Production>): string {
    if ps == [] then "" else ContentOf(ps[0]) + Contents(ps[1..])
  }

  function Reasonings(ps: seq<Production>): string {
    if ps == [] then "" else ReasoningOf(ps[0]) + Reasonings(ps[1..])
  }

  function ContentOf(p: Production): string { if p.Content? then p.text else "" }

  function ReasoningOf(p: Production): string { if p.Reasoning? then p.text else "" }

  /** The end of a stream that got through: a reasoning-only answer is sent as the message, then
      the answer is saved, then `done` unless a direct workflow did not succeed. */
  function Closing(content: string, reasoning: string, nonSuccess: bool, saving: Saving): seq<Event> {
    if Blank(content, reasoning) then DoneUnless(nonSuccess, false)
    else
      Repeated(content, reasoning)
      + match saving
        case Saved => DoneUnless(nonSuccess, true)
        case SavingRaises(error) => [ErrorEvent(error)]
        case SavingCancelled => []
  }

  function DoneUnless(nonSuccess: bool, saved: bool): seq<Event> {
    if nonSuccess then [] else [Done(saved)]
  }

  /** There is nothing to save. */
  predicate Blank(content: string, reasoning: string) {
    Strip(content) == "" && Strip(reasoning) == ""
  }

  /** A reasoning-only answer once more, as the message. */
  function Repeated(content: string, reasoning: string): seq<Event> {
    if Strip(content) == "" && Strip(reasoning) != "" then [MessageEvent(Strip(reasoning))] else []
  }

  function Shown(outcome: WorkflowOutcome, text: string): string {
    if outcome.UnknownOutcome? then UNKNOWN_PREFIX + text else text
  }

  function WorkflowEvents(outcome: WorkflowOutcome, text: string): seq<Event> {
    match outcome
    case Succeeded => [MessageEvent(text)]
    case InProgress => [ToolProgress(text)]
    case _ => [ErrorEvent(Shown(outcome, text))]
  }

  /** The whole stream, if the consumer stays. */
  function FullTrace(s: Script): seq<Event> {
    if !s.gateObtained then []
    else
      [Start] +
      match s.path
      case Agent(ps, Finished) => Visible(ps) + Closing(Contents(ps), Reasonings(ps), false, s.saving)
      case Agent(ps, Raised(error)) => Visible(UpToLastContent(ps)) + [ErrorEvent(error)]
      case Agent(ps, Cancelled) => Visible(UpToLastContent(ps))
      case TeamText(content, cancelled) =>
        [MessageEvent(content)] + if cancelled then [] else Closing(content, "", false, s.saving)
      case Workflow(outcome, text, cancelled) =>
        WorkflowEvents(outcome, text)
        + if cancelled then [] else Closing(Shown(outcome, text), "", !outcome.Succeeded?, s.saving)
      case TeamRaises(error) => [ErrorEvent(error)]
      case TeamCancelled => []
  }

  predicate SaveIsCancelled(content: string, reasoning: string, saving: Saving) {
    saving.SavingCancelled? && !Blank(content, reasoning)
  }

  /** The stream ends by the cancellation of its task, if the consumer stays. */
  predicate EndsCancelled(s: Script) {
    !s.gateObtained ||
    match s.path
    case Agent(ps, ending) =>
      ending.Cancelled? || (ending.Finished? && SaveIsCancelled(Contents(ps), Reasonings(ps), s.saving))
    case TeamText(content, cancelled) => cancelled || SaveIsCancelled(content, "", s.saving)
    case Workflow(outcome, text, cancelled) => cancelled || SaveIsCancelled(Shown(outcome, text), "", s.saving)
    case TeamRaises(_) => false
    case TeamCancelled => true
  }

  function Cut(t: seq<Event>, k: nat): seq<Event> {
    if 0 < k <= |t| then t[..k] else t
  }

  // ---------- properties of the whole stream ----------

  ghost predicate EndsProperly(t: seq<Event>) {
    && (forall i :: 0 <= i < |t| && t[i].Done? ==> i == |t| - 1)
    && (forall i, j :: 0 <= i < |t| && 0 <= j < |t| && t[i].Done? ==> !t[j].ErrorEvent? && !t[j].ToolProgress?)
    && (forall i :: 0 <= i < |t| && t[i].Start? ==> i == 0)
  }

  ghost predicate OnlyText(t: seq<Event>) {
    forall i :: 0 <= i < |t| ==> t[i].ReasoningEvent? || t[i].MessageEvent?
  }

  lemma {:induction false} VisibleIsText(ps: seq<Production>)
    ensures OnlyText(Visible(ps))
    decreases |ps|
  {
    if ps != [] { VisibleIsText(ps[1..]); }
  }

  lemma {:induction false} TextThenTail(body: seq<Event>, tail: seq<Event>)
    requires OnlyText(body) && EndsProperly(tail) && (tail != [] ==> !tail[0].Start?)
    ensures EndsProperly([Start] + body + tail)
  {
    var t := [Start] + body + tail;
    forall i | 0 <= i < |t|
      ensures t[i] == if i == 0 then Start else if i <= |body| then body[i - 1] else tail[i - 1 - |body|]
    {}
  }

  /** The stream after its text: at most four events, and `done` only on its own at the end. */
  lemma {:induction false} ClosingEnds(content: string, reasoning: string, nonSuccess: bool, saving: Saving)
    ensures var t := Closing(content, reasoning, nonSuccess, saving);
            && EndsProperly(t) && (t != [] ==> !t[0].Start?)
            && (nonSuccess ==> forall i :: 0 <= i < |t| ==> t[i].MessageEvent? || t[i].ErrorEvent?)
  {
  }

  lemma {:induction false} FullTraceEnds(s: Script)
    ensures EndsProperly(FullTrace(s))
  {
    if s.gateObtained {
      match s.path {
        case Agent(_, _) => AgentEnds(s);
        case TeamText(_, _) => TeamTextEnds(s);
        case Workflow(_, _, _) => WorkflowEnds(s);
        case TeamRaises(_) =>
        case TeamCancelled =>
      }
    }
  }

  lemma {:induction false} AgentEnds(s: Script)
    requires s.gateObtained && s.path.Agent?
    ensures EndsProperly(FullTrace(s))
  {
    VisibleIsText(AgentSeen(s));
    AgentTailEnds(s);
    TextThenTail(Visible(AgentSeen(s)), AgentTail(s));
    AgentParts(s);
  }

  /** The productions an agent stream sends, and the events after them. */
  function AgentSeen(s: Script): seq<Production>
    requires s.path.Agent?
  {
    if s.path.ending.Finished? then s.path.productions else UpToLastContent(s.path.productions)
  }

  function AgentTail(s: Script): seq<Event>
    requires s.path.Agent?
  {
    match s.path.ending
    case Finished => Closing(Contents(s.path.productions), Reasonings(s.path.productions), false, s.saving)
    case Raised(error) => [ErrorEvent(error)]
    case Cancelled => []
  }

  lemma {:induction false} AgentParts(s: Script)
    requires s.gateObtained && s.path.Agent?
    ensures FullTrace(s) == [Start] + Visible(AgentSeen(s)) + AgentTail(s)
  {
    AgentTrace(s);
    var t := [Start] + Visible(AgentSeen(s));
    assert t + [] == t;
  }

  lemma {:induction false} AgentTailEnds(s: Script)
    requires s.path.Agent?
    ensures EndsProperly(AgentTail(s)) && (AgentTail(s) != [] ==> !AgentTail(s)[0].Start?)
  {
    if s.path.ending.Finished? {
      ClosingEnds(Contents(s.path.productions), Reasonings(s.path.productions), false, s.saving);
    }
  }

  lemma {:induction false} TeamTextEnds(s: Script)
    requires s.gateObtained && s.path.TeamText?
    ensures EndsProperly(FullTrace(s))
  {
    var tail := if s.path.cancelled then [] else Closing(s.path.content, "", false, s.saving);
    ClosingEnds(s.path.content, "", false, s.saving);
    TextThenTail([MessageEvent(s.path.content)], tail);
    TeamTrace(s);
  }

  lemma {:induction false} WorkflowEnds(s: Script)
    requires s.gateObtained && s.path.Workflow?
    ensures EndsProperly(FullTrace(s))
  {
    var o, text := s.path.outcome, s.path.displayText;
    var closing := if s.path.cancelled then [] else Closing(Shown(o, text), "", !o.Succeeded?, s.saving);
    ClosingEnds(Shown(o, text), "", !o.Succeeded?, s.saving);
    TeamTrace(s);
    if o.Succeeded? {
      TextThenTail([MessageEvent(text)], closing);
    } else {
      NoDoneEnds(WorkflowEvents(o, text)[0], closing);
    }
  }

  lemma {:induction false} NoDoneEnds(e: Event, tail: seq<Event>)
    requires e.ToolProgress? || e.ErrorEvent?
    requires forall i :: 0 <= i < |tail| ==> tail[i].MessageEvent? || tail[i].ErrorEvent?
    ensures EndsProperly([Start] + [e] + tail)
  {
    var t := [Start] + [e] + tail;
    forall i | 0 <= i < |t| ensures t[i] == if i == 0 then Start else if i == 1 then e else tail[i - 2] {}
  }

  /** `done` occurs at most once and is last, and a stream with an error or tool-progress event has
      none; this holds for what is left of the stream when the consumer leaves early, too. */
  lemma {:induction false} DoneIsLast(s: Script)
    ensures EndsProperly(Cut(FullTrace(s), s.stopAfter))
  {
    FullTraceEnds(s);
  }

  function MessageText(t: seq<Event>): string {
    if t == [] then "" else (if t[0].MessageEvent? then t[0].content else "") + MessageText(t[1..])
  }

  function ReasoningText(t: seq<Event>): string {
    if t == [] then "" else (if t[0].ReasoningEvent? then t[0].content else "") + ReasoningText(t[1..])
  }

  lemma {:induction false} TextOfCons(p: Production, rest: seq<Event>)
    ensures MessageText(VisibleOne(p) + rest) == ContentOf(p) + MessageText(rest)
    ensures ReasoningText(VisibleOne(p) + rest) == ReasoningOf(p) + ReasoningText(rest)
  {
    if VisibleOne(p) == [] {
      assert VisibleOne(p) + rest == rest;
    } else {
      assert (VisibleOne(p) + rest)[1..] == rest;
    }
  }

  /** No text is lost, repeated or moved between the two kinds. */
  lemma {:induction false} VisibleConservesText(ps: seq<Production>)
    ensures MessageText(Visible(ps)) == Contents(ps) && ReasoningText(Visible(ps)) == Reasonings(ps)
    decreases |ps|
  {
    if ps != [] {
      VisibleConservesText(ps[1..]);
      TextOfCons(ps[0], Visible(ps[1..]));
    }
  }

  lemma {:induction false} VisibleAppend(a: seq<Production>, b: seq<Production>)
    ensures Visible(a + b) == Visible(a) + Visible(b)
    decreases |a|
  {
    if a == [] {
      assert a + b == b;
    } else {
      assert (a + b)[1..] == a[1..] + b;
      VisibleAppend(a[1..], b);
    }
  }

  /** Each production has its event in its place: every content chunk, even an empty one, its message, and
      every reasoning that is not empty its own. */
  lemma {:induction false} EventOfEach(ps: seq<Production>, i: nat)
    requires i < |ps|
    ensures ps[i].Content? ==> Visible(ps) == Visible(ps[..i]) + [MessageEvent(ps[i].text)] + Visible(ps[i + 1..])
    ensures ps[i].Reasoning? && ps[i].text != "" ==>
              Visible(ps) == Visible(ps[..i]) + [ReasoningEvent(ps[i].text)] + Visible(ps[i + 1..])
    ensures ps[i].Reasoning? && ps[i].text == "" ==> Visible(ps) == Visible(ps[..i]) + Visible(ps[i + 1..])
  {
    var rest := ps[i..];
    assert ps == ps[..i] + rest && rest[1..] == ps[i + 1..];
    VisibleAppend(ps[..i], rest);
    Regrouped(Visible(ps[..i]), VisibleOne(rest[0]), Visible(rest[1..]));
  }

  lemma {:induction false} Regrouped(a: seq<Event>, b: seq<Event>, c: seq<Event>)
    ensures a + (b + c) == a + b + c && a + [] + c == a + c
  {
  }

  /** Without the gate nothing is sent, and a consumer that leaves after its k-th event has seen exactly the
      first k events of the stream. */
  lemma {:induction false} ConsumerSees(s: Script)
    ensures var full, seen := FullTrace(s), Cut(FullTrace(s), s.stopAfter);
            && (full == [] <==> !s.gateObtained) && (full != [] ==> full[0] == Start)
            && seen <= full && |seen| == if s.stopAfter == 0 || s.stopAfter > |full| then |full| else s.stopAfter
  {
  }

  lemma {:induction false} Joined(a: string, b: string, c: string)
    ensures a + (b + c) == a + b + c
    ensures "" + a == a == a + ""
  {
  }

  lemma {:induction false} ContentsSnoc(ps: seq<Production>, p: Production)
    ensures Contents(ps + [p]) == Contents(ps) + ContentOf(p)
    decreases |ps|
  {
    Joined(ContentOf(p), "", "");
    if ps == [] {
      assert [] + [p] == [p] && [p][1..] == [];
    } else {
      assert (ps + [p])[1..] == ps[1..] + [p];
      ContentsSnoc(ps[1..], p);
      Joined(ContentOf(ps[0]), Contents(ps[1..]), ContentOf(p));
    }
  }

  lemma {:induction false} ReasoningsSnoc(ps: seq<Production>, p: Production)
    ensures Reasonings(ps + [p]) == Reasonings(ps) + ReasoningOf(p)
    decreases |ps|
  {
    Joined(ReasoningOf(p), "", "");
    if ps == [] {
      assert [] + [p] == [p] && [p][1..] == [];
    } else {
      assert (ps + [p])[1..] == ps[1..] + [p];
      ReasoningsSnoc(ps[1..], p);
      Joined(ReasoningOf(ps[0]), Reasonings(ps[1..]), ReasoningOf(p));
    }
  }

  lemma {:induction false} VisibleSnoc(ps: seq<Production>, i: nat)
    requires i < |ps|
    ensures Visible(ps[..i + 1]) == Visible(ps[..i]) + VisibleOne(ps[i])
    ensures Contents(ps[..i + 1]) == Contents(ps[..i]) + ContentOf(ps[i])
    ensures Reasonings(ps[..i + 1]) == Reasonings(ps[..i]) + ReasoningOf(ps[i])
  {
    assert ps[..i + 1] == ps[..i] + [ps[i]];
    assert [ps[i]][1..] == [];
    VisibleAppend(ps[..i], [ps[i]]);
    ContentsSnoc(ps[..i], ps[i]);
    ReasoningsSnoc(ps[..i], ps[i]);
  }

  lemma {:induction false} VisiblePrefix(ps: seq<Production>, i: nat)
    requires i <= |ps|
    ensures Visible(ps[..i]) <= Visible(ps)
  {
    assert ps == ps[..i] + ps[i..];
    VisibleAppend(ps[..i], ps[i..]);
  }

  /** A content chunk and everything before it is part of every stream. */
  lemma {:induction false} ContentIsKept(ps: seq<Production>, i: nat)
    requires i < |ps| && ps[i].Content?
    ensures Visible(ps[..i + 1]) <= Visible(UpToLastContent(ps))
    decreases |ps|
  {
    if ps[|ps| - 1].Reasoning? {
      var shorter := ps[..|ps| - 1];
      assert shorter[..i + 1] == ps[..i + 1];
      ContentIsKept(shorter, i);
    } else {
      VisiblePrefix(ps, i + 1);
    }
  }

  /** What an agent stream shows.  If the agent breaks off, reasoning after its last content chunk is not
      sent, and an error only if it raised; if it finishes, everything is, the reasoning once more if there
      is no visible content, and then `done` or how the saving failed. */
  lemma {:induction false} AgentShows(ps: seq<Production>, ending: Ending, saving: Saving, k: nat)
    requires k <= |ps| && (k > 0 ==> ps[k - 1].Content?) && forall i :: k <= i < |ps| ==> ps[i].Reasoning?
    ensures var t := FullTrace(Script(true, Agent(ps, ending), saving, 0));
            var content, reasoning := Strip(Contents(ps)), Strip(Reasonings(ps));
            match ending
            case Raised(error) => t == [Start] + Visible(ps[..k]) + [ErrorEvent(error)]
            case Cancelled => t == [Start] + Visible(ps[..k])
            case Finished =>
              t == [Start] + Visible(ps)
                   + ((if content == "" && reasoning != "" then [MessageEvent(reasoning)] else [])
                      + if content == "" && reasoning == "" then [Done(false)] else
                        match saving
                        case Saved => [Done(true)]
                        case SavingRaises(error) => [ErrorEvent(error)]
                        case SavingCancelled => [])
  {
    LastContentAt(ps, k);
    AgentTrace(Script(true, Agent(ps, ending), saving, 0));
    assert [] + [Done(false)] == [Done(false)];
  }

  lemma {:induction false} LastContentAt(ps: seq<Production>, k: nat)
    requires k <= |ps| && (k > 0 ==> ps[k - 1].Content?) && forall i :: k <= i < |ps| ==> ps[i].Reasoning?
    ensures UpToLastContent(ps) == ps[..k]
    decreases |ps|
  {
    if k < |ps| {
      LastContentAt(ps[..|ps| - 1], k);
      assert ps[..|ps| - 1][..k] == ps[..k];
    } else {
      assert ps[..k] == ps;
    }
  }

  lemma {:induction false} LastContentSnoc(ps: seq<Production>, i: nat)
    requires i < |ps|
    ensures UpToLastContent(ps[..i + 1]) == if ps[i].Content? then ps[..i + 1] else UpToLastContent(ps[..i])
  {
    assert ps[..i + 1][..i] == ps[..i];
  }

  // ---------- the generator ----------

  datatype Exit = Completed | Closed | CancelledExit

  class SseTurn {
    const script: Script
    const tokenCreated: bool
    var events: seq<Event>
    var pending: seq<string>            // pending_reasoning_chunks
    var assistantContent: string
    var assistantReasoning: string
    var acquired: bool
    var gateHeld: bool
    var tokenRegistered: bool
    var tokenCancelled: bool

    /** `created`: the second result of `acquire_cancel_token`. */
    constructor (script: Script, created: bool)
      ensures this.script == script && this.tokenCreated == created
      ensures events == [] && pending == [] && assistantContent == "" && assistantReasoning == ""
      ensures !acquired && !gateHeld && tokenRegistered && !tokenCancelled
    {
      this.script := script;
      this.tokenCreated := created;
      events, pending, assistantContent, assistantReasoning := [], [], "", "";
      acquired, gateHeld, tokenRegistered, tokenCancelled := false, false, true, false;
    }

    /** Yields one event; `closed` when the consumer leaves at this yield. */
    method Yield(e: Event) returns (closed: bool)
      modifies this`events
      ensures events == old(events) + [e]
      ensures closed <==> |events| == script.stopAfter
    {
      events := events + [e];
      closed := |events| == script.stopAfter;
    }

    ghost predicate Going()
      reads this`events
    {
      script.stopAfter == 0 || |events| < script.stopAfter
    }

    /** Sends the queued reasoning, oldest first. */
    method Drain() returns (closed: bool)
      requires Going()
      modifies this`events, this`pending
      ensures !closed ==> Going() && pending == [] && events == old(events) + AsEvents(old(pending))
      ensures closed ==> events <= old(events) + AsEvents(old(pending)) && 0 < |events| == script.stopAfter
    {
      closed := false;
      while pending != []
        invariant Going() && events + AsEvents(pending) == old(events) + AsEvents(old(pending))
        decreases |pending|
      {
        var chunk := pending[0];
        assert AsEvents(pending) == [ReasoningEvent(chunk)] + AsEvents(pending[1..]);
        pending := pending[1..];
        closed := Yield(ReasoningEvent(chunk));
        if closed {
          return;
        }
      }
    }

    /** One chunk of `process_message`: queued reasoning first, then the chunk. */
    method SendChunk(t: string) returns (closed: bool)
      requires Going()
      modifies this`events, this`pending, this`assistantContent
      ensures var all := old(events) + AsEvents(old(pending)) + [MessageEvent(t)];
              if closed then events <= all && 0 < |events| == script.stopAfter
              else Going() && pending == [] && events == all && assistantContent == old(assistantContent) + t
    {
      closed := Drain();
      if !closed {
        assistantContent := assistantContent + t;
        closed := Yield(MessageEvent(t));
      }
    }

    /** What happens on one production: reasoning is queued by the handler, a chunk is sent. */
    method Accept(p: Production) returns (closed: bool)
      requires Going()
      modifies this`events, this`pending, this`assistantContent, this`assistantReasoning
      ensures var all := old(events) + AsEvents(old(pending)) + VisibleOne(p);
              if closed then p.Content? && events <= all && 0 < |events| == script.stopAfter
              else && Going() && events + AsEvents(pending) == all
                   && events == (if p.Content? then all else old(events))
                   && assistantContent == old(assistantContent) + ContentOf(p)
                   && assistantReasoning == old(assistantReasoning) + ReasoningOf(p)
    {
      closed := false;
      match p {
        case Reasoning(t) =>
          assistantReasoning := assistantReasoning + t;
          if t != "" {
            assert AsEvents(pending + [t]) == AsEvents(pending) + [ReasoningEvent(t)];
            pending := pending + [t];
          }
        case Content(t) =>
          closed := SendChunk(t);
      }
    }

    /** The `async for` over `process_message`. */
    method RunChunks(ps: seq<Production>) returns (closed: bool)
      requires events == [Start] && Going() && pending == [] && assistantContent == "" && assistantReasoning == ""
      modifies this`events, this`pending, this`assistantContent, this`assistantReasoning
      ensures if closed then events <= [Start] + Visible(UpToLastContent(ps)) && events <= [Start] + Visible(ps)
                             && 0 < |events| == script.stopAfter
              else && Going() && events == [Start] + Visible(UpToLastContent(ps))
                   && events + AsEvents(pending) == [Start] + Visible(ps)
                   && assistantContent == Contents(ps) && assistantReasoning == Reasonings(ps)
    {
      for i := 0 to |ps|
        invariant Going() && Streamed(ps[..i])
      {
        closed := AcceptNext(ps, i);
        if closed {
          return;
        }
      }
      assert ps[..|ps|] == ps;
      closed := false;
    }

    /** Where the loop stands after these productions. */
    ghost predicate Streamed(ps: seq<Production>)
      reads this`events, this`pending, this`assistantContent, this`assistantReasoning
    {
      && events + AsEvents(pending) == [Start] + Visible(ps)
      && events == [Start] + Visible(UpToLastContent(ps))
      && assistantContent == Contents(ps) && assistantReasoning == Reasonings(ps)
    }

    method AcceptNext(ps: seq<Production>, i: nat) returns (closed: bool)
      requires i < |ps| && Going() && Streamed(ps[..i])
      modifies this`events, this`pending, this`assistantContent, this`assistantReasoning
      ensures !closed ==> Going() && Streamed(ps[..i + 1])
      ensures closed ==> events <= [Start] + Visible(UpToLastContent(ps)) && events <= [Start] + Visible(ps)
                         && 0 < |events| == script.stopAfter
    {
      NextProduction(ps, i);
      closed := Accept(ps[i]);
    }

    /** The agent's productions, and the drain after them when the loop ended normally. */
    method RunAgent(ps: seq<Production>, ending: Ending) returns (closed: bool)
      requires events == [Start] && Going() && pending == [] && assistantContent == "" && assistantReasoning == ""
      modifies this`events, this`pending, this`assistantContent, this`assistantReasoning
      ensures var all := [Start] + Visible(if ending.Finished? then ps else UpToLastContent(ps));
              if closed then events <= all && 0 < |events| == script.stopAfter else events == all && Going()
      ensures !closed ==> assistantContent == Contents(ps) && assistantReasoning == Reasonings(ps)
    {
      closed := RunChunks(ps);
      if !closed && ending.Finished? {
        closed := Drain();
      }
    }

    /** The agent branch, to the end of the `try` or the `except` it leads to. */
    method AgentBody(ps: seq<Production>, ending: Ending) returns (exit: Exit)
      requires script.gateObtained && script.path == Agent(ps, ending)
      requires events == [Start] && Going() && pending == [] && assistantContent == "" && assistantReasoning == ""
      modifies this`events, this`pending, this`assistantContent, this`assistantReasoning
      ensures events <= FullTrace(script)
      ensures if exit.Closed? then 0 < |events| == script.stopAfter else events == FullTrace(script) && Going()
      ensures exit == CancelledExit <==> !exit.Closed? && EndsCancelled(script)
    {
      AgentTrace(script);
      var closed := RunAgent(ps, ending);
      if closed {
        return Closed;
      }
      match ending {
        case Cancelled =>
          return CancelledExit;
        case Raised(error) =>
          closed := Yield(ErrorEvent(error));
          return if closed then Closed else Completed;
        case Finished =>
          exit := Close(false);
      }
    }

    /** The team branch, likewise. */
    method TeamBody() returns (exit: Exit)
      requires script.gateObtained && !script.path.Agent?
      requires events == [Start] && Going() && assistantContent == "" && assistantReasoning == ""
      modifies this`events, this`assistantContent
      ensures events <= FullTrace(script)
      ensures if exit.Closed? then 0 < |events| == script.stopAfter else events == FullTrace(script) && Going()
      ensures exit == CancelledExit <==> !exit.Closed? && EndsCancelled(script)
    {
      TeamTrace(script);
      match script.path {
        case TeamCancelled =>
          return CancelledExit;
        case TeamRaises(error) =>
          var closed := Yield(ErrorEvent(error));
          return if closed then Closed else Completed;
        case TeamText(content, cancelled) =>
          assistantContent := content;
          exit := EventThenClose(MessageEvent(content), cancelled, false);
        case Workflow(outcome, text, cancelled) =>
          assistantContent := Shown(outcome, text);
          exit := EventThenClose(WorkflowEvents(outcome, text)[0], cancelled, !outcome.Succeeded?);
      }
    }

    method EventThenClose(e: Event, cancelled: bool, nonSuccess: bool) returns (exit: Exit)
      requires Going()
      modifies this`events
      ensures var all := old(events) + [e]
                + if cancelled then [] else Closing(assistantContent, assistantReasoning, nonSuccess, script.saving);
              if exit.Closed? then events <= all && 0 < |events| == script.stopAfter else events == all && Going()
      ensures exit == CancelledExit <==>
        !exit.Closed? && (cancelled || SaveIsCancelled(assistantContent, assistantReasoning, script.saving))
    {
      var closed := Yield(e);
      if closed {
        return Closed;
      }
      if cancelled {
        assert old(events) + [e] + [] == old(events) + [e];
        return CancelledExit;
      }
      exit := Close(nonSuccess);
    }

    /** The body of the `try` with the `except Exception` branch folded in; what it yields is the full
        trace, up to where the consumer left. */
    method Body() returns (exit: Exit)
      requires events == [] && pending == [] && assistantContent == "" && assistantReasoning == ""
      requires !acquired && !gateHeld
      modifies this`events, this`pending, this`assistantContent, this`assistantReasoning, this`acquired, this`gateHeld
      ensures events <= FullTrace(script)
      ensures if exit.Closed? then 0 < |events| == script.stopAfter else events == FullTrace(script) && Going()
      ensures gateHeld == acquired == script.gateObtained
      ensures exit == CancelledExit <==> !exit.Closed? && EndsCancelled(script)
    {
      if !script.gateObtained {
        return CancelledExit;
      }
      acquired, gateHeld := true, true;
      var closed := Yield(Start);
      if closed {
        return Closed;
      }
      if script.path.Agent? {
        exit := AgentBody(script.path.productions, script.path.ending);
      } else {
        exit := TeamBody();
      }
    }

    /** Saving the answer and finishing. */
    method Close(nonSuccess: bool) returns (exit: Exit)
      requires Going()
      modifies this`events
      ensures var all := old(events) + Closing(assistantContent, assistantReasoning, nonSuccess, script.saving);
              if exit.Closed? then events <= all && 0 < |events| == script.stopAfter else events == all && Going()
      ensures exit == CancelledExit <==>
        !exit.Closed? && SaveIsCancelled(assistantContent, assistantReasoning, script.saving)
    {
      var closed := false;
      var content, reasoning := Strip(assistantContent), Strip(assistantReasoning);
      if content != "" || reasoning != "" {
        if content == "" {
          closed := Yield(MessageEvent(reasoning));
          if closed {
            return Closed;
          }
        }
        match script.saving {
          case SavingCancelled =>
            return CancelledExit;
          case SavingRaises(error) =>
            closed := Yield(ErrorEvent(error));
          case Saved =>
            if !nonSuccess {
              closed := Yield(Done(true));
            }
        }
      } else if !nonSuccess {
        closed := Yield(Done(false));
      }
      return if closed then Closed else Completed;
    }

    /** The generator with its `finally`: on every exit the gate is released iff it was acquired and
        the token is cleaned up iff this stream created it. */
    method Run() returns (exit: Exit)
      requires events == [] && pending == [] && assistantContent == "" && assistantReasoning == ""
      requires !acquired && !gateHeld && tokenRegistered && !tokenCancelled
      modifies this
      ensures events == Cut(FullTrace(script), script.stopAfter)
      ensures acquired == script.gateObtained && !gateHeld
      ensures tokenRegistered <==> !tokenCreated
      ensures tokenCancelled <==> exit == CancelledExit
      ensures exit.Closed? <==> 0 < script.stopAfter <= |FullTrace(script)|
      ensures exit == CancelledExit <==> !exit.Closed? && EndsCancelled(script)
    {
      exit := Body();
      if exit == CancelledExit {
        tokenCancelled := true;
      }
      if acquired {
        gateHeld := false;
      }
      if tokenCreated {
        tokenRegistered := false;
      }
    }
  }

  lemma {:induction false} NextProduction(ps: seq<Production>, i: nat)
    requires i < |ps|
    ensures [Start] + Visible(ps[..i]) + VisibleOne(ps[i]) == [Start] + Visible(ps[..i + 1])
    ensures UpToLastContent(ps[..i + 1]) == if ps[i].Content? then ps[..i + 1] else UpToLastContent(ps[..i])
    ensures ps[i].Content? ==> [Start] + Visible(ps[..i + 1]) <= [Start] + Visible(UpToLastContent(ps))
    ensures ps[i].Content? ==> [Start] + Visible(ps[..i + 1]) <= [Start] + Visible(ps)
    ensures Contents(ps[..i + 1]) == Contents(ps[..i]) + ContentOf(ps[i])
    ensures Reasonings(ps[..i + 1]) == Reasonings(ps[..i]) + ReasoningOf(ps[i])
  {
    VisibleSnoc(ps, i);
    LastContentSnoc(ps, i);
    Regroup(Visible(ps[..i]), VisibleOne(ps[i]));
    if ps[i].Content? {
      VisiblePrefix(ps, i + 1);
      ContentIsKept(ps, i);
      AfterStart(Visible(ps[..i + 1]), Visible(ps));
      AfterStart(Visible(ps[..i + 1]), Visible(UpToLastContent(ps)));
    }
  }

  lemma {:induction false} AgentTrace(s: Script)
    requires s.gateObtained && s.path.Agent?
    ensures var ps := s.path.productions;
      FullTrace(s) ==
      match s.path.ending
      case Finished => [Start] + Visible(ps) + Closing(Contents(ps), Reasonings(ps), false, s.saving)
      case Raised(error) => [Start] + Visible(UpToLastContent(ps)) + [ErrorEvent(error)]
      case Cancelled => [Start] + Visible(UpToLastContent(ps))
  {
    var ps := s.path.productions;
    Regroup(Visible(ps), Closing(Contents(ps), Reasonings(ps), false, s.saving));
    if s.path.ending.Raised? { Regroup(Visible(UpToLastContent(ps)), [ErrorEvent(s.path.ending.error)]); }
  }

  /** The stream without the agent: one event, then the closing. */
  lemma {:induction false} TeamTrace(s: Script)
    requires s.gateObtained && !s.path.Agent?
    ensures FullTrace(s) ==
      match s.path
      case TeamRaises(error) => [Start] + [ErrorEvent(error)]
      case TeamCancelled => [Start]
      case TeamText(content, cancelled) =>
        [Start] + [MessageEvent(content)] + if cancelled then [] else Closing(content, "", false, s.saving)
      case Workflow(outcome, text, cancelled) =>
        [Start] + [WorkflowEvents(outcome, text)[0]]
        + if cancelled then [] else Closing(Shown(outcome, text), "", !outcome.Succeeded?, s.saving)
      case Agent(_, _) => []
  {
    match s.path
    case Workflow(outcome, text, cancelled) =>
      assert WorkflowEvents(outcome, text) == [WorkflowEvents(outcome, text)[0]];
      Regroup([WorkflowEvents(outcome, text)[0]],
              if cancelled then [] else Closing(Shown(outcome, text), "", !outcome.Succeeded?, s.saving));
    case TeamText(content, cancelled) =>
      Regroup([MessageEvent(content)], if cancelled then [] else Closing(content, "", false, s.saving));
    case _ =>
  }

  lemma {:induction false} Regroup(a: seq<Event>, b: seq<Event>)
    ensures [Start] + a + b == [Start] + (a + b)
  {
  }

  lemma {:induction false} AfterStart(a: seq<Event>, b: seq<Event>)
    requires a <= b
    ensures [Start] + a <= [Start] + b
  {
  }

  function AsEvents(chunks: seq<string>): seq<Event> {
    seq(|chunks|, i requires 0 <= i < |chunks| => ReasoningEvent(chunks[i]))
  }

  /** A normal agent stream, read in one line: all productions in order between `start` and `done`,
      with the reasoning repeated as the message only when there was no visible content; `done` names the
      stored message if there was anything to store. */
  lemma {:induction false} NormalAgentStream(ps: seq<Production>)
    ensures var t := FullTrace(Script(true, Agent(ps, Finished), Saved, 0));
            var content, reasoning := Strip(Contents(ps)), Strip(Reasonings(ps));
            && |t| >= 2 && t[0] == Start && t[|t| - 1] == Done(content != "" || reasoning != "")
            && t[1..|t| - 1]
               == Visible(ps) + (if content == "" && reasoning != "" then [MessageEvent(reasoning)] else [])
            && MessageText(Visible(ps)) == Contents(ps) && ReasoningText(Visible(ps)) == Reasonings(ps)
  {
    VisibleConservesText(ps);
    NormalTrace(ps);
    Bracketed(Visible(ps), Repeated(Contents(ps), Reasonings(ps)), Done(!Blank(Contents(ps), Reasonings(ps))));
  }

  lemma {:induction false} NormalTrace(ps: seq<Production>)
    ensures FullTrace(Script(true, Agent(ps, Finished), Saved, 0))
            == [Start] + (Visible(ps) + (Repeated(Contents(ps), Reasonings(ps))
                                         + [Done(!Blank(Contents(ps), Reasonings(ps)))]))
  {
    ClosingOfAnswer(Contents(ps), Reasonings(ps));
  }

  lemma {:induction false} ClosingOfAnswer(content: string, reasoning: string)
    ensures Closing(content, reasoning, false, Saved)
            == Repeated(content, reasoning) + [Done(!Blank(content, reasoning))]
  {
  }

  lemma {:induction false} Bracketed(body: seq<Event>, repeated: seq<Event>, last: Event)
    ensures var t := [Start] + (body + (repeated + [last]));
            |t| >= 2 && t[0] == Start && t[|t| - 1] == last && t[1..|t| - 1] == body + repeated
  {
  }

  ghost predicate NoDone(t: seq<Event>) {
    forall i :: 0 <= i < |t| ==> !t[i].Done?
  }

  /** Ends in `done` or in an error. */
  predicate Concludes(t: seq<Event>) {
    t != [] && (t[|t| - 1].Done? || t[|t| - 1].ErrorEvent?)
  }

  lemma {:induction false} HowClosingEnds(content: string, reasoning: string, nonSuccess: bool, saving: Saving)
    ensures var t := Closing(content, reasoning, nonSuccess, saving);
            && (SaveIsCancelled(content, reasoning, saving) ==> NoDone(t))
            && (!SaveIsCancelled(content, reasoning, saving) && !nonSuccess ==> Concludes(t))
  {
  }

  lemma {:induction false} TailDecides(body: seq<Event>, tail: seq<Event>)
    requires NoDone(body)
    ensures NoDone(tail) ==> NoDone([Start] + body + tail)
    ensures Concludes(tail) ==> Concludes([Start] + body + tail)
  {
    var t := [Start] + body + tail;
    forall i | 0 <= i < |t|
      ensures t[i] == if i == 0 then Start else if i <= |body| then body[i - 1] else tail[i - 1 - |body|]
    {}
  }

  /** A stream whose consumer stays ends in `done` or in an error, except by cancellation and after a
      direct workflow that did not succeed; a cancelled stream has no `done`. */
  lemma {:induction false} HowStreamsEnd(s: Script)
    ensures EndsCancelled(s) ==> NoDone(FullTrace(s))
    ensures !EndsCancelled(s) && !(s.path.Workflow? && !s.path.outcome.Succeeded?) ==> Concludes(FullTrace(s))
  {
    if s.gateObtained {
      if s.path.Agent? { HowAgentEnds(s); } else { HowTeamEnds(s); }
    }
  }

  lemma {:induction false} HowAgentEnds(s: Script)
    requires s.gateObtained && s.path.Agent?
    ensures if EndsCancelled(s) then NoDone(FullTrace(s)) else Concludes(FullTrace(s))
  {
    var ps := s.path.productions;
    AgentTrace(s);
    VisibleIsText(ps);
    VisibleIsText(UpToLastContent(ps));
    HowClosingEnds(Contents(ps), Reasonings(ps), false, s.saving);
    TailDecides(Visible(ps), Closing(Contents(ps), Reasonings(ps), false, s.saving));
    if s.path.ending.Raised? { TailDecides(Visible(UpToLastContent(ps)), [ErrorEvent(s.path.ending.error)]); }
  }

  lemma {:induction false} HowTeamEnds(s: Script)
    requires s.gateObtained && !s.path.Agent?
    ensures EndsCancelled(s) ==> NoDone(FullTrace(s))
    ensures !EndsCancelled(s) && !(s.path.Workflow? && !s.path.outcome.Succeeded?) ==> Concludes(FullTrace(s))
  {
    TeamTrace(s);
    match s.path
    case TeamText(content, cancelled) =>
      HowClosingEnds(content, "", false, s.saving);
      TailDecides([MessageEvent(content)], if cancelled then [] else Closing(content, "", false, s.saving));
    case Workflow(o, text, cancelled) =>
      HowClosingEnds(Shown(o, text), "", !o.Succeeded?, s.saving);
      TailDecides([WorkflowEvents(o, text)[0]],
                  if cancelled then [] else Closing(Shown(o, text), "", !o.Succeeded?, s.saving));
    case _ =>
  }

  // ---------- what a team's stream shows ----------

  /** How a stream ends after its one message or error: nothing more in a pause that is cancelled; the error
      of a failed saving; `done` unless the workflow did not succeed, naming a message if one was stored. */
  function EndOf(text: string, success: bool, cancelled: bool, saving: Saving): seq<Event> {
    if cancelled then []
    else if Strip(text) == "" then (if success then [Done(false)] else [])
    else
      match saving
      case Saved => if success then [Done(true)] else []
      case SavingRaises(error) => [ErrorEvent(error)]
      case SavingCancelled => []
  }

  lemma {:induction false} ClosingIsEnd(text: string, success: bool, saving: Saving)
    ensures Closing(text, "", !success, saving) == EndOf(text, success, false, saving)
  {
    assert Repeated(text, "") == [];
  }

  /** A fixed team text is shown as it is. */
  lemma {:induction false} TeamTextShows(content: string, cancelled: bool, saving: Saving)
    ensures FullTrace(Script(true, TeamText(content, cancelled), saving, 0))
            == [Start, MessageEvent(content)] + EndOf(content, true, cancelled, saving)
  {
    ClosingIsEnd(content, true, saving);
    TeamTrace(Script(true, TeamText(content, cancelled), saving, 0));
    assert [Start] + [MessageEvent(content)] == [Start, MessageEvent(content)];
  }

  /** A directly run workflow: its display text as the message if it succeeded, as tool progress if it is
      still running, and otherwise as the error, with a warning in front if nobody knows its outcome. */
  lemma {:induction false} WorkflowShows(outcome: WorkflowOutcome, text: string, cancelled: bool, saving: Saving)
    ensures var t := FullTrace(Script(true, Workflow(outcome, text, cancelled), saving, 0));
            var warned := "Tool outcome is unknown; side effects may have occurred. " + text;
            match outcome
            case Succeeded => t == [Start, MessageEvent(text)] + EndOf(text, true, cancelled, saving)
            case InProgress => t == [Start, ToolProgress(text)] + EndOf(text, false, cancelled, saving)
            case Rejected => t == [Start, ErrorEvent(text)] + EndOf(text, false, cancelled, saving)
            case FailedState => t == [Start, ErrorEvent(text)] + EndOf(text, false, cancelled, saving)
            case UnknownOutcome => t == [Start, ErrorEvent(warned)] + EndOf(warned, false, cancelled, saving)
  {
    var e := WorkflowEvents(outcome, text)[0];
    ClosingIsEnd(Shown(outcome, text), outcome.Succeeded?, saving);
    TeamTrace(Script(true, Workflow(outcome, text, cancelled), saving, 0));
    assert [Start] + [e] == [Start, e];
  }

  /** The path makes its answer by a team. */
  predicate ByTeam(path: Path) {
    path.TeamText? || path.Workflow?
  }

  function TeamAnswer(path: Path): string
    requires ByTeam(path)
  {
    if path.TeamText? then path.content else path.displayText
  }

  predicate TeamSucceeds(path: Path)
    requires ByTeam(path)
  {
    path.TeamText? || path.outcome.Succeeded?
  }

  /** A team that raises shows the error alone; one that is cancelled shows nothing. */
  lemma {:induction false} TeamBreaks(error: string, saving: Saving)
    ensures FullTrace(Script(true, TeamRaises(error), saving, 0)) == [Start, ErrorEvent(error)]
    ensures FullTrace(Script(true, TeamCancelled, saving, 0)) == [Start]
  {
  }

  /** So the message text of a team's stream is exactly the text, or there is none at all; tool progress
      shows exactly while the operation runs; and `done` names a message exactly if one was stored. */
  lemma {:induction false} TeamStreams(s: Script, e: Event)
    requires s.gateObtained && ByTeam(s.path)
    ensures var t := FullTrace(s);
            && MessageText(t) == (if TeamSucceeds(s.path) then TeamAnswer(s.path) else "") && ReasoningText(t) == ""
            && (e.ToolProgress? ==>
                  (e in t <==> s.path.Workflow? && s.path.outcome.InProgress? && e.content == TeamAnswer(s.path)))
            && (e.Done? ==>
                  (e in t <==>
                     && TeamSucceeds(s.path) && !s.path.cancelled
                     && if e.saved then Strip(TeamAnswer(s.path)) != "" && s.saving.Saved?
                        else Strip(TeamAnswer(s.path)) == ""))
  {
    var text, first := TextKept(s.path), FirstEvent(s.path);
    TeamStreamIs(s);
    TextsOfEnd(first, text, TeamSucceeds(s.path), s.path.cancelled, s.saving);
    if e.Done? || e.ToolProgress? {
      EventsOfEnd(first, text, TeamSucceeds(s.path), s.path.cancelled, s.saving, e);
    }
  }

  function TextKept(path: Path): string
    requires ByTeam(path)
  {
    (if path.Workflow? && path.outcome.UnknownOutcome? then UNKNOWN_PREFIX else "") + TeamAnswer(path)
  }

  function FirstEvent(path: Path): Event
    requires ByTeam(path)
  {
    if TeamSucceeds(path) then MessageEvent(TeamAnswer(path))
    else if path.outcome.InProgress? then ToolProgress(TeamAnswer(path))
    else ErrorEvent(TextKept(path))
  }

  lemma {:induction false} TeamStreamIs(s: Script)
    requires s.gateObtained && ByTeam(s.path)
    ensures FullTrace(s)
            == [Start, FirstEvent(s.path)] + EndOf(TextKept(s.path), TeamSucceeds(s.path), s.path.cancelled, s.saving)
  {
    TraceIgnoresConsumer(s);
    assert "" + TeamAnswer(s.path) == TeamAnswer(s.path);
    if s.path.TeamText? {
      TeamTextShows(s.path.content, s.path.cancelled, s.saving);
    } else {
      WorkflowShows(s.path.outcome, s.path.displayText, s.path.cancelled, s.saving);
    }
  }

  lemma {:induction false} EventsOfEnd(first: Event, text: string, success: bool, cancelled: bool, saving: Saving,
                                       e: Event)
    requires !first.Done? && (e.Done? || e.ToolProgress?)
    ensures e in [Start, first] + EndOf(text, success, cancelled, saving)
            <==> || e == first
                 || (&& e.Done? && success && !cancelled
                     && if e.saved then Strip(text) != "" && saving.Saved? else Strip(text) == "")
  {
    var end := EndOf(text, success, cancelled, saving);
    assert e in [Start, first] + end <==> e == first || e in end;
  }

  lemma {:induction false} TraceIgnoresConsumer(s: Script)
    ensures FullTrace(s) == FullTrace(Script(s.gateObtained, s.path, s.saving, 0))
  {
  }

  lemma {:induction false} TextsOfEnd(e: Event, text: string, success: bool, cancelled: bool, saving: Saving)
    requires !e.ReasoningEvent?
    ensures var t := [Start, e] + EndOf(text, success, cancelled, saving);
            MessageText(t) == (if e.MessageEvent? then e.content else "") && ReasoningText(t) == ""
  {
    var end := EndOf(text, success, cancelled, saving);
    var t := [Start, e] + end;
    assert t[1..] == [e] + end && t[1..][1..] == end;
    assert |end| <= 1;
    if end != [] { assert end[1..] == []; }
    assert MessageText(end) == "" && ReasoningText(end) == "";
    Joined(MessageText([e]), "", "");
  }
}
