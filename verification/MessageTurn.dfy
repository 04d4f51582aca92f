/** One WebSocket message turn, `handle_message_event` of backend/ws/events.py, from the arrival of
    the message to its `finally`: what the session's connections are sent, what is stored, and what
    becomes of the gate and the token.

    A `Script` says what the environment does.  Content goes through the buffered handler, reasoning
    is sent at once.  Wherever the handler suspends its task may be cancelled: while binding, up to
    the gate, in the agent loop, in saving, and in sending any message. */
module MessageTurn {
  import opened Common
  import opened Streaming
  import opened Text

  /** What `process_message` produces.  `cancelled`: the token is cancelled when the chunk arrives;
      `due`: the flush interval has passed then. */
  datatype Item = Reasoning(text: string) | Chunk(text: string, cancelled: bool, due: bool)

  /** How far the turn gets before the agent runs. */
  datatype Setup =
    | InvalidMessage
    | BindRaises | BindCancelled    // before there is a token
    | SessionMissing | BadAttachment | ProviderUnavailable | SetupRaises
    | WaitCancelled                 // the task is cancelled after the token and before the gate
    | UserNotSaved | Ready          // with the gate held

  datatype Ending = Finishes | Raises | TaskCancelled

  /** How saving the answer ends, with what follows it up to the completion. */
  datatype Saving = Saved | SavingRaises | SavingCancelled | RaisesAfterSaving | CancelledAfterSaving

  /** `reach`: how many connections get a chunk.  `cutAt`: the task is cancelled while that message is
      sent, 0 for never.  What goes wrong between taking the gate and the first item is an `ending`
      without items. */
  datatype Script = Script(setup: Setup, items: seq<Item>, ending: Ending, saving: Saving, reach: nat, cutAt: nat)

  /** The codes of `send_error`. */
  datatype Code =
    | CodeInvalidMessage | CodeSessionNotFound | CodeInvalidAttachment | CodeProviderUnavailable
    | CodeDatabaseError | CodeProcessingError

  datatype Message = ReasoningMessage(text: string) | ContentMessage(text: string) | ErrorMessage(code: Code) | Complete

  const BUFFER_SIZE := 10
  const STOP_MARKER := "\n\n[已停止生成]"

  // ---------- the agent loop ----------

  datatype Flow = Flow(b: Buffered, out: seq<Message>, content: string, reasoning: string, stopped: bool)

  const OPENING := Flow(EMPTY, [], "", "", false)

  function AsMessages(chunks: seq<string>): seq<Message> {
    seq(|chunks|, i requires 0 <= i < |chunks| => ContentMessage(chunks[i]))
  }

  function Handed(f: Flow, b: Buffered): Flow
    requires |f.b.sent| <= |b.sent|
  {
    f.(b := b, out := f.out + AsMessages(b.sent[|f.b.sent|..]))
  }

  function Flushed(f: Flow, reach: nat): Flow {
    Handed(f, FlushStep(f.b, reach))
  }

  function WriteOut(f: Flow, text: string, due: bool, reach: nat): Flow {
    Handed(f, WriteStep(f.b, text, BUFFER_SIZE, due, reach))
  }

  function Take(f: Flow, item: Item, reach: nat): Flow {
    match item
    case Reasoning(t) => f.(reasoning := f.reasoning + t, out := f.out + [ReasoningMessage(t)])
    case Chunk(t, cancelled, due) =>
      if cancelled then Flushed(WriteOut(f, STOP_MARKER, due, reach), reach).(stopped := true)
      else WriteOut(f, t, due, reach).(content := f.content + t)
  }

  function TakeAll(f: Flow, items: seq<Item>, reach: nat): Flow
    decreases |items|
  {
    if items == [] || f.stopped then f else TakeAll(Take(f, items[0], reach), items[1..], reach)
  }

  // ---------- the whole turn ----------

  /** `persisted_content` and `used_reasoning_fallback`. */
  function Persisted(f: Flow): (string, bool) {
    if Strip(f.content) != "" then (Strip(f.content), false)
    else (Strip(f.reasoning), Strip(f.reasoning) != "")
  }

  /** After the last flush: a reasoning-only answer is sent as content. */
  function WithFallback(f: Flow, reach: nat): Flow {
    if Persisted(f).1 then Flushed(WriteOut(f, Persisted(f).0, false, reach), reach) else f
  }

  /** What comes after the answer; an empty answer is not saved. */
  function Outcome(f: Flow, saving: Saving): seq<Message> {
    if Persisted(f).0 == "" then [Complete]
    else
      match saving
      case Saved => [Complete]
      case SavingRaises => [ErrorMessage(CodeProcessingError)]
      case RaisesAfterSaving => [ErrorMessage(CodeProcessingError)]
      case SavingCancelled => []
      case CancelledAfterSaving => []
  }

  predicate IsStored(saving: Saving) {
    saving.Saved? || saving.RaisesAfterSaving? || saving.CancelledAfterSaving?
  }

  /** The flow when the loop is over. */
  function Ran(s: Script): Flow {
    TakeAll(OPENING, s.items, s.reach)
  }

  predicate GetsThrough(s: Script) {
    s.setup.Ready? && (Ran(s).stopped || s.ending.Finishes?)
  }

  /** The answer is out: all text has been sent. */
  function Answered(f: Flow, reach: nat): seq<Message> {
    WithFallback(Flushed(f, reach), reach).out
  }

  /** What has been sent when the turn is over, given the flow after the loop. */
  function Ended(f: Flow, s: Script): seq<Message> {
    if f.stopped || s.ending.Finishes? then Answered(f, s.reach) + Outcome(f, s.saving)
    else if s.ending.Raises? then f.out + [ErrorMessage(CodeProcessingError)]
    else f.out
  }

  /** Everything the turn sends, in order, if no send is cut short. */
  function FullSent(s: Script): seq<Message> {
    match s.setup
    case BindRaises => [ErrorMessage(CodeProcessingError)]
    case BindCancelled => []
    case InvalidMessage => [ErrorMessage(CodeInvalidMessage)]
    case SessionMissing => [ErrorMessage(CodeSessionNotFound)]
    case BadAttachment => [ErrorMessage(CodeInvalidAttachment)]
    case ProviderUnavailable => [ErrorMessage(CodeProviderUnavailable)]
    case SetupRaises => [ErrorMessage(CodeProcessingError)]
    case WaitCancelled => []
    case UserNotSaved => [ErrorMessage(CodeDatabaseError)]
    case Ready => Ended(Ran(s), s)
  }

  /** A cut at that message: it is handed over and nothing after it. */
  function Cut(t: seq<Message>, at: nat): seq<Message> {
    if 0 < at <= |t| then t[..at] else t
  }

  predicate CutShort(t: seq<Message>, at: nat) {
    0 < at <= |t|
  }

  /** Everything the turn sends, in order. */
  function Sent(s: Script): seq<Message> {
    Cut(FullSent(s), s.cutAt)
  }

  function Stored(s: Script): Option<string> {
    if GetsThrough(s) && Persisted(Ran(s)).0 != "" && IsStored(s.saving)
        && !CutShort(Answered(Ran(s), s.reach), s.cutAt)
    then Some(Persisted(Ran(s)).0)
    else None
  }

  predicate SaveIsCancelled(f: Flow, saving: Saving) {
    Persisted(f).0 != "" && (saving.SavingCancelled? || saving.CancelledAfterSaving?)
  }

  /** The turn ends by the cancellation of its task, no send being cut short. */
  predicate EndsCancelled(s: Script) {
    || s.setup.BindCancelled? || s.setup.WaitCancelled?
    || (s.setup.Ready? && if GetsThrough(s) then SaveIsCancelled(Ran(s), s.saving) else s.ending.TaskCancelled?)
  }

  /** Every message of the turn gets as far as being handed over. */
  predicate Uncut(s: Script) {
    s.cutAt == 0 || |FullSent(s)| <= s.cutAt
  }

  // ---------- nothing is lost ----------

  /** The content text of a message, or its reasoning text. */
  function Part(m: Message, content: bool): string {
    match m
    case ReasoningMessage(t) => if content then "" else t
    case ContentMessage(t) => if content then t else ""
    case _ => ""
  }

  function TextOf(ms: seq<Message>, content: bool): string {
    if ms == [] then "" else Part(ms[0], content) + TextOf(ms[1..], content)
  }

  function ItemText(item: Item, content: bool): string {
    if item.Chunk? == content then item.text else ""
  }

  function Produced(items: seq<Item>, content: bool): string {
    if items == [] then "" else ItemText(items[0], content) + Produced(items[1..], content)
  }

  /** What the turn makes of an item: the marker replaces the chunk that finds the token cancelled. */
  function Shown(item: Item): Item {
    if item.Chunk? && item.cancelled then item.(text := STOP_MARKER) else item
  }

  /** What the turn makes of the production: nothing after that chunk. */
  function Effective(items: seq<Item>): seq<Item> {
    if items == [] then []
    else [Shown(items[0])] + if items[0].Chunk? && items[0].cancelled then [] else Effective(items[1..])
  }

  predicate Stops(items: seq<Item>) {
    exists i :: 0 <= i < |items| && items[i].Chunk? && items[i].cancelled
  }

  lemma {:induction false} TextAppend(a: seq<Message>, b: seq<Message>, content: bool)
    ensures TextOf(a + b, content) == TextOf(a, content) + TextOf(b, content)
    decreases |a|
  {
    if a == [] {
      assert a + b == b;
    } else {
      assert (a + b)[1..] == a[1..] + b;
      TextAppend(a[1..], b, content);
    }
  }

  lemma {:induction false} TextSnoc(ms: seq<Message>, m: Message, content: bool)
    ensures TextOf(ms + [m], content) == TextOf(ms, content) + Part(m, content)
  {
    TextAppend(ms, [m], content);
    assert [m][1..] == [];
  }

  /** A flush hands over the buffer as one message, or nothing. */
  lemma {:induction false} FlushedOut(f: Flow, reach: nat)
    ensures Flushed(f, reach).b.buffer == ""
    ensures Flushed(f, reach).out == f.out + if f.b.buffer == "" then [] else [ContentMessage(f.b.buffer)]
  {
    assert (f.b.sent + [f.b.buffer])[|f.b.sent|..] == [f.b.buffer];
    assert f.b.sent[|f.b.sent|..] == [];
  }

  lemma {:induction false} WrittenOut(f: Flow, text: string, due: bool, reach: nat)
    ensures var t := f.b.buffer + text; var g := WriteOut(f, text, due, reach);
            if |t| >= BUFFER_SIZE || due
            then g.b.buffer == "" && g.out == f.out + if t == "" then [] else [ContentMessage(t)]
            else g.b.buffer == t && g.out == f.out
  {
    var b := f.b.(buffer := f.b.buffer + text);
    assert (b.sent + [b.buffer])[|b.sent|..] == [b.buffer];
    assert b.sent[|b.sent|..] == [];
  }

  /** The statistics of the handler: every character handed over counts if it reaches somebody. */
  ghost predicate Counted(b: Buffered, reach: nat) {
    b.totalSent == if reach > 0 then |Concat(b.sent)| else 0
  }

  lemma {:induction false} HandedCounts(b: Buffered, reach: nat)
    requires Counted(b, reach)
    ensures Counted(FlushStep(b, reach), reach)
  {
    ConcatAppend(b.sent, [b.buffer]);
    assert [b.buffer][1..] == [] && Concat([b.buffer]) == b.buffer;
  }

  lemma {:induction false} TakenCounts(f: Flow, item: Item, reach: nat)
    requires Counted(f.b, reach)
    ensures Counted(Take(f, item, reach).b, reach)
  {
    match item
    case Reasoning(_) =>
    case Chunk(t, cancelled, due) =>
      var text := if cancelled then STOP_MARKER else t;
      HandedCounts(f.b.(buffer := f.b.buffer + text), reach);
      if cancelled { HandedCounts(WriteOut(f, text, due, reach).b, reach); }
  }

  /** Through the whole loop the handler counts exactly the characters that reached a connection. */
  lemma {:induction false} LoopCounts(f: Flow, items: seq<Item>, reach: nat)
    requires Counted(f.b, reach)
    ensures Counted(TakeAll(f, items, reach).b, reach)
    ensures Counted(Flushed(TakeAll(f, items, reach), reach).b, reach)
    decreases |items|
  {
    if items != [] && !f.stopped {
      TakenCounts(f, items[0], reach);
      LoopCounts(Take(f, items[0], reach), items[1..], reach);
    } else {
      HandedCounts(f.b, reach);
    }
  }

  /** The text handed over, then, for content, what is still buffered. */
  function SoFar(f: Flow, content: bool): string {
    TextOf(f.out, content) + if content then f.b.buffer else ""
  }

  lemma {:induction false} Assoc(a: string, b: string, c: string)
    ensures a + b + c == a + (b + c)
  {
  }

  lemma {:induction false} NoText(a: string)
    ensures a + "" == a
  {
  }

  lemma {:induction false} HandOver(out: seq<Message>, t: string, content: bool)
    ensures TextOf(out + (if t == "" then [] else [ContentMessage(t)]), content) + ""
            == TextOf(out, content) + if content then t else ""
  {
    NoText(TextOf(out, content));
    assert out + [] == out;
    TextSnoc(out, ContentMessage(t), content);
    NoText(TextOf(out + [ContentMessage(t)], content));
  }

  lemma {:induction false} FlushKeepsText(f: Flow, reach: nat, content: bool)
    ensures SoFar(Flushed(f, reach), content) == SoFar(f, content) == TextOf(Flushed(f, reach).out, content)
  {
    FlushedOut(f, reach);
    HandOver(f.out, f.b.buffer, content);
    NoText(TextOf(Flushed(f, reach).out, content));
  }

  lemma {:induction false} WriteExtendsText(f: Flow, text: string, due: bool, reach: nat, content: bool)
    ensures SoFar(WriteOut(f, text, due, reach), content) == SoFar(f, content) + if content then text else ""
    ensures |WriteOut(f, text, due, reach).b.buffer| < BUFFER_SIZE
  {
    WrittenOut(f, text, due, reach);
    HandOver(f.out, f.b.buffer + text, content);
    Assoc(TextOf(f.out, content), f.b.buffer, text);
    NoText(TextOf(f.out, content) + "");
  }

  lemma {:induction false} TakeConserves(f: Flow, item: Item, reach: nat, content: bool)
    requires !f.stopped && |f.b.buffer| < BUFFER_SIZE
    ensures var g := Take(f, item, reach);
            && SoFar(g, content) == SoFar(f, content) + ItemText(Shown(item), content)
            && |g.b.buffer| < BUFFER_SIZE
            && (g.stopped <==> item.Chunk? && item.cancelled)
            && (g.stopped ==> g.b.buffer == "")
  {
    NoText(SoFar(f, content));
    match item
    case Reasoning(t) =>
      TextSnoc(f.out, ReasoningMessage(t), content);
      NoText(TextOf(f.out, content));
      NoText(TextOf(f.out, content) + t);
    case Chunk(t, cancelled, due) =>
      var g := WriteOut(f, Shown(item).text, due, reach);
      WriteExtendsText(f, Shown(item).text, due, reach, content);
      if cancelled {
        FlushKeepsText(g, reach, content);
        FlushedOut(g, reach);
      }
  }

  lemma {:induction false} StopsCons(items: seq<Item>)
    requires items != []
    ensures Stops(items) <==> (items[0].Chunk? && items[0].cancelled) || Stops(items[1..])
  {
    if Stops(items[1..]) {
      var i :| 0 <= i < |items| - 1 && items[1..][i].Chunk? && items[1..][i].cancelled;
      assert items[i + 1].Chunk? && items[i + 1].cancelled;
    }
    if Stops(items) {
      var i :| 0 <= i < |items| && items[i].Chunk? && items[i].cancelled;
      assert i > 0 ==> items[1..][i - 1] == items[i];
    }
  }

  lemma {:induction false} ProducedCons(items: seq<Item>, content: bool)
    requires items != []
    ensures Produced(Effective(items), content) ==
            ItemText(Shown(items[0]), content)
            + if items[0].Chunk? && items[0].cancelled then "" else Produced(Effective(items[1..]), content)
  {
    assert Effective(items)[1..] == if items[0].Chunk? && items[0].cancelled then [] else Effective(items[1..]);
  }

  /** What is handed over and what is still buffered make up the content produced, with the marker in
      the place of the cancelled chunk; reasoning is handed over in full. */
  lemma {:induction false} LoopConserves(f: Flow, items: seq<Item>, reach: nat, content: bool)
    requires !f.stopped && |f.b.buffer| < BUFFER_SIZE
    ensures var g := TakeAll(f, items, reach);
            && SoFar(g, content) == SoFar(f, content) + Produced(Effective(items), content)
            && |g.b.buffer| < BUFFER_SIZE
            && (g.stopped <==> Stops(items))
            && (g.stopped ==> g.b.buffer == "")
    decreases |items|
  {
    if items == [] {
      NoText(SoFar(f, content));
    } else {
      var g := Take(f, items[0], reach);
      TakeConserves(f, items[0], reach, content);
      StopsCons(items);
      ProducedCons(items, content);
      NoText(ItemText(Shown(items[0]), content));
      if !g.stopped {
        LoopConserves(g, items[1..], reach, content);
        Assoc(SoFar(f, content), ItemText(Shown(items[0]), content), Produced(Effective(items[1..]), content));
      }
    }
  }

  /** The content the turn keeps: up to the cancelled chunk, without it. */
  function Kept(items: seq<Item>): string {
    if items == [] || (items[0].Chunk? && items[0].cancelled) then ""
    else ItemText(items[0], true) + Kept(items[1..])
  }

  lemma {:induction false} LoopKeeps(f: Flow, items: seq<Item>, reach: nat)
    requires !f.stopped
    ensures TakeAll(f, items, reach).content == f.content + Kept(items)
    ensures TakeAll(f, items, reach).reasoning == f.reasoning + Produced(Effective(items), false)
    decreases |items|
  {
    NoText(f.content);
    NoText(f.reasoning);
    if items != [] {
      var g := Take(f, items[0], reach);
      ProducedCons(items, false);
      if !g.stopped {
        LoopKeeps(g, items[1..], reach);
        Assoc(f.content, ItemText(items[0], true), Kept(items[1..]));
        Assoc(f.reasoning, ItemText(items[0], false), Produced(Effective(items[1..]), false));
      }
    }
  }

  lemma {:induction false} NothingStopped(items: seq<Item>)
    requires !Stops(items)
    ensures Effective(items) == items && Kept(items) == Produced(items, true)
    decreases |items|
  {
    if items != [] {
      StopsCons(items);
      NothingStopped(items[1..]);
      assert [items[0]] + items[1..] == items;
    }
  }

  lemma {:induction false} OpeningLoop(s: Script, content: bool)
    ensures var f := Ran(s);
            && SoFar(f, content) == Produced(Effective(s.items), content)
            && f.content == Kept(s.items) && f.reasoning == Produced(Effective(s.items), false)
            && |f.b.buffer| < BUFFER_SIZE && (f.stopped <==> Stops(s.items))
  {
    LoopConserves(OPENING, s.items, s.reach, content);
    LoopKeeps(OPENING, s.items, s.reach);
    assert "" + Produced(Effective(s.items), content) == Produced(Effective(s.items), content);
    assert "" + Kept(s.items) == Kept(s.items);
    assert "" + Produced(Effective(s.items), false) == Produced(Effective(s.items), false);
  }

  // ---------- the whole turn ----------

  predicate Final(m: Message) {
    m.ErrorMessage? || m.Complete?
  }

  ghost predicate NoFinal(ms: seq<Message>) {
    forall i :: 0 <= i < |ms| ==> !Final(ms[i])
  }

  lemma {:induction false} LoopHasNoFinal(f: Flow, items: seq<Item>, reach: nat)
    requires NoFinal(f.out)
    ensures NoFinal(TakeAll(f, items, reach).out)
    decreases |items|
  {
    if items != [] && !f.stopped {
      LoopHasNoFinal(Take(f, items[0], reach), items[1..], reach);
    }
  }

  lemma {:induction false} ClosingHasNoFinal(f: Flow, reach: nat)
    requires NoFinal(f.out)
    ensures NoFinal(WithFallback(Flushed(f, reach), reach).out)
  {
  }

  lemma {:induction false} EndsOnce(f: Flow, s: Script)
    requires NoFinal(f.out)
    ensures var t := Ended(f, s);
            && (forall i :: 0 <= i < |t| && Final(t[i]) ==> i == |t| - 1)
            && ((t != [] && Final(t[|t| - 1])) <==>
                !(if f.stopped || s.ending.Finishes? then SaveIsCancelled(f, s.saving) else s.ending.TaskCancelled?))
  {
    ClosingHasNoFinal(f, s.reach);
  }

  lemma {:induction false} FullTurnEndsOnce(s: Script)
    ensures var t := FullSent(s);
            && (forall i :: 0 <= i < |t| && Final(t[i]) ==> i == |t| - 1)
            && ((t != [] && Final(t[|t| - 1])) <==> !EndsCancelled(s))
  {
    if s.setup.Ready? {
      LoopHasNoFinal(OPENING, s.items, s.reach);
      EndsOnce(Ran(s), s);
    }
  }

  /** A turn sends one error or one completion, as its last message, and nothing of the kind exactly
      when its task was cancelled: at a pause, or in sending a message before that one. */
  lemma {:induction false} TurnEndsOnce(s: Script)
    ensures var t := Sent(s);
            && (forall i :: 0 <= i < |t| && Final(t[i]) ==> i == |t| - 1)
            && ((t != [] && Final(t[|t| - 1])) <==> !EndsCancelled(s) && Uncut(s))
  {
    FullTurnEndsOnce(s);
    var full := FullSent(s);
    if !Uncut(s) { assert Sent(s)[s.cutAt - 1] == full[s.cutAt - 1]; }
  }

  /** A send that is cut short only takes messages off the end. */
  lemma {:induction false} CutTurnSendsPrefix(s: Script, content: bool)
    ensures Sent(s) <= Sent(s.(cutAt := 0)) == FullSent(s)
    ensures TextOf(Sent(s), content) <= TextOf(FullSent(s), content)
    ensures Uncut(s) ==> Sent(s) == FullSent(s)
    ensures !Uncut(s) ==> |Sent(s)| == s.cutAt
  {
    SameWithoutCut(s);
    var sent, full := Sent(s), FullSent(s);
    assert full == sent + full[|sent|..];
    TextAppend(sent, full[|sent|..], content);
  }

  lemma {:induction false} UncutSent(s: Script)
    requires s.setup.Ready? && Uncut(s)
    ensures Sent(s) == Ended(Ran(s), s)
  {
    CutTurnSendsPrefix(s, true);
  }

  lemma {:induction false} SameWithoutCut(s: Script)
    ensures FullSent(s.(cutAt := 0)) == FullSent(s)
  {
    assert Ran(s.(cutAt := 0)) == Ran(s);
  }

  lemma {:induction false} FallbackExtendsText(g: Flow, reach: nat, content: bool)
    requires g.b.buffer == ""
    ensures TextOf(WithFallback(g, reach).out, content)
            == TextOf(g.out, content) + if content && Persisted(g).1 then Persisted(g).0 else ""
  {
    NoText(TextOf(g.out, content));
    if Persisted(g).1 {
      WriteExtendsText(g, Persisted(g).0, false, reach, content);
      FlushKeepsText(WriteOut(g, Persisted(g).0, false, reach), reach, content);
    }
  }

  lemma {:induction false} DeliveredText(f: Flow, s: Script, content: bool)
    requires f.stopped || s.ending.Finishes?
    ensures TextOf(Ended(f, s), content) == SoFar(f, content) + if content && Persisted(f).1 then Persisted(f).0 else ""
  {
    var g := Flushed(f, s.reach);
    FlushedOut(f, s.reach);
    FlushKeepsText(f, s.reach, content);
    FallbackExtendsText(g, s.reach, content);
    OutcomeHasNoText(Answered(f, s.reach), f, s.saving, content);
  }

  lemma {:induction false} OutcomeHasNoText(ms: seq<Message>, f: Flow, saving: Saving, content: bool)
    ensures TextOf(ms + Outcome(f, saving), content) == TextOf(ms, content)
  {
    NoText(TextOf(ms, content));
    if Outcome(f, saving) == [] {
      assert ms + [] == ms;
    } else {
      TextSnoc(ms, Outcome(f, saving)[0], content);
    }
  }

  /** A turn that gets through delivers all its text: the content produced, with the marker where it
      was stopped, and the reasoning once more as content if there was no visible content. */
  lemma {:induction false} TurnDelivers(s: Script)
    requires GetsThrough(s) && Uncut(s)
    ensures var f := Ran(s);
            && TextOf(Sent(s), true)
               == Produced(Effective(s.items), true) + (if Persisted(f).1 then Persisted(f).0 else "")
            && TextOf(Sent(s), false) == Produced(Effective(s.items), false)
  {
    DeliveredPart(s, true);
    DeliveredPart(s, false);
    NoText(Produced(Effective(s.items), false));
  }

  lemma {:induction false} DeliveredPart(s: Script, content: bool)
    requires GetsThrough(s) && Uncut(s)
    ensures TextOf(Sent(s), content)
            == Produced(Effective(s.items), content)
               + if content && Persisted(Ran(s)).1 then Persisted(Ran(s)).0 else ""
  {
    UncutSent(s);
    OpeningLoop(s, content);
    DeliveredText(Ran(s), s, content);
  }

  lemma {:induction false} BrokenText(f: Flow, s: Script, content: bool)
    requires !f.stopped && !s.ending.Finishes?
    ensures TextOf(Ended(f, s), content) + (if content then f.b.buffer else "") == SoFar(f, content)
  {
    TextSnoc(f.out, ErrorMessage(CodeProcessingError), content);
    NoText(TextOf(f.out, content));
  }

  lemma {:induction false} LostIsRest(a: string, lost: string, all: string)
    requires a + lost == all
    ensures a == all <==> lost == ""
  {
    NoText(a);
    assert |a + lost| == |a| + |lost|;
  }

  /** The content waiting after an item, told by the items alone: it goes out when it reaches ten
      characters or the flush is due. */
  function WaitingAfter(waiting: string, item: Item): string {
    if item.Reasoning? then waiting
    else if item.cancelled || item.due || |waiting + item.text| >= BUFFER_SIZE then ""
    else waiting + item.text
  }

  function Waiting(waiting: string, items: seq<Item>): string
    decreases |items|
  {
    if items == [] then waiting
    else if items[0].Chunk? && items[0].cancelled then ""
    else Waiting(WaitingAfter(waiting, items[0]), items[1..])
  }

  lemma {:induction false} WaitingIsBuffered(f: Flow, item: Item, reach: nat)
    ensures Take(f, item, reach).b.buffer == WaitingAfter(f.b.buffer, item)
  {
    if item.Chunk? {
      WrittenOut(f, Shown(item).text, item.due, reach);
      FlushedOut(WriteOut(f, STOP_MARKER, item.due, reach), reach);
    }
  }

  lemma {:induction false} WaitingIsBuffer(f: Flow, items: seq<Item>, reach: nat)
    requires !f.stopped
    ensures TakeAll(f, items, reach).b.buffer == Waiting(f.b.buffer, items)
    decreases |items|
  {
    if items != [] {
      var g := Take(f, items[0], reach);
      WaitingIsBuffered(f, items[0], reach);
      if !g.stopped { WaitingIsBuffer(g, items[1..], reach); }
    }
  }

  /** A turn that breaks off does not flush: it loses exactly the content waiting after the last
      flush, fewer than ten characters, so everything arrives if and only if nothing is waiting. */
  lemma {:induction false} BrokenTurnLosesWaiting(s: Script)
    requires s.setup.Ready? && !GetsThrough(s) && Uncut(s)
    ensures var lost := Waiting("", s.items);
            && TextOf(Sent(s), true) + lost == Produced(s.items, true) && |lost| < BUFFER_SIZE
            && (TextOf(Sent(s), true) == Produced(s.items, true) <==> lost == "")
            && TextOf(Sent(s), false) == Produced(s.items, false)
  {
    WaitingIsBuffer(OPENING, s.items, s.reach);
    BrokenPart(s, true);
    BrokenPart(s, false);
    NoText(TextOf(Sent(s), false));
    LostIsRest(TextOf(Sent(s), true), Ran(s).b.buffer, Produced(s.items, true));
  }

  lemma {:induction false} BrokenPart(s: Script, content: bool)
    requires s.setup.Ready? && !GetsThrough(s) && Uncut(s)
    ensures TextOf(Sent(s), content) + (if content then Ran(s).b.buffer else "") == Produced(s.items, content)
    ensures |Ran(s).b.buffer| < BUFFER_SIZE
  {
    UncutSent(s);
    OpeningLoop(s, content);
    NothingStopped(s.items);
    BrokenText(Ran(s), s, content);
  }

  // ---------- how the turn ends, and when the answer is stored ----------

  /** There is an answer to save: visible content before a stop, or visible reasoning. */
  predicate HasAnswer(items: seq<Item>) {
    Strip(Kept(items)) != "" || Strip(Produced(Effective(items), false)) != ""
  }

  /** The agent loop is left the normal way: it ended, or it was stopped. */
  ghost predicate LoopCompletes(s: Script) {
    s.setup.Ready? && (Stops(s.items) || s.ending.Finishes?)
  }

  ghost predicate EndsIn(ms: seq<Message>, m: Message) {
    ms != [] && ms[|ms| - 1] == m
  }

  lemma {:induction false} HasAnswerIff(s: Script)
    ensures Persisted(Ran(s)).0 != "" <==> HasAnswer(s.items)
    ensures GetsThrough(s) <==> LoopCompletes(s)
  {
    OpeningLoop(s, true);
  }

  /** Which message comes last, if no send is cut short.  The completion: exactly if the loop completes and,
      where there is an answer, saving it goes well to the end. */
  lemma {:induction false} TurnCompletesIff(s: Script)
    requires Uncut(s)
    ensures EndsIn(Sent(s), Complete) <==> LoopCompletes(s) && (HasAnswer(s.items) ==> s.saving.Saved?)
  {
    if s.setup.Ready? { ReadyCompletesIff(s); }
  }

  lemma {:induction false} ReadyCompletesIff(s: Script)
    requires Uncut(s) && s.setup.Ready?
    ensures EndsIn(Sent(s), Complete) <==> LoopCompletes(s) && (HasAnswer(s.items) ==> s.saving.Saved?)
  {
    HasAnswerIff(s);
    LoopHasNoFinal(OPENING, s.items, s.reach);
    ClosingHasNoFinal(Ran(s), s.reach);
    UncutSent(s);
  }

  /** The errors before the agent runs, each with its code. */
  lemma {:induction false} SetupFailsIff(s: Script)
    requires Uncut(s)
    ensures EndsIn(Sent(s), ErrorMessage(CodeInvalidMessage)) <==> s.setup.InvalidMessage?
    ensures EndsIn(Sent(s), ErrorMessage(CodeSessionNotFound)) <==> s.setup.SessionMissing?
    ensures EndsIn(Sent(s), ErrorMessage(CodeInvalidAttachment)) <==> s.setup.BadAttachment?
    ensures EndsIn(Sent(s), ErrorMessage(CodeProviderUnavailable)) <==> s.setup.ProviderUnavailable?
    ensures EndsIn(Sent(s), ErrorMessage(CodeDatabaseError)) <==> s.setup.UserNotSaved?
  {
    if s.setup.Ready? { ReadyErrors(s); }
  }

  /** The processing error. */
  lemma {:induction false} TurnFailsIff(s: Script)
    requires Uncut(s)
    ensures EndsIn(Sent(s), ErrorMessage(CodeProcessingError)) <==>
              || s.setup.BindRaises? || s.setup.SetupRaises?
              || (s.setup.Ready? && !LoopCompletes(s) && s.ending.Raises?)
              || (LoopCompletes(s) && HasAnswer(s.items) && (s.saving.SavingRaises? || s.saving.RaisesAfterSaving?))
  {
    HasAnswerIff(s);
    if s.setup.Ready? { ReadyErrors(s); }
  }

  lemma {:induction false} ReadyErrors(s: Script)
    requires s.setup.Ready? && Uncut(s)
    ensures forall code :: EndsIn(Sent(s), ErrorMessage(code)) ==> code == CodeProcessingError
    ensures EndsIn(Sent(s), ErrorMessage(CodeProcessingError)) <==>
              if GetsThrough(s)
              then Persisted(Ran(s)).0 != "" && (s.saving.SavingRaises? || s.saving.RaisesAfterSaving?)
              else s.ending.Raises?
  {
    LoopHasNoFinal(OPENING, s.items, s.reach);
    ClosingHasNoFinal(Ran(s), s.reach);
    UncutSent(s);
  }

  /** When the answer is stored.  A turn that sends its completion stored exactly an answer that is there.
      A turn that ends otherwise stored it exactly if the saving had returned: what failed came after it. */
  lemma {:induction false} StoredIff(s: Script)
    ensures EndsIn(Sent(s), Complete) ==> (Stored(s).Some? <==> HasAnswer(s.items))
    ensures !EndsIn(Sent(s), Complete) ==>
              (Stored(s).Some? <==>
                 && LoopCompletes(s) && HasAnswer(s.items)
                 && (|| (s.saving.RaisesAfterSaving? && EndsIn(Sent(s), ErrorMessage(CodeProcessingError)))
                     || (s.saving.CancelledAfterSaving? && !CutShort(FullSent(s), s.cutAt))))
  {
    HasAnswerIff(s);
    LoopHasNoFinal(OPENING, s.items, s.reach);
    ClosingHasNoFinal(Ran(s), s.reach);
    if s.setup.Ready? { StoredEnds(s, Answered(Ran(s), s.reach)); }
  }

  lemma {:induction false} StoredEnds(s: Script, answered: seq<Message>)
    requires s.setup.Ready? && answered == Answered(Ran(s), s.reach) && NoFinal(answered) && NoFinal(Ran(s).out)
    requires (Persisted(Ran(s)).0 != "" <==> HasAnswer(s.items)) && (GetsThrough(s) <==> LoopCompletes(s))
    ensures EndsIn(Sent(s), Complete) ==> (Stored(s).Some? <==> HasAnswer(s.items))
    ensures !EndsIn(Sent(s), Complete) ==>
              (Stored(s).Some? <==>
                 && LoopCompletes(s) && HasAnswer(s.items)
                 && (|| (s.saving.RaisesAfterSaving? && EndsIn(Sent(s), ErrorMessage(CodeProcessingError)))
                     || (s.saving.CancelledAfterSaving? && !CutShort(FullSent(s), s.cutAt))))
  {
    if GetsThrough(s) {
      StoredWhenThrough(s, answered);
    } else if s.ending.Raises? {
      assert FullSent(s) == Ran(s).out + [ErrorMessage(CodeProcessingError)];
    } else {
      assert FullSent(s) == Ran(s).out;
    }
  }

  lemma {:induction false} StoredWhenThrough(s: Script, answered: seq<Message>)
    requires s.setup.Ready? && answered == Answered(Ran(s), s.reach) && NoFinal(answered) && GetsThrough(s)
    ensures EndsIn(Sent(s), Complete) ==> (Stored(s).Some? <==> Persisted(Ran(s)).0 != "")
    ensures !EndsIn(Sent(s), Complete) ==>
              (Stored(s).Some? <==>
                 && Persisted(Ran(s)).0 != ""
                 && (|| (s.saving.RaisesAfterSaving? && EndsIn(Sent(s), ErrorMessage(CodeProcessingError)))
                     || (s.saving.CancelledAfterSaving? && !CutShort(FullSent(s), s.cutAt))))
  {
    assert FullSent(s) == answered + Outcome(Ran(s), s.saving);
  }

  /** What is stored against what was delivered: without a stop, the delivered content stripped; after
      a stop, the content before the marker; for a reasoning-only answer, the text sent last. */
  lemma {:induction false} StoredAgainstDelivered(s: Script)
    requires Stored(s).Some?
    ensures var delivered := TextOf(Sent(s), true); var stored := Stored(s).value;
            && stored != ""
            && (Strip(Kept(s.items)) == "" ==>
                  stored == Strip(TextOf(Sent(s), false)) && delivered == Produced(Effective(s.items), true) + stored)
            && (Strip(Kept(s.items)) != "" ==>
                  stored == Strip(Kept(s.items)) && (!Stops(s.items) ==> stored == Strip(delivered)))
  {
    StoredIsUncut(s);
    OpeningLoop(s, true);
    TurnDelivers(s);
    NoText(Produced(Effective(s.items), true));
    if !Stops(s.items) { NothingStopped(s.items); }
  }

  lemma {:induction false} StoredIsUncut(s: Script)
    requires Stored(s).Some?
    ensures Uncut(s)
  {
    assert |Outcome(Ran(s), s.saving)| <= 1;
    assert |FullSent(s)| == |Answered(Ran(s), s.reach)| + |Outcome(Ran(s), s.saving)|;
  }

  // ---------- nothing is lost, but reasoning may overtake ----------

  /** Text character by character with its kind: true for content. */
  function Chars(content: bool, t: string): seq<(bool, char)> {
    seq(|t|, i requires 0 <= i < |t| => (content, t[i]))
  }

  function MessageChars(m: Message): seq<(bool, char)> {
    match m
    case ReasoningMessage(t) => Chars(false, t)
    case ContentMessage(t) => Chars(true, t)
    case _ => []
  }

  function CharsOf(ms: seq<Message>): seq<(bool, char)> {
    if ms == [] then [] else MessageChars(ms[0]) + CharsOf(ms[1..])
  }

  function ItemChars(items: seq<Item>): seq<(bool, char)> {
    if items == [] then [] else Chars(items[0].Chunk?, items[0].text) + ItemChars(items[1..])
  }

  /** The characters handed over, then those in the buffer. */
  function Stream(f: Flow): seq<(bool, char)> {
    CharsOf(f.out) + Chars(true, f.b.buffer)
  }

  /** No reasoning arrives while content is waiting. */
  predicate ReasoningFindsNothingWaiting(waiting: string, items: seq<Item>)
    decreases |items|
  {
    items == [] ||
    (&& (items[0].Reasoning? && items[0].text != "" ==> waiting == "")
     && (|| (items[0].Chunk? && items[0].cancelled)
         || ReasoningFindsNothingWaiting(WaitingAfter(waiting, items[0]), items[1..])))
  }

  lemma {:induction false} CharsAppend(a: seq<Message>, b: seq<Message>)
    ensures CharsOf(a + b) == CharsOf(a) + CharsOf(b)
    decreases |a|
  {
    if a == [] {
      assert a + b == b;
    } else {
      assert (a + b)[1..] == a[1..] + b;
      CharsAppend(a[1..], b);
    }
  }

  lemma {:induction false} CharsSnoc(ms: seq<Message>, m: Message)
    ensures CharsOf(ms + [m]) == CharsOf(ms) + MessageChars(m)
  {
    CharsAppend(ms, [m]);
    assert [m][1..] == [] && MessageChars(m) + [] == MessageChars(m);
  }

  lemma {:induction false} CharsJoin(t: string, u: string)
    ensures Chars(true, t + u) == Chars(true, t) + Chars(true, u)
  {
  }

  lemma {:induction false} HandOverChars(out: seq<Message>, t: string)
    ensures CharsOf(out + if t == "" then [] else [ContentMessage(t)]) == CharsOf(out) + Chars(true, t)
  {
    assert out + [] == out && CharsOf(out) + [] == CharsOf(out) && Chars(true, "") == [];
    CharsSnoc(out, ContentMessage(t));
  }

  lemma {:induction false} FlushStream(f: Flow, reach: nat)
    ensures Stream(Flushed(f, reach)) == Stream(f) == CharsOf(Flushed(f, reach).out)
  {
    FlushedOut(f, reach);
    HandOverChars(f.out, f.b.buffer);
    NoChars(CharsOf(Flushed(f, reach).out));
  }

  lemma {:induction false} NoChars(cs: seq<(bool, char)>)
    ensures cs + Chars(true, "") == cs
  {
  }

  lemma {:induction false} WriteStream(f: Flow, text: string, due: bool, reach: nat)
    ensures Stream(WriteOut(f, text, due, reach)) == Stream(f) + Chars(true, text)
  {
    var t := f.b.buffer + text;
    WrittenOut(f, text, due, reach);
    HandOverChars(f.out, t);
    CharsJoin(f.b.buffer, text);
    AssocChars(CharsOf(f.out), Chars(true, f.b.buffer), Chars(true, text));
    NoChars(CharsOf(f.out) + Chars(true, t));
  }

  lemma {:induction false} TakeStream(f: Flow, item: Item, reach: nat)
    requires item.Reasoning? && item.text != "" ==> f.b.buffer == ""
    ensures Stream(Take(f, item, reach)) == Stream(f) + Chars(item.Chunk?, Shown(item).text)
  {
    match item
    case Reasoning(t) =>
      CharsSnoc(f.out, ReasoningMessage(t));
      assert Chars(false, "") == [] && Chars(true, "") == [];
    case Chunk(t, cancelled, due) =>
      WriteStream(f, Shown(item).text, due, reach);
      if cancelled { FlushStream(WriteOut(f, STOP_MARKER, due, reach), reach); }
  }

  lemma {:induction false} OutGrows(f: Flow, items: seq<Item>, reach: nat)
    ensures f.out <= TakeAll(f, items, reach).out
    decreases |items|
  {
    if items != [] && !f.stopped { OutGrows(Take(f, items[0], reach), items[1..], reach); }
  }

  /** Once reasoning is handed over before waiting content, the order is wrong for good. */
  lemma {:induction false} OvertakenForGood(f: Flow, items: seq<Item>, reach: nat, t: string, rest: seq<(bool, char)>)
    requires t != "" && f.b.buffer != ""
    ensures var g := f.(out := f.out + [ReasoningMessage(t)]).(reasoning := f.reasoning + t);
            CharsOf(Flushed(TakeAll(g, items, reach), reach).out)
            != Stream(f) + rest
  {
    var g := f.(out := f.out + [ReasoningMessage(t)]).(reasoning := f.reasoning + t);
    var last := Flushed(TakeAll(g, items, reach), reach).out;
    OutGrows(g, items, reach);
    assert g.out <= last;
    assert last == g.out + last[|g.out|..];
    CharsAppend(g.out, last[|g.out|..]);
    CharsSnoc(f.out, ReasoningMessage(t));
    assert CharsOf(last)[|CharsOf(f.out)|] == (false, t[0]);
    assert (Stream(f) + rest)[|CharsOf(f.out)|] == (true, f.b.buffer[0]);
  }

  lemma {:induction false} ItemCharsCons(items: seq<Item>)
    requires items != []
    ensures ItemChars(Effective(items)) ==
            Chars(items[0].Chunk?, Shown(items[0]).text)
            + if items[0].Chunk? && items[0].cancelled then [] else ItemChars(Effective(items[1..]))
  {
    assert Effective(items)[1..] == if items[0].Chunk? && items[0].cancelled then [] else Effective(items[1..]);
  }

  lemma {:induction false} AssocChars(a: seq<(bool, char)>, b: seq<(bool, char)>, c: seq<(bool, char)>)
    ensures a + b + c == a + (b + c)
  {
  }

  lemma {:induction false} LoopOrderIff(f: Flow, items: seq<Item>, reach: nat)
    requires !f.stopped
    ensures CharsOf(Flushed(TakeAll(f, items, reach), reach).out) == Stream(f) + ItemChars(Effective(items))
            <==> ReasoningFindsNothingWaiting(f.b.buffer, items)
    decreases |items|
  {
    if items == [] {
      FlushStream(f, reach);
      assert Stream(f) + [] == Stream(f);
    } else if items[0].Reasoning? && items[0].text != "" && f.b.buffer != "" {
      OvertakenForGood(f, items[1..], reach, items[0].text, ItemChars(Effective(items)));
    } else {
      var g := Take(f, items[0], reach);
      TakeStream(f, items[0], reach);
      WaitingIsBuffered(f, items[0], reach);
      ItemCharsCons(items);
      if g.stopped {
        FlushStream(g, reach);
        assert Chars(items[0].Chunk?, Shown(items[0]).text) + [] == Chars(items[0].Chunk?, Shown(items[0]).text);
      } else {
        LoopOrderIff(g, items[1..], reach);
        AssocChars(Stream(f), Chars(items[0].Chunk?, Shown(items[0]).text), ItemChars(Effective(items[1..])));
      }
    }
  }

  /** The reasoning a turn repeats as content when there is no visible content. */
  function FallbackChars(f: Flow): seq<(bool, char)> {
    if Persisted(f).1 then Chars(true, Persisted(f).0) else []
  }

  /** Content and reasoning arrive in the order they were produced, then the repeated reasoning if
      there is any, if and only if no reasoning arrives while content is waiting.  (The SSE stream keeps
      the order always.) */
  lemma {:induction false} TurnOrderIff(s: Script)
    requires GetsThrough(s) && Uncut(s)
    ensures CharsOf(Sent(s)) == ItemChars(Effective(s.items)) + FallbackChars(Ran(s))
            <==> ReasoningFindsNothingWaiting("", s.items)
  {
    UncutSent(s);
    ClosingChars(Ran(s), s);
    EmptyStartOrderIff(OPENING, s.items, s.reach);
    CancelRight(CharsOf(Ended(Ran(s), s)), CharsOf(Flushed(Ran(s), s.reach).out), ItemChars(Effective(s.items)),
                FallbackChars(Ran(s)));
  }

  lemma {:induction false} CancelRight(all: seq<(bool, char)>, a: seq<(bool, char)>, b: seq<(bool, char)>,
                                       c: seq<(bool, char)>)
    requires all == a + c
    ensures all == b + c <==> a == b
  {
    if all == b + c {
      assert |a| == |b|;
      assert all[..|a|] == a && (b + c)[..|b|] == b;
    }
  }

  lemma {:induction false} ClosingChars(f: Flow, s: Script)
    requires f.stopped || s.ending.Finishes?
    ensures CharsOf(Ended(f, s)) == CharsOf(Flushed(f, s.reach).out) + FallbackChars(f)
  {
    var g := Flushed(f, s.reach);
    FlushedOut(f, s.reach);
    AnsweredChars(g, s.reach);
    LastAddsNothing(Answered(f, s.reach), Outcome(f, s.saving));
  }

  lemma {:induction false} AnsweredChars(g: Flow, reach: nat)
    requires g.b.buffer == ""
    ensures CharsOf(WithFallback(g, reach).out) == CharsOf(g.out) + FallbackChars(g)
  {
    if Persisted(g).1 {
      WriteStream(g, Persisted(g).0, false, reach);
      FlushStream(WriteOut(g, Persisted(g).0, false, reach), reach);
      NoChars(CharsOf(g.out));
    } else {
      assert CharsOf(g.out) + [] == CharsOf(g.out);
    }
  }

  lemma {:induction false} EmptyStartOrderIff(f: Flow, items: seq<Item>, reach: nat)
    requires !f.stopped && f.out == [] && f.b.buffer == ""
    ensures CharsOf(Flushed(TakeAll(f, items, reach), reach).out) == ItemChars(Effective(items))
            <==> ReasoningFindsNothingWaiting("", items)
  {
    LoopOrderIff(f, items, reach);
    assert Stream(f) == [];
    NothingBefore(ItemChars(Effective(items)));
  }

  lemma {:induction false} NothingBefore(cs: seq<(bool, char)>)
    ensures [] + cs == cs
  {
  }

  lemma {:induction false} LastAddsNothing(ms: seq<Message>, last: seq<Message>)
    requires |last| <= 1 && OnlyFinal(last)
    ensures CharsOf(ms + last) == CharsOf(ms)
  {
    assert CharsOf(ms) + [] == CharsOf(ms);
    if last == [] {
      assert ms + last == ms;
    } else {
      assert last == [last[0]];
      CharsSnoc(ms, last[0]);
    }
  }

  ghost predicate OnlyFinal(ms: seq<Message>) {
    forall i :: 0 <= i < |ms| ==> Final(ms[i])
  }

  /** Two items are enough: a short chunk, then reasoning, arrive the other way round. */
  lemma {:induction false} ReasoningCanOvertake(s: Script)
    requires s.setup.Ready? && s.ending.Finishes? && s.saving.Saved? && s.cutAt == 0
    requires s.items == [Chunk("Hi", false, false), Reasoning("so")]
    ensures Sent(s) == [ReasoningMessage("so"), ContentMessage("Hi"), Complete]
  {
    var f1 := Take(OPENING, s.items[0], s.reach);
    var f2 := Take(f1, s.items[1], s.reach);
    HiWaits(OPENING, s.reach);
    TwoItems(s, f1, f2);
    HiAnswer(f2, s);
  }

  lemma {:induction false} HiWaits(f: Flow, reach: nat)
    requires f.b.buffer == "" && f.content == "" && f.out == []
    ensures var f1 := Take(f, Chunk("Hi", false, false), reach); var f2 := Take(f1, Reasoning("so"), reach);
            && f1.stopped == f.stopped
            && f2.content == "Hi" && f2.b.buffer == "Hi" && f2.out == [ReasoningMessage("so")]
  {
    WrittenOut(f, "Hi", false, reach);
    assert "" + "Hi" == "Hi";
  }

  lemma {:induction false} HiAnswer(f: Flow, s: Script)
    requires f.content == "Hi" && f.b.buffer == "Hi" && f.out == [ReasoningMessage("so")]
    requires s.ending.Finishes? && s.saving.Saved?
    ensures Ended(f, s) == [ReasoningMessage("so"), ContentMessage("Hi"), Complete]
  {
    assert Strip("Hi") == "Hi";
    FlushedOut(f, s.reach);
    assert Persisted(Flushed(f, s.reach)) == ("Hi", false);
  }

  lemma {:induction false} TwoItems(s: Script, f1: Flow, f2: Flow)
    requires |s.items| == 2 && f1 == Take(OPENING, s.items[0], s.reach) && f2 == Take(f1, s.items[1], s.reach)
    requires !f1.stopped
    ensures Ran(s) == f2
  {
    assert s.items[1..] == [s.items[1]] && [s.items[1]][1..] == [];
    assert TakeAll(f2, [], s.reach) == f2 && TakeAll(f1, s.items[1..], s.reach) == f2;
  }

  // ---------- the handler ----------

  /** How the handler's body ends: normally, by an exception, or by `CancelledError`. */
  datatype Exit = Completed | Failed | CancelledExit

  class MessageHandler {
    const script: Script
    const streaming: BufferedStreamingHandler
    ghost var out: seq<Message>
    var stored: Option<string>
    var assistantContent: string
    var assistantReasoning: string
    var turnGateAcquired: bool
    var gateHeld: bool
    var tokenRegistered: bool
    var tokenInUse: bool
    var sends: nat                    // how many messages have been handed over

    constructor (script: Script)
      ensures this.script == script && fresh(streaming)
      ensures Untouched()
    {
      this.script := script;
      streaming := new BufferedStreamingHandler(BUFFER_SIZE);
      out, sends, stored, assistantContent, assistantReasoning := [], 0, None, "", "";
      turnGateAcquired, gateHeld, tokenRegistered, tokenInUse := false, false, false, false;
    }

    ghost predicate Untouched()
      reads this, streaming
    {
      && View(false) == OPENING && streaming.bufferSize == BUFFER_SIZE && stored == None && sends == 0
      && !turnGateAcquired && !gateHeld && !tokenRegistered && !tokenInUse
    }

    ghost function View(stopped: bool): Flow
      reads this, streaming
    {
      Flow(streaming.View(), out, assistantContent, assistantReasoning, stopped)
    }

    /** The handler works normally, and no send has been cut short so far. */
    ghost predicate Going()
      reads this, streaming
    {
      && streaming.bufferSize == BUFFER_SIZE && Settled(streaming.View(), BUFFER_SIZE)
      && sends == |out| && !CutShort(out, script.cutAt)
    }

    /** Hands one message over; `cancelled` when the task is cancelled in sending it. */
    method Send(m: Message) returns (cancelled: bool)
      requires sends == |out| && !CutShort(out, script.cutAt)
      modifies this`out, this`sends
      ensures out == old(out) + [m] && sends == |out|
      ensures cancelled == CutShort(out, script.cutAt) == (|out| == script.cutAt)
    {
      out := out + [m];
      sends := sends + 1;
      cancelled := sends == script.cutAt;
    }

    method Write(text: string, due: bool) returns (cancelled: bool)
      requires Going()
      modifies this`out, this`sends, streaming
      ensures forall stopped :: View(stopped) == WriteOut(old(View(stopped)), text, due, script.reach)
      ensures if cancelled then 0 < |out| == script.cutAt else Going()
    {
      WrittenOut(View(false), text, due, script.reach);
      var before := streaming.buffer;
      ghost var sent := streaming.sent;
      streaming.Write(text, due, script.reach);
      cancelled := false;
      if before + text != "" && streaming.buffer == "" {
        cancelled := Send(ContentMessage(before + text));
      }
      assert streaming.sent[|sent|..] == if before + text != "" && streaming.buffer == "" then [before + text] else [];
    }

    method Flush() returns (cancelled: bool)
      requires Going()
      modifies this`out, this`sends, streaming
      ensures forall stopped :: View(stopped) == Flushed(old(View(stopped)), script.reach)
      ensures if cancelled then 0 < |out| == script.cutAt else Going()
    {
      var before := streaming.buffer;
      ghost var sent := streaming.sent;
      var _ := streaming.Flush(script.reach);
      cancelled := false;
      if before != "" {
        cancelled := Send(ContentMessage(before));
      }
      assert streaming.sent[|sent|..] == if before != "" then [before] else [];
    }

    /** The body of the `async for` over `process_message`, and the reasoning callback. */
    method TakeItem(item: Item) returns (stopped: bool, cancelled: bool)
      requires Going()
      modifies this`out, this`sends, this`assistantContent, this`assistantReasoning, streaming
      ensures cancelled ==> out <= Take(old(View(false)), item, script.reach).out && 0 < |out| == script.cutAt
      ensures !cancelled ==> View(stopped) == Take(old(View(false)), item, script.reach) && Going()
    {
      stopped, cancelled := false, false;
      ghost var f := View(false);
      match item {
        case Reasoning(t) =>
          assistantReasoning := assistantReasoning + t;
          cancelled := Send(ReasoningMessage(t));
        case Chunk(t, tokenCancelled, due) =>
          if tokenCancelled {
            FlushedOut(WriteOut(f, STOP_MARKER, due, script.reach), script.reach);
            cancelled := Write(STOP_MARKER, due);
            assert View(false) == WriteOut(f, STOP_MARKER, due, script.reach);
            if !cancelled {
              cancelled := Flush();
              stopped := true;
            }
          } else {
            assistantContent := assistantContent + t;
            cancelled := Write(t, due);
            assert View(false) == Take(f, item, script.reach);
          }
      }
    }

    /** The `async for` over `process_message`. */
    method Loop() returns (stopped: bool, cancelled: bool)
      requires Going() && View(false) == OPENING
      modifies this`out, this`sends, this`assistantContent, this`assistantReasoning, streaming
      ensures cancelled ==> out <= Ran(script).out && 0 < |out| == script.cutAt
      ensures !cancelled ==> View(stopped) == Ran(script) && Going()
    {
      stopped, cancelled := false, false;
      var i := 0;
      while i < |script.items| && !stopped
        invariant 0 <= i <= |script.items|
        invariant Going()
        invariant TakeAll(View(stopped), script.items[i..], script.reach) == Ran(script)
      {
        assert script.items[i..][1..] == script.items[i + 1..];
        ghost var next := Take(View(false), script.items[i], script.reach);
        OutGrows(next, script.items[i + 1..], script.reach);
        stopped, cancelled := TakeItem(script.items[i]);
        if cancelled {
          return;
        }
        i := i + 1;
      }
    }

    /** The reasoning-only answer goes out as content. */
    method SendFallback(text: string) returns (cancelled: bool)
      requires Going()
      modifies this`out, this`sends, streaming
      ensures var all := Flushed(WriteOut(old(View(false)), text, false, script.reach), script.reach).out;
              if cancelled then out <= all && 0 < |out| == script.cutAt else out == all && Going()
    {
      FlushedOut(WriteOut(View(false), text, false, script.reach), script.reach);
      cancelled := Write(text, false);
      if !cancelled {
        cancelled := Flush();
      }
    }

    /** `_persist_ws_exchange`. */
    method Persist() returns (exit: Exit)
      requires Going() && stored == None
      modifies this`out, this`sends, this`stored, streaming
      ensures var f, s := old(View(false)), script; var all := WithFallback(f, s.reach).out;
              var full := all + Outcome(f, s.saving);
              && (exit.Failed? ==> Going() && out == all && Outcome(f, s.saving) == [ErrorMessage(CodeProcessingError)])
              && (exit.Completed? ==> out == full && !CutShort(full, s.cutAt) && !SaveIsCancelled(f, s.saving))
              && (exit.CancelledExit? ==>
                    out == Cut(full, s.cutAt) && (CutShort(full, s.cutAt) || SaveIsCancelled(f, s.saving)))
              && stored == if Persisted(f).0 != "" && IsStored(s.saving) && !CutShort(all, s.cutAt)
                           then Some(Persisted(f).0) else None
    {
      ghost var f := View(false);
      ghost var all := WithFallback(f, script.reach).out;
      var content, reasoning := Strip(assistantContent), Strip(assistantReasoning);
      var persisted := if content != "" then content else reasoning;
      if content == "" && reasoning != "" {
        var cancelled := SendFallback(persisted);
        if cancelled {
          OutIsCut(out, all, all + Outcome(f, script.saving), script.cutAt);
          return CancelledExit;
        }
      }
      assert out == all;
      if persisted != "" {
        if IsStored(script.saving) {
          stored := Some(persisted);
        }
        if script.saving.SavingRaises? || script.saving.RaisesAfterSaving? {
          return Failed;
        }
        if script.saving.SavingCancelled? || script.saving.CancelledAfterSaving? {
          assert all + [] == all;
          return CancelledExit;
        }
      }
      var cancelled := Send(Complete);
      return if cancelled then CancelledExit else Completed;
    }

    /** The turn from the gate on, up to the `except` branches. */
    method Body() returns (exit: Exit)
      requires script.setup.Ready? && Going() && View(false) == OPENING && stored == None
      modifies this`out, this`sends, this`stored, this`assistantContent, this`assistantReasoning, streaming
      ensures exit.Failed? ==>
        Going() && FullSent(script) == out + [ErrorMessage(CodeProcessingError)] && !EndsCancelled(script)
      ensures !exit.Failed? ==> out == Sent(script)
      ensures !exit.Failed? ==>
        (exit.CancelledExit? <==> CutShort(FullSent(script), script.cutAt) || EndsCancelled(script))
      ensures stored == Stored(script)
    {
      RanIsPrefix(script);
      var stopped, cancelled := Loop();
      if cancelled {
        OutIsCut(out, Ran(script).out, FullSent(script), script.cutAt);
        return CancelledExit;
      }
      if !stopped && !script.ending.Finishes? {
        return if script.ending.Raises? then Failed else CancelledExit;
      }
      cancelled := Flush();
      if cancelled {
        OutIsCut(out, Flushed(Ran(script), script.reach).out, FullSent(script), script.cutAt);
        return CancelledExit;
      }
      SameAnswer(Ran(script), script.reach);
      exit := Persist();
    }

    /** The whole handler, `except` and `finally` included: the gate is held by nobody and the token is
        out of use on every exit, and they were taken exactly on the exits that lie behind them.
        `cancelled`: it ends with `CancelledError`. */
    method Run() returns (cancelled: bool)
      requires Untouched()
      modifies this, streaming
      ensures out == Sent(script) && stored == Stored(script)
      ensures cancelled <==> EndsCancelled(script) || CutShort(FullSent(script), script.cutAt)
      ensures !gateHeld && (turnGateAcquired <==> script.setup.UserNotSaved? || script.setup.Ready?)
      ensures !tokenInUse
      ensures tokenRegistered <==>
        !(script.setup.InvalidMessage? || script.setup.BindRaises? || script.setup.BindCancelled?)
    {
      if script.setup.InvalidMessage? {
        cancelled := Send(ErrorMessage(CodeInvalidMessage));
        return;
      }
      tokenRegistered := !script.setup.BindRaises? && !script.setup.BindCancelled?;
      tokenInUse := tokenRegistered;
      match script.setup {
        case BindRaises => cancelled := Send(ErrorMessage(CodeProcessingError));
        case BindCancelled => cancelled := true;
        case SessionMissing => cancelled := Send(ErrorMessage(CodeSessionNotFound));
        case BadAttachment => cancelled := Send(ErrorMessage(CodeInvalidAttachment));
        case ProviderUnavailable => cancelled := Send(ErrorMessage(CodeProviderUnavailable));
        case SetupRaises => cancelled := Send(ErrorMessage(CodeProcessingError));
        case WaitCancelled => cancelled := true;
        case UserNotSaved =>
          turnGateAcquired, gateHeld := true, true;
          cancelled := Send(ErrorMessage(CodeDatabaseError));
        case Ready =>
          turnGateAcquired, gateHeld := true, true;
          var exit := Body();
          cancelled := exit.CancelledExit?;
          if exit.Failed? {
            cancelled := Send(ErrorMessage(CodeProcessingError));
          }
      }
      if turnGateAcquired {
        gateHeld := false;
      }
      if tokenRegistered {
        tokenInUse := false;
      }
    }
  }

  lemma {:induction false} OutIsCut(out: seq<Message>, part: seq<Message>, full: seq<Message>, at: nat)
    requires out <= part <= full && 0 < |out| == at
    ensures out == Cut(full, at) && CutShort(part, at) && CutShort(full, at)
  {
  }

  /** What the loop sends comes first, then the last flush, then the rest of the answer. */
  lemma {:induction false} RanIsPrefix(s: Script)
    requires s.setup.Ready?
    ensures Ran(s).out <= FullSent(s)
    ensures GetsThrough(s) ==>
      Ran(s).out <= Flushed(Ran(s), s.reach).out <= Answered(Ran(s), s.reach) <= FullSent(s)
  {
    if GetsThrough(s) { EndedGrows(Ran(s), s); }
  }

  lemma {:induction false} EndedGrows(f: Flow, s: Script)
    requires f.stopped || s.ending.Finishes?
    ensures f.out <= Flushed(f, s.reach).out <= Answered(f, s.reach) <= Ended(f, s)
  {
    FlushedOut(f, s.reach);
    FallbackGrows(Flushed(f, s.reach), s.reach);
  }

  lemma {:induction false} FallbackGrows(g: Flow, reach: nat)
    ensures g.out <= WithFallback(g, reach).out
  {
    if Persisted(g).1 { FlushedOut(WriteOut(g, Persisted(g).0, false, reach), reach); }
  }

  /** The last flush and the flag do not change the answer. */
  lemma {:induction false} SameAnswer(f: Flow, reach: nat)
    ensures var g := Flushed(f.(stopped := false), reach);
            && Persisted(g) == Persisted(f)
            && WithFallback(g, reach).out == Answered(f, reach)
  {
  }
}
