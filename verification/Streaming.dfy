/** The chunkers of backend/ws/streaming.py.  `send_message_chunk` reports how many connections got
    the chunk, and the clock decides whether a flush is due: both are choices of the environment. */
module Streaming {
  import opened Text

  // ---------- buffered streaming ----------

  /** `sent` are the chunks handed to `send_message_chunk`, in order. */
  datatype Buffered = Buffered(buffer: string, sent: seq<string>, totalSent: nat, flushCount: nat)

  const EMPTY := Buffered("", [], 0, 0)

  function FlushStep(b: Buffered, count: nat): (r: Buffered)
    ensures b.sent <= r.sent
  {
    if b.buffer == "" then b
    else Buffered("", b.sent + [b.buffer],
                  b.totalSent + (if count > 0 then |b.buffer| else 0), b.flushCount + if count > 0 then 1 else 0)
  }

  function WriteStep(b: Buffered, text: string, bufferSize: int, due: bool, count: nat): (r: Buffered)
    ensures b.sent <= r.sent
  {
    var b1 := b.(buffer := b.buffer + text);
    if |b1.buffer| >= bufferSize || due then FlushStep(b1, count) else b1
  }

  datatype Use = Write(text: string, due: bool, count: nat) | Flush(count: nat)

  function UseStep(b: Buffered, u: Use, bufferSize: int): Buffered {
    match u
    case Write(text, due, count) => WriteStep(b, text, bufferSize, due, count)
    case Flush(count) => FlushStep(b, count)
  }

  function AfterUses(b: Buffered, us: seq<Use>, bufferSize: int): Buffered
    decreases |us|
  {
    if us == [] then b else AfterUses(UseStep(b, us[0], bufferSize), us[1..], bufferSize)
  }

  function Written(us: seq<Use>): string {
    if us == [] then "" else (if us[0].Write? then us[0].text else "") + Written(us[1..])
  }

  /** Everything handed over so far, then what is still buffered. */
  function Stream(b: Buffered): string {
    Concat(b.sent) + b.buffer
  }

  /** The buffer is below its size, or empty for a size that is not positive; no empty chunk is sent. */
  ghost predicate Settled(b: Buffered, bufferSize: int) {
    && (b.buffer == "" || |b.buffer| < bufferSize)
    && forall i :: 0 <= i < |b.sent| ==> b.sent[i] != ""
  }

  lemma {:induction false} FlushKeepsStream(b: Buffered, count: nat)
    ensures Stream(FlushStep(b, count)) == Stream(b) && FlushStep(b, count).buffer == ""
  {
    ConcatAppend(b.sent, [b.buffer]);
    assert [b.buffer][1..] == [] && Concat([b.buffer]) == b.buffer;
    if b.buffer != "" { assert Concat(b.sent + [b.buffer]) + "" == Concat(b.sent) + b.buffer; }
  }

  lemma {:induction false} WriteExtendsStream(b: Buffered, text: string, bufferSize: int, due: bool, count: nat)
    requires Settled(b, bufferSize)
    ensures Stream(WriteStep(b, text, bufferSize, due, count)) == Stream(b) + text
    ensures Settled(WriteStep(b, text, bufferSize, due, count), bufferSize)
  {
    var b1 := b.(buffer := b.buffer + text);
    assert Concat(b.sent) + (b.buffer + text) == Concat(b.sent) + b.buffer + text;
    FlushKeepsStream(b1, count);
  }

  /** Buffering refines concatenation: after any uses, the chunks handed over followed by the buffer
      are the text written, and the buffer is short. */
  lemma {:induction false} BufferingIsConcatenation(b: Buffered, us: seq<Use>, bufferSize: int)
    requires Settled(b, bufferSize)
    ensures Stream(AfterUses(b, us, bufferSize)) == Stream(b) + Written(us)
    ensures Settled(AfterUses(b, us, bufferSize), bufferSize)
    decreases |us|
  {
    if us == [] {
      assert Stream(b) + "" == Stream(b);
    } else {
      var text := if us[0].Write? then us[0].text else "";
      match us[0] {
        case Write(t, due, count) => WriteExtendsStream(b, t, bufferSize, due, count);
        case Flush(count) => FlushKeepsStream(b, count); assert Stream(b) + "" == Stream(b);
      }
      BufferingIsConcatenation(UseStep(b, us[0], bufferSize), us[1..], bufferSize);
      assert Stream(b) + text + Written(us[1..]) == Stream(b) + (text + Written(us[1..]));
    }
  }

  /** What is held back: a write whose text leaves the buffer short, when no flush is due, sends nothing; any
      other sends all there is as one chunk.  Characters and flushes count only if they reach somebody. */
  lemma {:induction false} WriteDoes(b: Buffered, text: string, bufferSize: int, due: bool, count: nat)
    ensures var r, all := WriteStep(b, text, bufferSize, due, count), b.buffer + text;
            if |all| < bufferSize && !due then r == b.(buffer := all)
            else && r.buffer == "" && r.sent == b.sent + (if all == "" then [] else [all])
                 && r.totalSent == b.totalSent + (if count > 0 then |all| else 0)
                 && r.flushCount == b.flushCount + (if count > 0 && all != "" then 1 else 0)
  {
    assert b.sent + [] == b.sent;
  }

  class BufferedStreamingHandler {
    const bufferSize: int
    var buffer: string
    var totalSent: nat
    var flushCount: nat
    ghost var sent: seq<string>

    ghost function View(): Buffered
      reads this
    {
      Buffered(buffer, sent, totalSent, flushCount)
    }

    constructor (bufferSize: int)
      ensures this.bufferSize == bufferSize && View() == EMPTY
    {
      this.bufferSize := bufferSize;
      buffer, totalSent, flushCount, sent := "", 0, 0, [];
    }

    method Flush(count: nat) returns (reached: nat)
      modifies this
      ensures View() == FlushStep(old(View()), count)
      ensures reached == if old(buffer) == "" then 0 else count
      ensures Stream(View()) == Stream(old(View())) && buffer == ""
    {
      FlushKeepsStream(View(), count);
      if buffer == "" {
        return 0;
      }
      sent := sent + [buffer];
      if count > 0 {
        totalSent := totalSent + |buffer|;
        flushCount := flushCount + 1;
      }
      buffer := "";
      return count;
    }

    method Write(text: string, due: bool, count: nat)
      requires Settled(View(), bufferSize)
      modifies this
      ensures View() == WriteStep(old(View()), text, bufferSize, due, count)
      ensures Stream(View()) == Stream(old(View())) + text
      ensures Settled(View(), bufferSize)
    {
      WriteExtendsStream(View(), text, bufferSize, due, count);
      buffer := buffer + text;
      if |buffer| >= bufferSize || due {
        var _ := Flush(count);
      }
    }

    /** `items` are what the iterator yields before it ends or raises; the `finally` flushes. */
    method StreamIterator(items: seq<string>, dues: seq<bool>, counts: seq<nat>, lastCount: nat)
      requires Settled(View(), bufferSize) && |dues| == |counts| == |items|
      modifies this
      ensures buffer == "" && Settled(View(), bufferSize)
      ensures Concat(sent) == Stream(old(View())) + Concat(items)
    {
      ghost var b0 := View();
      assert Stream(b0) + Concat([]) == Stream(b0);
      for i := 0 to |items|
        invariant Settled(View(), bufferSize)
        invariant Stream(View()) == Stream(b0) + Concat(items[..i])
      {
        assert items[..i + 1] == items[..i] + [items[i]];
        ConcatAppend(items[..i], [items[i]]);
        assert [items[i]][1..] == [] && Concat([items[i]]) == items[i];
        if items[i] != "" {
          Write(items[i], dues[i], counts[i]);
        }
        assert Stream(b0) + Concat(items[..i]) + items[i] == Stream(b0) + Concat(items[..i + 1]);
      }
      assert items[..|items|] == items;
      var _ := Flush(lastCount);
      assert Concat(sent) + "" == Concat(sent);
    }
  }

  // ---------- fixed-size pieces ----------

  /** `text[i : i + size]` for i in range(0, len(text), size) */
  function Pieces(text: string, size: nat): seq<string>
    requires size > 0
    decreases |text|
  {
    if text == "" then [] else if |text| <= size then [text] else [text[..size]] + Pieces(text[size..], size)
  }

  /** n * size, as a sum. */
  function Times(n: nat, size: nat): (r: nat)
    ensures r == n * size
  {
    if n == 0 then 0 else size + Times(n - 1, size)
  }

  /** The pieces are the text cut up, each of full size but the last, and as few as possible. */
  lemma {:induction false} PiecesCutUp(text: string, size: nat)
    requires size > 0
    ensures Concat(Pieces(text, size)) == text
    ensures |text| <= Times(|Pieces(text, size)|, size) < |text| + size
    ensures forall i :: 0 <= i < |Pieces(text, size)| - 1 ==> |Pieces(text, size)[i]| == size
    ensures forall i :: 0 <= i < |Pieces(text, size)| ==> 0 < |Pieces(text, size)[i]| <= size
    decreases |text|
  {
    var ps := Pieces(text, size);
    if 0 < |text| <= size {
      assert ps[1..] == [] && Concat(ps) == text + "";
      assert Times(0, size) == 0;
    } else if |text| > size {
      var rest := Pieces(text[size..], size);
      PiecesCutUp(text[size..], size);
      assert ps[1..] == rest;
      assert text == text[..size] + text[size..];
      assert rest != [];
    }
  }

  function RestOf(text: string, i: nat): string {
    if i < |text| then text[i..] else ""
  }

  lemma {:induction false} NextPiece(text: string, size: nat, i: nat)
    requires size > 0 && i < |text|
    ensures var end := if i + size <= |text| then i + size else |text|;
            Pieces(RestOf(text, i), size) == [text[i..end]] + Pieces(RestOf(text, i + size), size)
  {
    if i + size < |text| {
      assert text[i..][..size] == text[i..i + size];
      assert text[i..][size..] == text[i + size..];
    } else {
      assert text[i..] == text[i..|text|];
    }
  }

  lemma {:induction false} Shift(a: seq<string>, b: string, c: seq<string>)
    ensures a + ([b] + c) == a + [b] + c
  {
  }

  /** The chunks `stream_text` sends. */
  function TextChunks(text: string, chunkSize: int): seq<string> {
    if text == "" then [] else if chunkSize > 0 then Pieces(text, chunkSize) else [text]
  }

  /** With a positive chunk size every chunk but the last has that size and the last is no longer;
      otherwise a text that is not empty goes out in one chunk.  No chunk is empty. */
  lemma {:induction false} TextChunksSizes(text: string, chunkSize: int)
    ensures var cs := TextChunks(text, chunkSize);
            && Concat(cs) == text && (forall i :: 0 <= i < |cs| ==> cs[i] != "")
            && (chunkSize <= 0 && text != "" ==> cs == [text])
            && (chunkSize > 0 ==> (forall i :: 0 <= i < |cs| - 1 ==> |cs[i]| == chunkSize)
                                  && forall i :: 0 <= i < |cs| ==> |cs[i]| <= chunkSize)
  {
    TextChunksConcat([], text, chunkSize);
    assert [] + TextChunks(text, chunkSize) == TextChunks(text, chunkSize);
    if chunkSize > 0 { PiecesCutUp(text, chunkSize); }
  }

  lemma {:induction false} TextChunksConcat(before: seq<string>, text: string, chunkSize: int)
    ensures Concat(before + TextChunks(text, chunkSize)) == Concat(before) + text
  {
    ConcatAppend(before, TextChunks(text, chunkSize));
    if text != "" && chunkSize > 0 {
      PiecesCutUp(text, chunkSize);
    } else if text != "" {
      assert [text][1..] == [] && Concat([text]) == text + "";
    }
  }

  class StreamingResponseHandler {
    const chunkSize: int
    var totalSent: nat
    var chunkCount: nat
    ghost var sent: seq<string>

    constructor (chunkSize: int)
      ensures this.chunkSize == chunkSize && sent == [] && totalSent == 0 && chunkCount == 0
    {
      this.chunkSize := chunkSize;
      totalSent, chunkCount, sent := 0, 0, [];
    }

    method Send(chunk: string, count: nat) returns (ok: bool)
      modifies this
      ensures sent == old(sent) + [chunk] && ok == (count > 0)
      ensures totalSent == old(totalSent) + if ok then |chunk| else 0
      ensures chunkCount == old(chunkCount) + if ok then 1 else 0
    {
      sent := sent + [chunk];
      ok := count > 0;
      if ok {
        totalSent := totalSent + |chunk|;
        chunkCount := chunkCount + 1;
      }
    }

    /** `reach(i)`: how many connections the i-th chunk reaches. */
    method StreamText(text: string, reach: nat -> nat) returns (sentCount: nat)
      modifies this
      ensures sent == old(sent) + TextChunks(text, chunkSize)
      ensures Concat(sent) == Concat(old(sent)) + text
      ensures sentCount == chunkCount - old(chunkCount)
    {
      TextChunksConcat(sent, text, chunkSize);
      sentCount := 0;
      if text == "" {
        return;
      }
      if chunkSize > 0 {
        sentCount := SendPieces(text, reach);
      } else {
        var ok := Send(text, reach(0));
        if ok {
          sentCount := 1;
        }
      }
    }

    method SendPieces(text: string, reach: nat -> nat) returns (sentCount: nat)
      requires chunkSize > 0
      modifies this
      ensures sent == old(sent) + Pieces(text, chunkSize)
      ensures sentCount == chunkCount - old(chunkCount)
    {
      ghost var before := sent;
      var i: nat, k: nat := 0, 0;
      assert RestOf(text, 0) == text;
      sentCount := 0;
      while i < |text|
        invariant sentCount == chunkCount - old(chunkCount)
        invariant sent + Pieces(RestOf(text, i), chunkSize) == before + Pieces(text, chunkSize)
      {
        var end := if i + chunkSize <= |text| then i + chunkSize else |text|;
        NextPiece(text, chunkSize, i);
        Shift(sent, text[i..end], Pieces(RestOf(text, i + chunkSize), chunkSize));
        var ok := Send(text[i..end], reach(k));
        if ok {
          sentCount := sentCount + 1;
        }
        i, k := i + chunkSize, k + 1;
      }
    }

    /** `stream_iterator` without buffering: every chunk that is not empty goes out as it is. */
    method StreamIterator(items: seq<string>, reach: nat -> nat) returns (sentCount: nat)
      modifies this
      ensures sent == old(sent) + NonEmpty(items)
      ensures Concat(sent) == Concat(old(sent)) + Concat(items)
      ensures forall i :: |old(sent)| <= i < |sent| ==> sent[i] != ""
      ensures sentCount == chunkCount - old(chunkCount)
    {
      ghost var before := sent;
      sentCount := 0;
      for i := 0 to |items|
        invariant sentCount == chunkCount - old(chunkCount)
        invariant sent + NonEmpty(items[i..]) == before + NonEmpty(items)
      {
        assert items[i..][1..] == items[i + 1..];
        Shift(sent, items[i], NonEmpty(items[i + 1..]));
        if items[i] != "" {
          var ok := Send(items[i], reach(i));
          if ok {
            sentCount := sentCount + 1;
          }
        }
      }
      ConcatAppend(before, NonEmpty(items));
      NonEmptyConcat(items);
    }
  }

  function NonEmpty(items: seq<string>): seq<string> {
    if items == [] then [] else (if items[0] != "" then [items[0]] else []) + NonEmpty(items[1..])
  }

  lemma {:induction false} NonEmptyConcat(items: seq<string>)
    ensures Concat(NonEmpty(items)) == Concat(items)
    ensures forall i :: 0 <= i < |NonEmpty(items)| ==> NonEmpty(items)[i] != ""
    decreases |items|
  {
    if items != [] {
      NonEmptyConcat(items[1..]);
      assert Concat(items) == items[0] + Concat(items[1..]);
      if items[0] != "" {
        assert NonEmpty(items)[1..] == NonEmpty(items[1..]);
      } else {
        assert NonEmpty(items) == NonEmpty(items[1..]) && "" + Concat(items[1..]) == Concat(items[1..]);
      }
    }
  }
}
