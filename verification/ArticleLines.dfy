/** What the converter of rag-bench/scripts/fetch_corpus.py writes, line by line and word by word.

    A `Reading` is what a reader of the tags makes of the page: the lines as their words, without the
    buffers and the string handling of the parser.  The parser's output is its rendering. */
module ArticleLines {
  import opened ArticleMarkdown
  import opened Common
  import opened Text

  // ---------- words and spaces ----------

  function JoinWords(words: seq<string>): string {
    Join(words, " ")
  }

  lemma {:induction false} SpacesCollapse(t: string)
    requires t != "" && IsSpace(t[0])
    ensures CollapseRuns(t) == " " + CollapseRuns(LeftStrip(t))
    decreases |t|
  {
    if |t| > 1 && IsSpace(t[1]) {
      SpacesCollapse(t[1..]);
    } else {
      assert LeftStrip(t) == t[1..];
    }
  }

  lemma {:induction false} WordStays(w: string, rest: string)
    requires (forall i :: 0 <= i < |w| ==> !IsSpace(w[i])) && (rest != "" ==> IsSpace(rest[0]))
    ensures CollapseRuns(w + rest) == w + CollapseRuns(rest)
    decreases |w|
  {
    if w == "" {
      assert w + rest == rest;
    } else {
      assert (w + rest)[0] == w[0] && (w + rest)[1..] == w[1..] + rest;
      WordStays(w[1..], rest);
    }
  }

  lemma {:induction false} LeftStripKeepsWords(t: string)
    ensures Split(LeftStrip(t)) == Split(t)
    decreases |t|
  {
    if t != "" && IsSpace(t[0]) { LeftStripKeepsWords(t[1..]); }
  }

  function Trail(t: string): string {
    if t != "" && IsSpace(t[|t| - 1]) then " " else ""
  }

  /** Collapsing a text that begins with a word leaves its words with single spaces between them, and one
      space at the end if there was one. */
  lemma {:induction false} CollapsedIsWords(t: string)
    requires t != "" ==> !IsSpace(t[0])
    ensures CollapseRuns(t) == JoinWords(Split(t)) + Trail(t)
    decreases |t|
  {
    if t != "" {
      var w, rest := t[..WordEnd(t)], t[WordEnd(t)..];
      WordIsFirst(t);
      WordThenRest(w, rest);
      WordStays(w, rest);
      if rest == "" {
        assert w + "" == w && Trail(t) == "";
      } else {
        LeftStripShorter(rest);
        LeftStripFirst(rest);
        CollapsedIsWords(LeftStrip(rest));
        FirstWordJoins(t, w, rest);
      }
    }
  }

  lemma {:induction false} FirstWordJoins(t: string, w: string, rest: string)
    requires t == w + rest && Word(w) && rest != "" && IsSpace(rest[0])
    requires CollapseRuns(t) == w + CollapseRuns(rest) && Split(t) == [w] + Split(rest)
    requires var next := LeftStrip(rest);
             CollapseRuns(next) == JoinWords(Split(next)) + Trail(next) && (next != "" ==> !IsSpace(next[0]))
    ensures CollapseRuns(t) == JoinWords(Split(t)) + Trail(t)
  {
    var next := LeftStrip(rest);
    SpacesCollapse(rest);
    LeftStripKeepsWords(rest);
    WordsJoin(w, Split(next), Trail(next));
    TrailOf(rest);
    NoWords(next);
    assert Trail(t) == Trail(rest) by { assert t[|t| - 1] == rest[|rest| - 1]; }
  }

  lemma {:induction false} LeftStripShorter(t: string)
    requires t != "" && IsSpace(t[0])
    ensures |LeftStrip(t)| < |t|
    decreases |t|
  {
    if |t| > 1 && IsSpace(t[1]) { LeftStripShorter(t[1..]); }
  }

  lemma {:induction false} TrailOf(t: string)
    requires t != ""
    ensures LeftStrip(t) != "" ==> Trail(LeftStrip(t)) == Trail(t)
    ensures LeftStrip(t) == "" ==> Trail(t) == " "
    decreases |t|
  {
    if IsSpace(t[0]) && |t| > 1 {
      TrailOf(t[1..]);
      assert t[1..][|t| - 2] == t[|t| - 1];
    }
  }

  lemma {:induction false} NoWords(t: string)
    requires t != "" ==> !IsSpace(t[0])
    ensures Split(t) == [] <==> t == ""
  {
  }

  lemma {:induction false} WordsJoin(w: string, ws: seq<string>, trail: string)
    ensures w + (" " + (JoinWords(ws) + trail))
         == if ws == [] then w + " " + trail else JoinWords([w] + ws) + trail
  {
    assert ([w] + ws)[1..] == ws;
  }

  lemma {:induction false} LeftStripCollapses(t: string)
    ensures LeftStrip(CollapseRuns(t)) == CollapseRuns(LeftStrip(t))
  {
    LeftStripFirst(t);
    if t != "" && IsSpace(t[0]) {
      SpacesCollapse(t);
      assert (" " + CollapseRuns(LeftStrip(t)))[1..] == CollapseRuns(LeftStrip(t));
    }
    StartsWithWord(LeftStrip(t));
  }

  lemma {:induction false} StartsWithWord(t: string)
    requires t != "" ==> !IsSpace(t[0])
    ensures LeftStrip(CollapseRuns(t)) == CollapseRuns(t)
  {
  }

  lemma {:induction false} WordsNeedNoStrip(words: seq<string>, trail: string)
    requires (forall i :: 0 <= i < |words| ==> Word(words[i])) && (trail == "" || (trail == " " && words != []))
    ensures RightStrip(JoinWords(words) + trail) == JoinWords(words)
  {
    var j := JoinWords(words);
    if words != [] { LastOfJoin(words); }
    if trail == "" {
      assert j + trail == j;
    } else {
      assert (j + trail)[..|j|] == j && (j + trail)[|j|] == ' ';
    }
  }

  lemma {:induction false} LastOfJoin(words: seq<string>)
    requires words != [] && forall i :: 0 <= i < |words| ==> Word(words[i])
    ensures var j := JoinWords(words); j != "" && !IsSpace(j[|j| - 1])
    decreases |words|
  {
    if |words| > 1 {
      LastOfJoin(words[1..]);
      var j := JoinWords(words[1..]);
      assert JoinWords(words)[|JoinWords(words)| - 1] == j[|j| - 1];
    }
  }

  lemma {:induction false} SplitIsWords(t: string)
    ensures forall i :: 0 <= i < |Split(t)| ==> Word(Split(t)[i])
    decreases |t|
  {
    if t != "" {
      if IsSpace(t[0]) {
        SplitIsWords(t[1..]);
      } else {
        WordIsFirst(t);
        SplitIsWords(t[WordEnd(t)..]);
      }
    }
  }

  /** What `re.sub(r"\s+", " ", t).strip()` makes of a text: its words, with single spaces between them. */
  lemma {:induction false} TidyIsWords(t: string)
    ensures Strip(CollapseRuns(t)) == JoinWords(Split(t))
    ensures Strip(CollapseRuns(t)) == "" <==> Split(t) == []
  {
    var u := LeftStrip(t);
    LeftStripCollapses(t);
    LeftStripFirst(t);
    CollapsedIsWords(u);
    LeftStripKeepsWords(t);
    SplitIsWords(u);
    NoWords(u);
    WordsNeedNoStrip(Split(u), Trail(u));
    if Split(t) != [] { LastOfJoin(Split(t)); }
  }

  /** Collapsing keeps the words as they are, and leaves no space but single blanks. */
  lemma {:induction false} WordsSurvive(t: string)
    ensures Split(CollapseRuns(t)) == Split(t) && SingleBlanks(CollapseRuns(t))
    decreases |t|
  {
    if t != "" {
      if IsSpace(t[0]) {
        LeftStripShorter(t);
        LeftStripFirst(t);
        WordsSurvive(LeftStrip(t));
        SpacesCollapse(t);
        SpaceSplits(' ', CollapseRuns(LeftStrip(t)));
        LeftStripKeepsWords(t);
      } else {
        var w, rest := t[..WordEnd(t)], t[WordEnd(t)..];
        WordIsFirst(t);
        WordsSurvive(rest);
        WordStays(w, rest);
        if rest != "" { SpacesCollapse(rest); }
        WordThenRest(w, rest);
        WordThenRest(w, CollapseRuns(rest));
        WordThenBlanks(w, CollapseRuns(rest));
      }
    }
  }

  ghost predicate SingleBlanks(t: string) {
    forall i :: 0 <= i < |t| && IsSpace(t[i]) ==> t[i] == ' ' && (i + 1 < |t| ==> !IsSpace(t[i + 1]))
  }

  lemma {:induction false} WordThenBlanks(w: string, rest: string)
    requires Word(w) && SingleBlanks(rest)
    ensures SingleBlanks(w + rest)
  {
    var t := w + rest;
    forall i | 0 <= i < |t| && IsSpace(t[i]) ensures t[i] == ' ' && (i + 1 < |t| ==> !IsSpace(t[i + 1])) {
      assert i >= |w| && t[i] == rest[i - |w|];
      if i + 1 < |t| { assert t[i + 1] == rest[i + 1 - |w|]; }
    }
  }

  // ---------- lines ----------

  datatype Line =
    | Paragraph(quote: bool, depth: int, words: seq<string>)
    | HeadingLine(quote: bool, level: Level, words: seq<string>)
    | Row(cells: seq<seq<string>>)
    | RowRule(width: nat)
    | Rule
    | Code(text: string)

  function CellTexts(cells: seq<seq<string>>): seq<string> {
    seq(|cells|, i requires 0 <= i < |cells| => JoinWords(cells[i]))
  }

  function Rendered(l: Line): string {
    match l
    case Paragraph(quote, depth, words) =>
      (if quote then "> " else "") + Repeat("  ", if depth > 1 then depth - 1 else 0) + (if depth > 0 then "- " else "")
      + JoinWords(words)
    case HeadingLine(quote, level, words) =>
      (if quote then "> " else "") + Repeat("#", level) + " " + JoinWords(words)
    case Row(cells) => "| " + Join(CellTexts(cells), " | ") + " |"
    case RowRule(width) => "|" + Repeat("---|", width)
    case Rule => "---"
    case Code(text) => "```\n" + StripNewlines(text) + "\n```"
  }

  function RenderedAll(lines: seq<Line>): seq<string> {
    seq(|lines|, i requires 0 <= i < |lines| => Rendered(lines[i]))
  }

  lemma {:induction false} RenderedSnoc(lines: seq<Line>, l: Line)
    ensures RenderedAll(lines + [l]) == RenderedAll(lines) + [Rendered(l)]
  {
  }

  // ---------- reading the tags ----------

  /** `mark` and `text`: what is waiting outside code and cells. */
  datatype Reading = Reading(
    lines: seq<Line>, mark: Option<Level>, text: string, code: int, codeText: string,
    inCell: bool, cell: string, row: Option<seq<seq<string>>>, header: bool, depth: int, quote: bool)

  const BLANK_PAGE := Reading([], None, "", 0, "", false, "", None, false, 0, false)

  function MarkText(mark: Option<Level>): string {
    if mark.Some? then Marker(mark.value) else ""
  }

  function Typed(r: Reading, t: string): Reading {
    if r.code > 0 then r.(codeText := r.codeText + t)
    else if r.inCell then r.(cell := r.cell + t)
    else r.(text := r.text + t)
  }

  function PutOut(r: Reading): Reading {
    var words := Split(MarkText(r.mark) + r.text);
    r.(mark := None, text := "",
       lines := if words == [] then r.lines else r.lines + [Paragraph(r.quote, r.depth, words)])
  }

  function ReadStart(r: Reading, tag: Tag): Reading {
    if OpenFlushes(tag) then
      var q := PutOut(r);
      if tag.Heading? then q.(mark := Some(tag.level))
      else if tag.Pre? then q.(code := q.code + 1, codeText := if q.code == 0 then "" else q.codeText)
      else if tag.Ul? || tag.Ol? then q.(depth := q.depth + 1)
      else if tag.Blockquote? then q.(quote := true)
      else if tag.Hr? then q.(lines := q.lines + [Rule])
      else q
    else if tag.Br? then Typed(r, " ")
    else if tag.Tr? then r.(row := Some([]))
    else if tag.Td? || tag.Th? then r.(inCell := true, header := r.header || tag.Th?)
    else r
  }

  function ReadEnd(r: Reading, tag: Tag): Reading {
    if tag.Heading? then
      var left := if r.mark == Some(tag.level) then r.text else MarkText(r.mark) + r.text;
      r.(mark := None, text := "", lines := r.lines + [HeadingLine(r.quote, tag.level, Split(left))])
    else if tag.Blockquote? then PutOut(r.(quote := false))
    else if tag.Ul? || tag.Ol? then PutOut(r.(depth := if r.depth > 1 then r.depth - 1 else 0))
    else if CloseFlushes(tag) then PutOut(r)
    else if tag.Pre? then
      r.(code := r.code - 1, lines := if r.code == 1 then r.lines + [Code(r.codeText)] else r.lines)
    else if tag.Td? || tag.Th? then
      r.(inCell := false, cell := "", row := if r.row.Some? then Some(r.row.value + [Split(r.cell)]) else None)
    else if tag.Tr? then ReadRowEnd(r)
    else r
  }

  function ReadRowEnd(r: Reading): Reading {
    if r.row.None? || r.row.value == [] then r.(row := None)
    else
      var rule := if r.header then [RowRule(|r.row.value|)] else [];
      r.(row := None, header := false, lines := r.lines + [Row(r.row.value)] + rule)
  }

  function Read(r: Reading, e: Ev): Reading {
    match e
    case Data(t) => Typed(r, t)
    case StartTag(tag) => ReadStart(r, tag)
    case EndTag(tag) => ReadEnd(r, tag)
  }

  function ReadAll(r: Reading, es: seq<Ev>): Reading
    decreases |es|
  {
    if es == [] then r else ReadAll(Read(r, es[0]), es[1..])
  }

  // ---------- the parser renders the reading ----------

  ghost predicate Mirrors(p: Parser, r: Reading) {
    && p.lines == RenderedAll(r.lines)
    && p.skipDepth == 0 && Concat(p.buf) == MarkText(r.mark) + r.text && NUL !in r.text
    && p.preDepth == r.code && Concat(p.preBuf) == r.codeText
    && p.inCell == r.inCell && Concat(p.cellBuf) == r.cell
    && p.rowCells == (if r.row.Some? then Some(CellTexts(r.row.value)) else None)
    && p.isHeaderRow == r.header && p.listDepth == r.depth && p.quote == r.quote
  }

  lemma {:induction false} ConcatSnoc(parts: seq<string>, t: string)
    ensures Concat(parts + [t]) == Concat(parts) + t
  {
    ConcatAppend(parts, [t]);
    assert Concat([t]) == t + "" == t;
  }

  lemma {:induction false} TypedMirrors(p: Parser, r: Reading, t: string)
    requires Mirrors(p, r) && NUL !in t
    ensures Mirrors(AddText(p, t), Typed(r, t))
  {
    if p.preDepth > 0 {
      ConcatSnoc(p.preBuf, t);
    } else if p.inCell {
      ConcatSnoc(p.cellBuf, t);
    } else {
      TextTyped(p.buf, MarkText(r.mark), r.text, t);
    }
  }

  lemma {:induction false} TextTyped(buf: seq<string>, mark: string, text: string, t: string)
    requires Concat(buf) == mark + text && NUL !in text && NUL !in t
    ensures Concat(buf + [t]) == mark + (text + t) && NUL !in text + t
  {
    ConcatSnoc(buf, t);
    assert mark + text + t == mark + (text + t);
  }

  /** The line a flushed paragraph adds: its prefix and the words, none for text without words. */
  lemma {:induction false} FlushMirrors(p: Parser, r: Reading)
    requires Mirrors(p, r)
    ensures Mirrors(FlushPara(p), PutOut(r))
  {
    var words := Split(Concat(p.buf));
    TidyIsWords(Concat(p.buf));
    assert Concat([]) == "" == MarkText(None) + "";
    if words != [] {
      RenderedSnoc(r.lines, Paragraph(r.quote, r.depth, words));
      assert FlushPara(p).lines == p.lines + [Rendered(Paragraph(r.quote, r.depth, words))];
    }
  }

  lemma {:induction false} StartMirrors(p: Parser, r: Reading, tag: Tag)
    requires Mirrors(p, r)
    ensures Mirrors(OpenTag(p, tag), ReadStart(r, tag))
  {
    if OpenFlushes(tag) {
      FlushMirrors(p, r);
      FlushStartMirrors(p, FlushPara(p), PutOut(r), r, tag);
    } else if tag.Br? {
      OpensBreak(p);
      TypedMirrors(p, r, " ");
    } else if tag.Tr? {
      OpensRow(p);
      assert CellTexts([]) == [];
    } else if tag.Td? || tag.Th? {
      OpensCell(p);
    } else {
      OpensNothing(p, tag);
    }
  }

  lemma {:induction false} OpensNothing(p: Parser, tag: Tag)
    requires !OpenFlushes(tag) && !tag.Br? && !tag.Tr? && !tag.Td? && !tag.Th?
    ensures OpenTag(p, tag) == p
  {
  }

  lemma {:induction false} FlushStartMirrors(p: Parser, q: Parser, r1: Reading, r: Reading, tag: Tag)
    requires OpenFlushes(tag) && q == FlushPara(p) && r1 == PutOut(r) && Mirrors(q, r1)
    ensures Mirrors(OpenTag(p, tag), ReadStart(r, tag))
  {
    if tag.Heading? {
      OpensHeading(p, tag.level);
      ConcatSnoc(q.buf, Marker(tag.level));
    } else if tag.Pre? {
      OpensPre(p);
    } else if tag.Ul? || tag.Ol? {
      OpensList(p);
    } else if tag.Blockquote? || tag.Li? {
      OpensItemOrQuote(p);
    } else if tag.Hr? {
      OpensRule(p);
      RenderedSnoc(r1.lines, Rule);
    } else {
      OpensBlock(p, tag);
    }
  }

  lemma {:induction false} EndMirrors(p: Parser, r: Reading, tag: Tag)
    requires Mirrors(p, r)
    ensures Mirrors(CloseTag(p, tag), ReadEnd(r, tag))
  {
    if tag.Heading? {
      ClosesHeading(p, tag.level);
      HeadingMirrors(p, r, tag.level);
    } else if tag.Pre? {
      ClosesPre(p);
      CodeMirrors(p, r);
    } else if tag.Td? || tag.Th? {
      ClosesCell(p);
      CellMirrors(p, r);
    } else if tag.Tr? {
      ClosesRow(p);
      RowMirrors(p, r);
    } else if CloseFlushes(tag) {
      EndFlushMirrors(p, r, tag);
    } else {
      ClosesNothing(p, tag);
    }
  }

  lemma {:induction false} CodeMirrors(p: Parser, r: Reading)
    requires Mirrors(p, r)
    ensures Mirrors(ClosePre(p), ReadEnd(r, Pre))
  {
    if r.code == 1 { RenderedSnoc(r.lines, Code(r.codeText)); }
  }

  lemma {:induction false} ClosesNothing(p: Parser, tag: Tag)
    requires !CloseFlushes(tag) && !tag.Heading? && !tag.Pre? && !tag.Td? && !tag.Th? && !tag.Tr?
    ensures CloseTag(p, tag) == p
  {
  }

  lemma {:induction false} EndFlushMirrors(p: Parser, r: Reading, tag: Tag)
    requires CloseFlushes(tag) && Mirrors(p, r)
    ensures Mirrors(CloseTag(p, tag), ReadEnd(r, tag))
  {
    if tag.Blockquote? {
      ClosesQuote(p);
      FlushMirrors(p.(quote := false), r.(quote := false));
    } else if tag.Ul? || tag.Ol? {
      var depth := if p.listDepth - 1 > 0 then p.listDepth - 1 else 0;
      ClosesList(p);
      FlushMirrors(p.(listDepth := depth), r.(depth := depth));
    } else {
      ClosesBlock(p, tag);
      FlushMirrors(p, r);
    }
  }

  lemma {:induction false} ClosesQuote(p: Parser)
    ensures CloseTag(p, Blockquote) == FlushPara(p.(quote := false))
  {
  }

  lemma {:induction false} ClosesList(p: Parser)
    ensures CloseTag(p, Ul) == CloseTag(p, Ol) == CloseList(p)
  {
  }

  lemma {:induction false} ClosesBlock(p: Parser, tag: Tag)
    requires Block(tag) || tag.Table?
    ensures CloseTag(p, tag) == FlushPara(p)
  {
  }

  /** The line of a heading: its prefix, its signs and its words. */
  lemma {:induction false} HeadingMirrors(p: Parser, r: Reading, level: Level)
    requires Mirrors(p, r)
    ensures Mirrors(CloseHeading(p, level), ReadEnd(r, Heading(level)))
  {
    var left := if r.mark == Some(level) then r.text else MarkText(r.mark) + r.text;
    MarkRemoved(r.text, r.mark, level);
    TidyIsWords(left);
    RenderedSnoc(r.lines, HeadingLine(r.quote, level, Split(left)));
    assert Concat([]) == "" == MarkText(None) + "";
  }

  lemma {:induction false} MarkRemoved(text: string, mark: Option<Level>, level: Level)
    requires NUL !in text
    ensures RemoveAll(MarkText(mark) + text, Marker(level))
            == if mark == Some(level) then text else MarkText(mark) + text
  {
    if mark.None? {
      assert "" + text == text;
      NothingToRemove(text, level);
    } else if mark.value == level {
      OwnMarkGoes(text, level);
    } else {
      OtherMarkStays(text, level, mark.value);
    }
  }

  /** A cell is its words. */
  lemma {:induction false} CellMirrors(p: Parser, r: Reading)
    requires Mirrors(p, r)
    ensures Mirrors(FlushCell(p.(inCell := false)), ReadEnd(r, Td)) && ReadEnd(r, Td) == ReadEnd(r, Th)
  {
    TidyIsWords(r.cell);
    if r.row.Some? {
      assert CellTexts(r.row.value + [Split(r.cell)]) == CellTexts(r.row.value) + [JoinWords(Split(r.cell))];
    }
  }

  lemma {:induction false} RowMirrors(p: Parser, r: Reading)
    requires Mirrors(p, r)
    ensures Mirrors(CloseRow(p), ReadEnd(r, Tr))
  {
    if r.row.Some? && r.row.value != [] {
      var lines := r.lines + [Row(r.row.value)];
      RenderedSnoc(r.lines, Row(r.row.value));
      RenderedSnoc(lines, RowRule(|r.row.value|));
      assert lines + [] == lines;
    }
  }

  lemma {:induction false} EventMirrors(p: Parser, r: Reading, e: Ev)
    requires Mirrors(p, r) && Survives(0, e) && (e.Data? ==> NUL !in e.text)
    ensures Mirrors(Feed(p, e), Read(r, e))
  {
    match e
    case Data(t) => TypedMirrors(p, r, t);
    case StartTag(tag) => StartMirrors(p, r, tag);
    case EndTag(tag) => EndMirrors(p, r, tag);
  }

  lemma {:induction false} StreamMirrors(p: Parser, r: Reading, es: seq<Ev>)
    requires Mirrors(p, r) && NoneSkipped(es) && NulFree(es)
    ensures Mirrors(FeedAll(p, es), ReadAll(r, es))
    decreases |es|
  {
    if es != [] {
      assert Survives(0, es[0]);
      assert forall i :: 0 <= i < |es[1..]| ==> es[1..][i] == es[i + 1];
      EventMirrors(p, r, es[0]);
      StreamMirrors(Feed(p, es[0]), Read(r, es[0]), es[1..]);
    }
  }

  /** The lines a page reads as: what is waiting at its end is put out. */
  function PageLines(es: seq<Ev>): seq<Line> {
    PutOut(ReadAll(BLANK_PAGE, Outside(0, es))).lines
  }

  /** The converter's output is the rendering of the page as read: every paragraph, heading and cell is its
      words, with single spaces between them and no other space, behind its prefix. */
  lemma {:induction false} OutputIsReading(es: seq<Ev>)
    requires NulFree(es)
    ensures FlushPara(FeedAll(NEW_PARSER, es)).lines == RenderedAll(PageLines(es))
    ensures Result(FeedAll(NEW_PARSER, es)) == Strip(Join(RenderedAll(PageLines(es)), "\n")) + "\n"
  {
    var kept := Outside(0, es);
    OutsideKeeps(0, es);
    assert forall i :: 0 <= i < |kept| ==> kept[i] in kept && kept[i] in es;
    assert RenderedAll([]) == [] && MarkText(None) + "" == "";
    StreamMirrors(NEW_PARSER, BLANK_PAGE, kept);
    FlushMirrors(FeedAll(NEW_PARSER, kept), ReadAll(BLANK_PAGE, kept));
    StreamErasure(NEW_PARSER, 0, es);
    assert NEW_PARSER.(skipDepth := 0) == NEW_PARSER;
    FlushIgnoresDepth(FeedAll(NEW_PARSER, kept), FinalDepth(0, es));
    ResultIsJoin(es);
  }

  lemma {:induction false} FlushIgnoresDepth(p: Parser, d: int)
    ensures FlushPara(p.(skipDepth := d)).lines == FlushPara(p).lines
  {
  }

  // ---------- the words, in order ----------

  function WordsOf(l: Line): seq<string> {
    match l
    case Paragraph(_, _, words) => words
    case HeadingLine(_, _, words) => words
    case _ => []
  }

  /** The words of paragraphs and headings. */
  function TextWords(lines: seq<Line>): seq<string> {
    if lines == [] then [] else WordsOf(lines[0]) + TextWords(lines[1..])
  }

  lemma {:induction false} TextWordsSnoc(lines: seq<Line>, l: Line)
    ensures TextWords(lines + [l]) == TextWords(lines) + WordsOf(l)
    decreases |lines|
  {
    if lines == [] {
      assert [] + [l] == [l] && [l][1..] == [];
      assert WordsOf(l) + [] == [] + WordsOf(l);
    } else {
      assert (lines + [l])[1..] == lines[1..] + [l];
      TextWordsSnoc(lines[1..], l);
    }
  }

  predicate Aside(code: int, inCell: bool) {
    code > 0 || inCell
  }

  /** What a tag or text gives to the running text: text outside code and cells as it is, a space for a
      break and for whatever ends a line, and the mark of a heading that leaks. */
  function Piece(code: int, inCell: bool, es: seq<Ev>): string
    requires es != []
  {
    match es[0]
    case Data(t) => if Aside(code, inCell) then "" else t
    case StartTag(tag) =>
      if tag.Br? then (if Aside(code, inCell) then "" else " ")
      else if tag.Heading? then " " + if MarkLeaks(tag.level, es[1..]) then Marker(tag.level) else ""
      else if OpenFlushes(tag) then " " else ""
    case EndTag(tag) => if CloseFlushes(tag) || tag.Heading? then " " else ""
  }

  /** The running text of the page, outside code and cells. */
  function RunningText(code: int, inCell: bool, es: seq<Ev>): string
    decreases |es|
  {
    if es == [] then ""
    else Piece(code, inCell, es) + RunningText(DepthOfCode(code, es[0]), CellAfter(inCell, es[0]), es[1..])
  }

  /** What is waiting to be put out, without a mark that will be taken out again. */
  function WaitingText(r: Reading, es: seq<Ev>): string {
    (if r.mark.Some? && MarkLeaks(r.mark.value, es) then Marker(r.mark.value) else "") + r.text
  }

  ghost function TextAhead(r: Reading, es: seq<Ev>): seq<string> {
    TextWords(r.lines) + Split(WaitingText(r, es) + RunningText(r.code, r.inCell, es))
  }

  lemma {:induction false} PutOutWords(r: Reading)
    ensures TextWords(PutOut(r).lines) == TextWords(r.lines) + Split(MarkText(r.mark) + r.text)
  {
    var words := Split(MarkText(r.mark) + r.text);
    if words == [] {
      assert TextWords(r.lines) + [] == TextWords(r.lines);
    } else {
      TextWordsSnoc(r.lines, Paragraph(r.quote, r.depth, words));
    }
  }

  /** What reading does to code and cells. */
  lemma {:induction false} ReadTracks(r: Reading, e: Ev)
    ensures var q := Read(r, e);
            && q.code == DepthOfCode(r.code, e) && q.inCell == CellAfter(r.inCell, e)
            && (q.row.Some? <==> RowAfter(r.row.Some?, e))
  {
    if e.StartTag? { StartTracks(r, e.tag); } else if e.EndTag? { EndTracks(r, e.tag); }
  }

  lemma {:induction false} StartTracks(r: Reading, tag: Tag)
    ensures var q := ReadStart(r, tag);
            && q.code == r.code + (if tag.Pre? then 1 else 0) && q.inCell == (r.inCell || tag.Td? || tag.Th?)
            && (q.row.Some? <==> r.row.Some? || tag.Tr?)
            && (OpenFlushes(tag) ==> q.text == "" && q.mark == if tag.Heading? then Some(tag.level) else None)
  {
    if OpenFlushes(tag) {
      var q := PutOut(r);
      assert q.code == r.code && q.inCell == r.inCell && q.row == r.row && q.text == "" && q.mark == None;
      FlushStartTracks(r, q, tag);
    }
  }

  lemma {:induction false} FlushStartTracks(r: Reading, q: Reading, tag: Tag)
    requires OpenFlushes(tag) && q == PutOut(r)
    ensures var next := ReadStart(r, tag);
            && next.code == q.code + (if tag.Pre? then 1 else 0) && next.inCell == q.inCell && next.row == q.row
            && next.text == q.text && next.mark == if tag.Heading? then Some(tag.level) else q.mark
  {
  }

  lemma {:induction false} EndTracks(r: Reading, tag: Tag)
    ensures var q := ReadEnd(r, tag);
            && q.code == r.code - (if tag.Pre? then 1 else 0) && q.inCell == (r.inCell && !tag.Td? && !tag.Th?)
            && (q.row.Some? <==> r.row.Some? && !tag.Tr?)
            && (CloseFlushes(tag) || tag.Heading? ==> q.text == "" && q.mark == None)
  {
    if CloseFlushes(tag) {
      FlushEndTracks(r, tag);
    }
  }

  lemma {:induction false} FlushEndTracks(r: Reading, tag: Tag)
    requires CloseFlushes(tag)
    ensures var q := ReadEnd(r, tag);
            q.code == r.code && q.inCell == r.inCell && q.row == r.row && q.text == "" && q.mark == None
  {
  }

  /** Where a line ends, its words are those that were waiting. */
  lemma {:induction false} EndOfLine(r: Reading, es: seq<Ev>)
    requires es != [] && (Flushes(es[0]) || EndsHeading(es[0]))
    ensures TextWords(Read(r, es[0]).lines) == TextWords(r.lines) + Split(WaitingText(r, es))
  {
    if EndsHeading(es[0]) {
      HeadingWords(r, es[0].tag.level);
      assert "" + r.text == r.text;
    } else if es[0].StartTag? {
      StartWords(r, es[0].tag);
    } else {
      EndWords(r, es[0].tag);
    }
  }

  lemma {:induction false} HeadingWords(r: Reading, level: Level)
    ensures TextWords(ReadEnd(r, Heading(level)).lines)
            == TextWords(r.lines) + Split(if r.mark == Some(level) then r.text else MarkText(r.mark) + r.text)
  {
    var left := if r.mark == Some(level) then r.text else MarkText(r.mark) + r.text;
    TextWordsSnoc(r.lines, HeadingLine(r.quote, level, Split(left)));
  }

  lemma {:induction false} StartWords(r: Reading, tag: Tag)
    requires OpenFlushes(tag)
    ensures TextWords(ReadStart(r, tag).lines) == TextWords(r.lines) + Split(MarkText(r.mark) + r.text)
  {
    PutOutWords(r);
    StartLines(r, PutOut(r), tag);
    TextWordsSnoc(PutOut(r).lines, Rule);
    assert TextWords(PutOut(r).lines) + [] == TextWords(PutOut(r).lines);
  }

  lemma {:induction false} StartLines(r: Reading, q: Reading, tag: Tag)
    requires OpenFlushes(tag) && q == PutOut(r)
    ensures ReadStart(r, tag).lines == if tag.Hr? then q.lines + [Rule] else q.lines
  {
  }

  lemma {:induction false} EndWords(r: Reading, tag: Tag)
    requires CloseFlushes(tag)
    ensures TextWords(ReadEnd(r, tag).lines) == TextWords(r.lines) + Split(MarkText(r.mark) + r.text)
  {
    if tag.Blockquote? {
      PutOutWords(r.(quote := false));
    } else if tag.Ul? || tag.Ol? {
      PutOutWords(r.(depth := if r.depth > 1 then r.depth - 1 else 0));
    } else {
      PutOutWords(r);
    }
  }

  /** After it nothing is waiting but the mark of a heading that begins. */
  lemma {:induction false} NothingWaits(r: Reading, e: Ev)
    requires Flushes(e) || EndsHeading(e)
    ensures Read(r, e).text == "" && Read(r, e).mark == MarkAfter(r.mark, e)
  {
    if e.StartTag? { StartTracks(r, e.tag); } else { EndTracks(r, e.tag); }
  }

  lemma {:induction false} NewLine(r: Reading, es: seq<Ev>)
    requires es != [] && (Flushes(es[0]) || EndsHeading(es[0]))
    ensures Piece(r.code, r.inCell, es) == " " + WaitingText(Read(r, es[0]), es[1..])
  {
    var q := Read(r, es[0]);
    NothingWaits(r, es[0]);
    var mark := if q.mark.Some? && MarkLeaks(q.mark.value, es[1..]) then Marker(q.mark.value) else "";
    assert mark + "" == mark;
    if es[0].StartTag? && es[0].tag.Heading? {
      assert Piece(r.code, r.inCell, es) == " " + mark;
    } else {
      assert mark == "" && Piece(r.code, r.inCell, es) == " " == " " + "";
    }
  }

  lemma {:induction false} SplitAhead(words: seq<string>, w: string, v: string, rest: string)
    ensures words + Split(w) + Split(v + rest) == words + Split(w + (" " + v + rest))
  {
    SplitApart(w, ' ', v + rest);
    assert w + [' '] + (v + rest) == w + (" " + v + rest);
    assert words + Split(w) + Split(v + rest) == words + (Split(w) + Split(v + rest));
  }

  lemma {:induction false} LineEndKeeps(r: Reading, es: seq<Ev>)
    requires es != [] && (Flushes(es[0]) || EndsHeading(es[0]))
    ensures TextAhead(Read(r, es[0]), es[1..]) == TextAhead(r, es)
  {
    var q := Read(r, es[0]);
    EndOfLine(r, es);
    NewLine(r, es);
    ReadTracks(r, es[0]);
    SplitAhead(TextWords(r.lines), WaitingText(r, es), WaitingText(q, es[1..]), RunningText(q.code, q.inCell, es[1..]));
  }

  lemma {:induction false} WithinLineKeeps(r: Reading, es: seq<Ev>)
    requires es != [] && !Flushes(es[0]) && !EndsHeading(es[0])
    ensures TextAhead(Read(r, es[0]), es[1..]) == TextAhead(r, es)
  {
    var q := Read(r, es[0]);
    WithinLine(r, es);
    ReadTracks(r, es[0]);
    Regrouped(WaitingText(r, es), Piece(r.code, r.inCell, es), RunningText(q.code, q.inCell, es[1..]));
  }

  lemma {:induction false} Regrouped(a: string, b: string, c: string)
    ensures a + b + c == a + (b + c)
  {
  }

  lemma {:induction false} WithinLine(r: Reading, es: seq<Ev>)
    requires es != [] && !Flushes(es[0]) && !EndsHeading(es[0])
    ensures TextWords(Read(r, es[0]).lines) == TextWords(r.lines)
    ensures WaitingText(Read(r, es[0]), es[1..]) == WaitingText(r, es) + Piece(r.code, r.inCell, es)
  {
    var mark := if r.mark.Some? && MarkLeaks(r.mark.value, es) then Marker(r.mark.value) else "";
    Regrouped(mark, r.text, Piece(r.code, r.inCell, es));
    if es[0].EndTag? { SilentEnd(r, es[0].tag); } else { TypedText(r, es); }
    assert WaitingText(Read(r, es[0]), es[1..]) == mark + Read(r, es[0]).text;
  }

  lemma {:induction false} TypedText(r: Reading, es: seq<Ev>)
    requires es != [] && !Flushes(es[0]) && !es[0].EndTag?
    ensures var q := Read(r, es[0]);
            q.lines == r.lines && q.mark == r.mark && q.text == r.text + Piece(r.code, r.inCell, es)
  {
    assert r.text + "" == r.text;
  }

  /** An end tag that ends no line adds no words of text. */
  lemma {:induction false} SilentEnd(r: Reading, tag: Tag)
    requires !CloseFlushes(tag) && !tag.Heading?
    ensures var q := ReadEnd(r, tag);
            TextWords(q.lines) == TextWords(r.lines) && q.mark == r.mark && q.text == r.text && r.text + "" == r.text
  {
    assert TextWords(r.lines) + [] == TextWords(r.lines);
    if tag.Pre? {
      TextWordsSnoc(r.lines, Code(r.codeText));
    } else if tag.Tr? {
      RowHasNoText(r);
    }
  }

  lemma {:induction false} RowHasNoText(r: Reading)
    ensures var q := ReadRowEnd(r); TextWords(q.lines) == TextWords(r.lines) && q.mark == r.mark && q.text == r.text
  {
    if r.row.Some? { RowLines(r.lines, Row(r.row.value), RowRule(|r.row.value|)); }
  }

  lemma {:induction false} RowLines(lines: seq<Line>, row: Line, rule: Line)
    requires row.Row? && rule.RowRule?
    ensures TextWords(lines + [row] + []) == TextWords(lines + [row] + [rule]) == TextWords(lines)
  {
    TextWordsSnoc(lines, row);
    TextWordsSnoc(lines + [row], rule);
    assert lines + [row] + [] == lines + [row];
    assert TextWords(lines) + [] == TextWords(lines);
  }

  lemma {:induction false} TextWordsFrom(r: Reading, es: seq<Ev>)
    ensures TextWords(PutOut(ReadAll(r, es)).lines) == TextAhead(r, es)
    decreases |es|
  {
    if es == [] {
      PutOutWords(r);
      assert MarkText(r.mark) + r.text + "" == MarkText(r.mark) + r.text;
    } else {
      if Flushes(es[0]) || EndsHeading(es[0]) { LineEndKeeps(r, es); } else { WithinLineKeeps(r, es); }
      TextWordsFrom(Read(r, es[0]), es[1..]);
    }
  }

  /** No word is lost, joined to another or moved: the words of the paragraphs and headings, in order, are
      the words of the page's running text. */
  lemma {:induction false} WordsInOrder(es: seq<Ev>)
    ensures TextWords(PageLines(es)) == Split(RunningText(0, false, Outside(0, es)))
  {
    var kept := Outside(0, es);
    TextWordsFrom(BLANK_PAGE, kept);
    assert "" + "" + RunningText(0, false, kept) == RunningText(0, false, kept);
    assert [] + Split(RunningText(0, false, kept)) == Split(RunningText(0, false, kept));
  }

  // ---------- the words of tables ----------

  function Flat(cells: seq<seq<string>>): seq<string> {
    if cells == [] then [] else cells[0] + Flat(cells[1..])
  }

  function RowWords(l: Line): seq<string> {
    if l.Row? then Flat(l.cells) else []
  }

  /** The words of the table rows. */
  function CellWords(lines: seq<Line>): seq<string> {
    if lines == [] then [] else RowWords(lines[0]) + CellWords(lines[1..])
  }

  lemma {:induction false} CellWordsSnoc(lines: seq<Line>, l: Line)
    ensures CellWords(lines + [l]) == CellWords(lines) + RowWords(l)
    decreases |lines|
  {
    if lines == [] {
      assert [] + [l] == [l] && [l][1..] == [];
      assert RowWords(l) + [] == [] + RowWords(l);
    } else {
      assert (lines + [l])[1..] == lines[1..] + [l];
      CellWordsSnoc(lines[1..], l);
    }
  }

  lemma {:induction false} FlatSnoc(cells: seq<seq<string>>, cell: seq<string>)
    ensures Flat(cells + [cell]) == Flat(cells) + cell
    decreases |cells|
  {
    if cells == [] {
      assert [] + [cell] == [cell] && [cell][1..] == [];
      assert cell + [] == [] + cell;
    } else {
      assert (cells + [cell])[1..] == cells[1..] + [cell];
      FlatSnoc(cells[1..], cell);
    }
  }

  /** What a tag or text gives to the text of the tables: text in a cell that ends in a row that is
      closed, and a space where a cell ends. */
  function CellPiece(code: int, inCell: bool, inRow: bool, es: seq<Ev>): string
    requires es != []
  {
    var here := code <= 0 && inCell && CellLands(inRow, es);
    match es[0]
    case Data(t) => if here then t else ""
    case StartTag(tag) => if tag.Br? && here then " " else ""
    case EndTag(tag) => if tag.Td? || tag.Th? then " " else ""
  }

  function TableText(code: int, inCell: bool, inRow: bool, es: seq<Ev>): string
    decreases |es|
  {
    if es == [] then ""
    else
      CellPiece(code, inCell, inRow, es)
      + TableText(DepthOfCode(code, es[0]), CellAfter(inCell, es[0]), RowAfter(inRow, es[0]), es[1..])
  }

  /** The words of the open row, if it is closed before another begins. */
  ghost function RowAhead(r: Reading, es: seq<Ev>): seq<string> {
    if r.row.Some? && RowCloses(es) then Flat(r.row.value) else []
  }

  /** The text of the open cell, if it lands. */
  ghost function CellAhead(r: Reading, es: seq<Ev>): string {
    if CellLands(r.row.Some?, es) then r.cell else ""
  }

  ghost function TableAhead(r: Reading, es: seq<Ev>): seq<string> {
    CellWords(r.lines) + RowAhead(r, es)
    + Split(CellAhead(r, es) + TableText(r.code, r.inCell, r.row.Some?, es))
  }

  lemma {:induction false} PutOutCells(r: Reading)
    ensures CellWords(PutOut(r).lines) == CellWords(r.lines)
  {
    var words := Split(MarkText(r.mark) + r.text);
    CellWordsSnoc(r.lines, Paragraph(r.quote, r.depth, words));
    assert CellWords(r.lines) + [] == CellWords(r.lines);
  }

  /** Whatever is no cell and no row leaves the tables alone. */
  lemma {:induction false} StartElsewhere(r: Reading, tag: Tag)
    requires !tag.Td? && !tag.Th? && !tag.Tr? && !tag.Br?
    ensures var q := ReadStart(r, tag); CellWords(q.lines) == CellWords(r.lines) && q.cell == r.cell && q.row == r.row
  {
    if OpenFlushes(tag) {
      var lines := PutOut(r).lines;
      PutOutCells(r);
      CellWordsSnoc(lines, Rule);
      assert CellWords(lines) + [] == CellWords(lines);
      StartLines(r, PutOut(r), tag);
    }
  }

  lemma {:induction false} EndElsewhere(r: Reading, tag: Tag)
    requires !tag.Td? && !tag.Th? && !tag.Tr?
    ensures var q := ReadEnd(r, tag); CellWords(q.lines) == CellWords(r.lines) && q.cell == r.cell && q.row == r.row
  {
    assert CellWords(r.lines) + [] == CellWords(r.lines);
    if tag.Heading? {
      var left := if r.mark == Some(tag.level) then r.text else MarkText(r.mark) + r.text;
      CellWordsSnoc(r.lines, HeadingLine(r.quote, tag.level, Split(left)));
    } else if tag.Pre? {
      CellWordsSnoc(r.lines, Code(r.codeText));
    } else if tag.Blockquote? {
      PutOutCells(r.(quote := false));
    } else if tag.Ul? || tag.Ol? {
      PutOutCells(r.(depth := if r.depth > 1 then r.depth - 1 else 0));
    } else {
      PutOutCells(r);
    }
  }

  /** A tag without a part in tables: everything stays ahead. */
  lemma {:induction false} ElsewhereKeeps(r: Reading, es: seq<Ev>)
    requires es != [] && !es[0].Data? && !es[0].tag.Td? && !es[0].tag.Th? && !es[0].tag.Tr?
    requires es[0] != StartTag(Br)
    ensures TableAhead(Read(r, es[0]), es[1..]) == TableAhead(r, es)
  {
    var q := Read(r, es[0]);
    if es[0].StartTag? { StartElsewhere(r, es[0].tag); } else { EndElsewhere(r, es[0].tag); }
    ReadTracks(r, es[0]);
    AheadSame(r, es);
    var rest := TableText(q.code, q.inCell, q.row.Some?, es[1..]);
    assert TableText(r.code, r.inCell, r.row.Some?, es) == "" + rest == rest;
  }

  lemma {:induction false} AheadSame(r: Reading, es: seq<Ev>)
    requires es != [] && !CellEnd(es[0]) && es[0] != StartTag(Tr) && es[0] != EndTag(Tr)
    ensures RowCloses(es) == RowCloses(es[1..]) && CellLands(r.row.Some?, es) == CellLands(r.row.Some?, es[1..])
  {
  }

  /** Text and breaks. */
  lemma {:induction false} CellTextKeeps(r: Reading, es: seq<Ev>)
    requires es != [] && (es[0].Data? || es[0] == StartTag(Br))
    ensures TableAhead(Read(r, es[0]), es[1..]) == TableAhead(r, es)
  {
    var q := Read(r, es[0]);
    var rest := TableText(q.code, q.inCell, q.row.Some?, es[1..]);
    var piece := CellPiece(r.code, r.inCell, r.row.Some?, es);
    AheadSame(r, es);
    CellTyped(r, es);
    Regrouped(CellAhead(r, es), piece, rest);
    assert TableText(r.code, r.inCell, r.row.Some?, es) == piece + rest;
  }

  lemma {:induction false} CellTyped(r: Reading, es: seq<Ev>)
    requires es != [] && (es[0].Data? || es[0] == StartTag(Br))
    ensures var q := Read(r, es[0]);
            && q.lines == r.lines && q.row == r.row && q.code == r.code && q.inCell == r.inCell
            && CellAhead(q, es[1..]) == CellAhead(r, es) + CellPiece(r.code, r.inCell, r.row.Some?, es)
  {
    AheadSame(r, es);
    assert CellAhead(r, es) + "" == CellAhead(r, es);
  }

  /** A cell begins, or a row, which throws an open one away. */
  lemma {:induction false} CellOrRowBegins(r: Reading, es: seq<Ev>)
    requires es != [] && (es[0] == StartTag(Td) || es[0] == StartTag(Th) || es[0] == StartTag(Tr))
    ensures TableAhead(Read(r, es[0]), es[1..]) == TableAhead(r, es)
  {
    BeginsAhead(r, es);
    BeginKeeps(r, Read(r, es[0]), es);
  }

  lemma {:induction false} BeginKeeps(r: Reading, q: Reading, es: seq<Ev>)
    requires es != [] && CellPiece(r.code, r.inCell, r.row.Some?, es) == ""
    requires q.lines == r.lines && RowAhead(q, es[1..]) == RowAhead(r, es) && CellAhead(q, es[1..]) == CellAhead(r, es)
    requires q.code == DepthOfCode(r.code, es[0]) && q.inCell == CellAfter(r.inCell, es[0])
    requires q.row.Some? == RowAfter(r.row.Some?, es[0])
    ensures TableAhead(q, es[1..]) == TableAhead(r, es)
  {
    NothingForTables(r.code, r.inCell, r.row.Some?, es);
    SameAhead(r, q, es, es[1..], TableText(q.code, q.inCell, q.row.Some?, es[1..]));
  }

  lemma {:induction false} NothingForTables(code: int, inCell: bool, inRow: bool, es: seq<Ev>)
    requires es != [] && CellPiece(code, inCell, inRow, es) == ""
    ensures TableText(code, inCell, inRow, es)
         == TableText(DepthOfCode(code, es[0]), CellAfter(inCell, es[0]), RowAfter(inRow, es[0]), es[1..])
  {
  }

  lemma {:induction false} SameAhead(r: Reading, q: Reading, es: seq<Ev>, later: seq<Ev>, rest: string)
    requires CellWords(q.lines) + RowAhead(q, later) == CellWords(r.lines) + RowAhead(r, es)
    requires CellAhead(q, later) == CellAhead(r, es)
    requires TableText(r.code, r.inCell, r.row.Some?, es) == rest
    requires TableText(q.code, q.inCell, q.row.Some?, later) == rest
    ensures TableAhead(q, later) == TableAhead(r, es)
  {
  }

  lemma {:induction false} BeginsAhead(r: Reading, es: seq<Ev>)
    requires es != [] && (es[0] == StartTag(Td) || es[0] == StartTag(Th) || es[0] == StartTag(Tr))
    ensures var q := Read(r, es[0]);
            && q.lines == r.lines && RowAhead(q, es[1..]) == RowAhead(r, es)
            && CellAhead(q, es[1..]) == CellAhead(r, es) && q.code == DepthOfCode(r.code, es[0])
            && q.inCell == CellAfter(r.inCell, es[0]) && q.row.Some? == RowAfter(r.row.Some?, es[0])
  {
    if es[0] == StartTag(Tr) {
      assert ReadStart(r, Tr) == r.(row := Some([]));
    } else {
      assert ReadStart(r, es[0].tag) == r.(inCell := true, header := r.header || es[0].tag.Th?);
    }
  }

  /** A cell ends: its words go to the open row. */
  lemma {:induction false} CellEndKeeps(r: Reading, es: seq<Ev>)
    requires es != [] && CellEnd(es[0])
    ensures TableAhead(Read(r, es[0]), es[1..]) == TableAhead(r, es)
  {
    var q := Read(r, es[0]);
    var rest := TableText(q.code, q.inCell, q.row.Some?, es[1..]);
    CellEndsAhead(r, es);
    assert CellAhead(q, es[1..]) + rest == rest;
    CellSplits(CellWords(r.lines), RowAhead(r, es), CellAhead(r, es), rest);
    assert TableText(r.code, r.inCell, r.row.Some?, es) == " " + rest;
  }

  lemma {:induction false} CellEndsAhead(r: Reading, es: seq<Ev>)
    requires es != [] && CellEnd(es[0])
    ensures var q := Read(r, es[0]);
            && q.lines == r.lines && q.code == r.code && CellAhead(q, es[1..]) == ""
            && RowAhead(q, es[1..]) == RowAhead(r, es) + Split(CellAhead(r, es))
            && (q.row.Some? <==> r.row.Some?) && !q.inCell
  {
    if r.row.Some? { FlatSnoc(r.row.value, Split(r.cell)); }
    assert RowAhead(r, es) + [] == RowAhead(r, es);
    assert Split("") == [];
  }

  lemma {:induction false} CellSplits(words: seq<string>, row: seq<string>, cell: string, rest: string)
    ensures words + (row + Split(cell)) + Split(rest) == words + row + Split(cell + (" " + rest))
  {
    SplitApart(cell, ' ', rest);
    assert cell + [' '] + rest == cell + (" " + rest);
    FourParts(words, row, Split(cell), Split(rest));
  }

  lemma {:induction false} FourParts(a: seq<string>, b: seq<string>, c: seq<string>, d: seq<string>)
    ensures a + (b + c) + d == a + b + (c + d)
  {
  }

  /** A row ends: its words go to the lines. */
  lemma {:induction false} RowEndKeeps(r: Reading, es: seq<Ev>)
    requires es != [] && es[0] == EndTag(Tr)
    ensures TableAhead(Read(r, es[0]), es[1..]) == TableAhead(r, es)
  {
    var q := Read(r, es[0]);
    var rest := TableText(q.code, q.inCell, q.row.Some?, es[1..]);
    RowEndsAhead(r);
    assert RowAhead(q, es[1..]) == [];
    assert RowAhead(r, es) == if r.row.Some? then Flat(r.row.value) else [];
    assert CellAhead(q, es[1..]) == CellAhead(r, es);
    assert CellWords(q.lines) + [] == CellWords(q.lines);
    NothingForTables(r.code, r.inCell, r.row.Some?, es);
    SameAhead(r, q, es, es[1..], rest);
  }

  lemma {:induction false} RowEndsAhead(r: Reading)
    ensures var q := ReadRowEnd(r);
            && CellWords(q.lines) == CellWords(r.lines) + (if r.row.Some? then Flat(r.row.value) else [])
            && q.row.None? && q.cell == r.cell && q.code == r.code && q.inCell == r.inCell
  {
    assert CellWords(r.lines) + [] == CellWords(r.lines);
    if r.row.Some? {
      var lines := r.lines + [Row(r.row.value)];
      CellWordsSnoc(r.lines, Row(r.row.value));
      CellWordsSnoc(lines, RowRule(|r.row.value|));
      assert lines + [] == lines && CellWords(lines) + [] == CellWords(lines);
    }
  }

  lemma {:induction false} CellWordsFrom(r: Reading, es: seq<Ev>)
    ensures CellWords(PutOut(ReadAll(r, es)).lines) == TableAhead(r, es)
    decreases |es|
  {
    if es == [] {
      PutOutCells(r);
      assert CellWords(r.lines) + [] + [] == CellWords(r.lines);
      assert "" + "" == "" && Split("") == [];
    } else {
      if es[0].Data? || es[0] == StartTag(Br) { CellTextKeeps(r, es); }
      else if es[0].StartTag? && (es[0].tag.Td? || es[0].tag.Th? || es[0].tag.Tr?) { CellOrRowBegins(r, es); }
      else if CellEnd(es[0]) { CellEndKeeps(r, es); }
      else if es[0] == EndTag(Tr) { RowEndKeeps(r, es); }
      else { ElsewhereKeeps(r, es); }
      CellWordsFrom(Read(r, es[0]), es[1..]);
    }
  }

  /** The same for tables: the words of the rows, in order, are the words of the text in cells that end in
      a row that is closed. */
  lemma {:induction false} TableWordsInOrder(es: seq<Ev>)
    ensures CellWords(PageLines(es)) == Split(TableText(0, false, false, Outside(0, es)))
  {
    var kept := Outside(0, es);
    CellWordsFrom(BLANK_PAGE, kept);
    assert "" + TableText(0, false, false, kept) == TableText(0, false, false, kept);
    assert [] + [] + Split(TableText(0, false, false, kept)) == Split(TableText(0, false, false, kept));
  }
}
