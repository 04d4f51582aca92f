/** The HTML-to-Markdown state machine `ArticleToMarkdown` of rag-bench/scripts/fetch_corpus.py,
    from the parser's callbacks on. */
module ArticleMarkdown {
  import opened Common
  import opened Text

  /** The n of h1 to h6. */
  type Level = n: int | 1 <= n <= 6 witness 1

  /** The tag names the parser distinguishes. */
  datatype Tag =
    | Script | Style | Svg | Nav | Img | Button | Input
    | Pre | Heading(level: Level) | Li | Tr | Td | Th | Br | Hr
    | P | Div | Section | Header | Footer | Details | Summary
    | Blockquote | Ul | Ol | Table | Thead | Tbody
    | Other(name: string)

  /** SKIP_TAGS */
  predicate Skipped(tag: Tag) {
    tag.Script? || tag.Style? || tag.Svg? || tag.Nav? || tag.Img? || tag.Button? || tag.Input?
  }

  predicate Block(tag: Tag) {
    tag.P? || tag.Div? || tag.Section? || tag.Header? || tag.Footer? || tag.Details? || tag.Summary?
  }

  predicate TableFrame(tag: Tag) {
    tag.Table? || tag.Thead? || tag.Tbody?
  }

  datatype Ev = StartTag(tag: Tag) | EndTag(tag: Tag) | Data(text: string)

  /** The fields of the parser object. */
  datatype Parser = Parser(
    lines: seq<string>, buf: seq<string>, skipDepth: int, preDepth: int, preBuf: seq<string>,
    inCell: bool, cellBuf: seq<string>, rowCells: Option<seq<string>>, isHeaderRow: bool,
    listDepth: int, liOpen: bool, quote: bool)

  const NEW_PARSER := Parser([], [], 0, 0, [], false, [], None, false, 0, false, false)

  // ---------- strings ----------

  /** `re.sub(r"\s+", " ", t)` */
  function CollapseRuns(t: string): string
    decreases |t|
  {
    if t == [] then []
    else if !IsSpace(t[0]) then [t[0]] + CollapseRuns(t[1..])
    else if |t| > 1 && IsSpace(t[1]) then CollapseRuns(t[1..])
    else " " + CollapseRuns(t[1..])
  }

  function Tidy(parts: seq<string>): string {
    Strip(CollapseRuns(Concat(parts)))
  }

  /** `t.replace(word, "")` */
  function RemoveAll(t: string, word: string): string
    requires word != []
    decreases |t|
  {
    if t == [] then []
    else if word <= t then RemoveAll(t[|word|..], word)
    else [t[0]] + RemoveAll(t[1..], word)
  }

  function Repeat(unit: string, n: int): string
    decreases n
  {
    if n <= 0 then "" else unit + Repeat(unit, n - 1)
  }

  function Join(parts: seq<string>, sep: string): string {
    if |parts| == 0 then "" else if |parts| == 1 then parts[0] else parts[0] + sep + Join(parts[1..], sep)
  }

  function StripNewlines(t: string): string {
    if t != [] && t[|t| - 1] == '\n' then StripNewlines(t[..|t| - 1]) else t
  }

  const NUL := '\U{0}'

  function Marker(level: Level): string {
    [NUL, 'H', '0' + level as char, NUL]
  }

  // ---------- the callbacks ----------

  function AddText(p: Parser, s: string): (q': Parser)
    ensures q'.skipDepth == p.skipDepth
  {
    if p.skipDepth > 0 then p
    else if p.preDepth > 0 then p.(preBuf := p.preBuf + [s])
    else if p.inCell then p.(cellBuf := p.cellBuf + [s])
    else p.(buf := p.buf + [s], liOpen := false)
  }

  function FlushPara(p: Parser): (q': Parser)
    ensures q'.skipDepth == p.skipDepth
  {
    var text := Tidy(p.buf);
    if text == "" then p.(buf := [])
    else
      var prefix := if p.quote then "> " else "";
      var indent := Repeat("  ", if p.listDepth - 1 > 0 then p.listDepth - 1 else 0);
      var bullet := if p.listDepth > 0 then "- " else "";
      p.(buf := [], lines := p.lines + [prefix + indent + bullet + text])
  }

  function FlushCell(p: Parser): (q': Parser)
    ensures q'.skipDepth == p.skipDepth
  {
    var text := Tidy(p.cellBuf);
    p.(cellBuf := [], rowCells := if p.rowCells.Some? then Some(p.rowCells.value + [text]) else None)
  }

  function OpenTag(p: Parser, tag: Tag): (q': Parser)
    ensures q'.skipDepth == p.skipDepth
  {
    if Block(tag) || TableFrame(tag) then FlushPara(p) else
    match tag
    case Pre => OpenPre(p)
    case Heading(level) => OpenHeading(p, level)
    case Blockquote => FlushPara(p).(quote := true)
    case Ul => OpenList(p)
    case Ol => OpenList(p)
    case Li => FlushPara(p).(liOpen := true)
    case Tr => p.(rowCells := Some([]))
    case Td => p.(inCell := true)
    case Th => p.(inCell := true, isHeaderRow := true)
    case Br => AddText(p, " ")
    case Hr => AddRule(p)
    case _ => p
  }

  function OpenPre(p: Parser): (q': Parser)
    ensures q'.skipDepth == p.skipDepth
  {
    var q := FlushPara(p);
    q.(preDepth := q.preDepth + 1, preBuf := if q.preDepth + 1 == 1 then [] else q.preBuf)
  }

  function OpenHeading(p: Parser, level: Level): (q': Parser)
    ensures q'.skipDepth == p.skipDepth
  {
    var q := FlushPara(p);
    q.(buf := q.buf + [Marker(level)])
  }

  function AddRule(p: Parser): (q': Parser)
    ensures q'.skipDepth == p.skipDepth
  {
    var q := FlushPara(p);
    q.(lines := q.lines + ["---"])
  }

  function OpenList(p: Parser): (q': Parser)
    ensures q'.skipDepth == p.skipDepth
  {
    var q := FlushPara(p);
    q.(listDepth := q.listDepth + 1)
  }

  function ClosePre(p: Parser): (q': Parser)
    ensures q'.skipDepth == p.skipDepth
  {
    var q := p.(preDepth := p.preDepth - 1);
    if q.preDepth == 0 then q.(lines := q.lines + ["```\n" + StripNewlines(Concat(q.preBuf)) + "\n```"]) else q
  }

  function CloseList(p: Parser): (q': Parser)
    ensures q'.skipDepth == p.skipDepth
  {
    FlushPara(p.(listDepth := if p.listDepth - 1 > 0 then p.listDepth - 1 else 0))
  }

  function CloseHeading(p: Parser, level: Level): (q': Parser)
    ensures q'.skipDepth == p.skipDepth
  {
    var text := Strip(CollapseRuns(RemoveAll(Concat(p.buf), Marker(level))));
    var prefix := if p.quote then "> " else "";
    p.(buf := [], lines := p.lines + [prefix + Repeat("#", level) + " " + text])
  }

  function CloseRow(p: Parser): (q': Parser)
    ensures q'.skipDepth == p.skipDepth
  {
    if p.rowCells.None? then p
    else
      var cells := p.rowCells.value;
      var q := p.(rowCells := None);
      if cells == [] then q
      else
        var r := q.(lines := q.lines + ["| " + Join(cells, " | ") + " |"]);
        if r.isHeaderRow then r.(lines := r.lines + ["|" + Repeat("---|", |cells|)], isHeaderRow := false) else r
  }

  function CloseTag(p: Parser, tag: Tag): (q': Parser)
    ensures q'.skipDepth == p.skipDepth
  {
    if Block(tag) || tag.Table? then FlushPara(p) else
    match tag
    case Pre => ClosePre(p)
    case Heading(level) => CloseHeading(p, level)
    case Blockquote => FlushPara(p.(quote := false))
    case Ul => CloseList(p)
    case Ol => CloseList(p)
    case Td => FlushCell(p.(inCell := false))
    case Th => FlushCell(p.(inCell := false))
    case Tr => CloseRow(p)
    case _ => p
  }

  function Feed(p: Parser, e: Ev): Parser {
    match e
    case StartTag(tag) =>
      if Skipped(tag) then p.(skipDepth := p.skipDepth + 1)
      else if p.skipDepth > 0 then p
      else OpenTag(p, tag)
    case EndTag(tag) =>
      if Skipped(tag) then p.(skipDepth := if p.skipDepth - 1 > 0 then p.skipDepth - 1 else 0)
      else if p.skipDepth > 0 then p
      else CloseTag(p, tag)
    case Data(text) => AddText(p, text)
  }

  function FeedAll(p: Parser, es: seq<Ev>): Parser
    decreases |es|
  {
    if es == [] then p else FeedAll(Feed(p, es[0]), es[1..])
  }

  function Squeezed(lines: seq<string>, prevBlank: bool): seq<string> {
    if lines == [] then []
    else if Strip(lines[0]) != "" then [lines[0]] + Squeezed(lines[1..], false)
    else (if prevBlank then [] else [""]) + Squeezed(lines[1..], true)
  }

  /** `result()` */
  function Result(p: Parser): string {
    Strip(Join(Squeezed(FlushPara(p).lines, true), "\n")) + "\n"
  }

  /** Which tags open and close a skipped region, by name. */
  lemma {:induction false} SkipTags(p: Parser, tag: Tag)
    ensures var skips := tag.Script? || tag.Style? || tag.Svg? || tag.Nav? || tag.Img? || tag.Button? || tag.Input?;
            && Feed(p, StartTag(tag)).skipDepth == p.skipDepth + (if skips then 1 else 0)
            && (p.skipDepth > 0 ==> Feed(p, EndTag(tag)).skipDepth == p.skipDepth - (if skips then 1 else 0))
            && (p.skipDepth == 0 ==> Feed(p, EndTag(tag)).skipDepth == 0)
  {
  }

  /** Which start tags end a running paragraph: all but those of skipped elements, of rows and cells, of
      line breaks, and the ones the parser does not know. */
  lemma {:induction false} StartEndsParagraphIff(p: Parser, tag: Tag)
    requires p.skipDepth == 0 && Tidy(p.buf) != ""
    ensures |Feed(p, StartTag(tag)).lines| > |p.lines|
            <==> !(|| tag.Script? || tag.Style? || tag.Svg? || tag.Nav? || tag.Img? || tag.Button? || tag.Input?
                   || tag.Tr? || tag.Td? || tag.Th? || tag.Br? || tag.Other?)
  {
    if OpenFlushes(tag) { OpenAddsLines(p, tag); } else if !Skipped(tag) { OpenKeepsLines(p, tag); }
  }

  lemma {:induction false} OpenAddsLines(p: Parser, tag: Tag)
    requires OpenFlushes(tag)
    ensures |OpenTag(p, tag).lines| >= |FlushPara(p).lines|
  {
    match tag {
      case Heading(level) => assert OpenTag(p, tag).lines == FlushPara(p).lines;
      case _ =>
    }
  }

  lemma {:induction false} OpenKeepsLines(p: Parser, tag: Tag)
    requires !OpenFlushes(tag)
    ensures OpenTag(p, tag).lines == p.lines
  {
  }

  /** Which end tags take the running text: those of blocks, tables, lists, quotes and headings. */
  lemma {:induction false} EndTakesTextIff(p: Parser, tag: Tag)
    requires p.skipDepth == 0 && p.buf != []
    ensures Feed(p, EndTag(tag)).buf == []
            <==> || tag.P? || tag.Div? || tag.Section? || tag.Header? || tag.Footer? || tag.Details? || tag.Summary?
                 || tag.Table? || tag.Blockquote? || tag.Ul? || tag.Ol? || tag.Heading?
  {
    if CloseFlushes(tag) || tag.Heading? { CloseEmpties(p, tag); } else if !Skipped(tag) { CloseKeepsText(p, tag); }
  }

  lemma {:induction false} CloseKeepsText(p: Parser, tag: Tag)
    requires !CloseFlushes(tag) && !tag.Heading?
    ensures CloseTag(p, tag).buf == p.buf
  {
  }

  lemma {:induction false} FeedConcat(p: Parser, a: seq<Ev>, b: seq<Ev>)
    ensures FeedAll(p, a + b) == FeedAll(FeedAll(p, a), b)
    decreases |a|
  {
    if a == [] {
      assert a + b == b;
    } else {
      assert (a + b)[1..] == a[1..] + b;
      FeedConcat(Feed(p, a[0]), a[1..], b);
    }
  }

  // ---------- skipping, on documents ----------

  /** A document whose every element has its end tag. */
  datatype Node = TextNode(text: string) | Element(tag: Tag, children: seq<Node>)

  /** The callbacks the parser makes for a document. */
  function Events(ns: seq<Node>): seq<Ev>
    decreases ns
  {
    if ns == [] then []
    else
      (match ns[0]
       case TextNode(t) => [Data(t)]
       case Element(tag, children) => [StartTag(tag)] + Events(children) + [EndTag(tag)]) + Events(ns[1..])
  }

  /** The document without its skipped elements and everything inside them. */
  function Erase(ns: seq<Node>): seq<Node>
    decreases ns
  {
    if ns == [] then []
    else
      (match ns[0]
       case TextNode(t) => [ns[0]]
       case Element(tag, children) => if Skipped(tag) then [] else [Element(tag, Erase(children))]) + Erase(ns[1..])
  }

  lemma {:induction false} OneElement(p: Parser, tag: Tag, inner: seq<Ev>, rest: seq<Ev>)
    ensures FeedAll(p, [StartTag(tag)] + inner + [EndTag(tag)] + rest)
         == FeedAll(Feed(FeedAll(Feed(p, StartTag(tag)), inner), EndTag(tag)), rest)
  {
    var es := [StartTag(tag)] + inner + [EndTag(tag)] + rest;
    assert es[1..] == inner + ([EndTag(tag)] + rest);
    FeedConcat(Feed(p, StartTag(tag)), inner, [EndTag(tag)] + rest);
    assert ([EndTag(tag)] + rest)[1..] == rest;
  }

  /** Inside a skipped element a document changes nothing. */
  lemma {:induction false} SkippedDocument(p: Parser, ns: seq<Node>)
    requires p.skipDepth > 0
    ensures FeedAll(p, Events(ns)) == p
    decreases ns
  {
    if ns != [] {
      SkippedDocument(p, ns[1..]);
      match ns[0] {
        case TextNode(t) =>
          assert ([Data(t)] + Events(ns[1..]))[1..] == Events(ns[1..]);
        case Element(tag, children) =>
          OneElement(p, tag, Events(children), Events(ns[1..]));
          SkippedDocument(Feed(p, StartTag(tag)), children);
      }
    }
  }

  lemma {:induction false} FeedKeepsDepth(p: Parser, e: Ev)
    requires Survives(p.skipDepth, e)
    ensures Feed(p, e).skipDepth == p.skipDepth
  {
  }

  /** Skip erasure: a document with every skipped element erased leaves the parser in exactly the
      same state, so it gives exactly the same output. */
  lemma {:induction false} SkipErasure(p: Parser, ns: seq<Node>)
    requires p.skipDepth == 0
    ensures FeedAll(p, Events(ns)) == FeedAll(p, Events(Erase(ns)))
    ensures FeedAll(p, Events(ns)).skipDepth == 0
    decreases ns, 1
  {
    if ns != [] {
      match ns[0] {
        case TextNode(t) =>
          assert ([Data(t)] + Events(ns[1..]))[1..] == Events(ns[1..]);
          SkipErasure(AddText(p, t), ns[1..]);
          assert Erase(ns)[1..] == Erase(ns[1..]);
          assert ([Data(t)] + Events(Erase(ns[1..])))[1..] == Events(Erase(ns[1..]));
        case Element(tag, children) =>
          if Skipped(tag) { SkippedElement(p, ns); } else { KeptElement(p, ns); }
      }
    }
  }

  lemma {:induction false} SkippedElement(p: Parser, ns: seq<Node>)
    requires p.skipDepth == 0 && ns != [] && ns[0].Element? && Skipped(ns[0].tag)
    ensures FeedAll(p, Events(ns)) == FeedAll(p, Events(Erase(ns)))
    ensures FeedAll(p, Events(ns)).skipDepth == 0
    decreases ns, 0
  {
    OneElement(p, ns[0].tag, Events(ns[0].children), Events(ns[1..]));
    SkippedDocument(Feed(p, StartTag(ns[0].tag)), ns[0].children);
    SkipErasure(p, ns[1..]);
    assert Erase(ns) == Erase(ns[1..]);
  }

  lemma {:induction false} KeptElement(p: Parser, ns: seq<Node>)
    requires p.skipDepth == 0 && ns != [] && ns[0].Element? && !Skipped(ns[0].tag)
    ensures FeedAll(p, Events(ns)) == FeedAll(p, Events(Erase(ns)))
    ensures FeedAll(p, Events(ns)).skipDepth == 0
    decreases ns, 0
  {
    var tag, children := ns[0].tag, ns[0].children;
    var p1 := Feed(p, StartTag(tag));
    FeedKeepsDepth(p, StartTag(tag));
    SkipErasure(p1, children);
    var p2 := FeedAll(p1, Events(children));
    FeedKeepsDepth(p2, EndTag(tag));
    SkipErasure(Feed(p2, EndTag(tag)), ns[1..]);
    OneElement(p, tag, Events(children), Events(ns[1..]));
    OneElement(p, tag, Events(Erase(children)), Events(Erase(ns[1..])));
    assert Erase(ns)[1..] == Erase(ns[1..]);
  }

  lemma {:induction false} SkipErasureOfOutput(ns: seq<Node>)
    ensures Result(FeedAll(NEW_PARSER, Events(ns))) == Result(FeedAll(NEW_PARSER, Events(Erase(ns))))
  {
    SkipErasure(NEW_PARSER, ns);
  }

  // ---------- skipping, on any stream of callbacks ----------

  function DepthAfter(d: int, e: Ev): int {
    if e.StartTag? && Skipped(e.tag) then d + 1
    else if e.EndTag? && Skipped(e.tag) then (if d - 1 > 0 then d - 1 else 0)
    else d
  }

  function FinalDepth(d: int, es: seq<Ev>): int
    decreases |es|
  {
    if es == [] then d else FinalDepth(DepthAfter(d, es[0]), es[1..])
  }

  predicate Survives(d: int, e: Ev) {
    d <= 0 && (e.Data? || !Skipped(e.tag))
  }

  /** The callbacks outside every skipped region, by counting start and end tags. */
  function Outside(d: int, es: seq<Ev>): seq<Ev>
    decreases |es|
  {
    if es == [] then [] else (if Survives(d, es[0]) then [es[0]] else []) + Outside(DepthAfter(d, es[0]), es[1..])
  }

  lemma {:induction false} StreamErasure(p: Parser, d: nat, es: seq<Ev>)
    requires p.skipDepth == 0
    ensures FeedAll(p.(skipDepth := d), es) == FeedAll(p, Outside(d, es)).(skipDepth := FinalDepth(d, es))
    ensures FeedAll(p, Outside(d, es)).skipDepth == 0
    decreases |es|
  {
    if es != [] {
      var d1 := DepthAfter(d, es[0]);
      if Survives(d, es[0]) {
        var p1 := Feed(p, es[0]);
        assert p.(skipDepth := d) == p && p1.skipDepth == 0 && d1 == 0;
        assert p1.(skipDepth := 0) == p1;
        StreamErasure(p1, 0, es[1..]);
        assert ([es[0]] + Outside(d1, es[1..]))[1..] == Outside(d1, es[1..]);
      } else {
        assert Feed(p.(skipDepth := d), es[0]) == p.(skipDepth := d1);
        assert Outside(d, es) == Outside(d1, es[1..]);
        StreamErasure(p, d1, es[1..]);
      }
    }
  }

  /** For an arbitrary stream, stray end tags included, erasure is exact if and only if no skipped
      region is still open at the end. */
  lemma {:induction false} StreamErasureIff(es: seq<Ev>)
    ensures FeedAll(NEW_PARSER, es) == FeedAll(NEW_PARSER, Outside(0, es)) <==> FinalDepth(0, es) == 0
  {
    StreamErasure(NEW_PARSER, 0, es);
    assert NEW_PARSER.(skipDepth := 0) == NEW_PARSER;
  }

  lemma {:induction false} OpenSkipKeepsState(p: Parser, es: seq<Ev>)
    requires p.skipDepth > 0 && forall i :: 0 <= i < |es| && es[i].EndTag? ==> !Skipped(es[i].tag)
    ensures FeedAll(p, es).skipDepth > 0
    ensures FeedAll(p, es) == p.(skipDepth := FeedAll(p, es).skipDepth)
    decreases |es|
  {
    if es != [] {
      assert Feed(p, es[0]) == p.(skipDepth := Feed(p, es[0]).skipDepth);
      OpenSkipKeepsState(Feed(p, es[0]), es[1..]);
    }
  }

  /** A skipped tag without an end tag, such as a bare img or input, swallows the rest of the page. */
  lemma {:induction false} UnclosedSkipSwallows(p: Parser, tag: Tag, es: seq<Ev>)
    requires p.skipDepth >= 0 && Skipped(tag)
    requires forall i :: 0 <= i < |es| && es[i].EndTag? ==> !Skipped(es[i].tag)
    ensures Result(FeedAll(p, [StartTag(tag)] + es)) == Result(p)
  {
    assert ([StartTag(tag)] + es)[1..] == es;
    OpenSkipKeepsState(Feed(p, StartTag(tag)), es);
    ResultIgnoresDepth(p, FeedAll(p, [StartTag(tag)] + es).skipDepth);
  }

  lemma {:induction false} ResultIgnoresDepth(p: Parser, d: int)
    ensures Result(p.(skipDepth := d)) == Result(p)
  {
  }

  // ---------- visible characters ----------

  /** The characters that are not space, in order. */
  function Ink(t: string): string {
    if t == [] then [] else (if IsSpace(t[0]) then [] else [t[0]]) + Ink(t[1..])
  }

  lemma {:induction false} InkAppend(a: string, b: string)
    ensures Ink(a + b) == Ink(a) + Ink(b)
    decreases |a|
  {
    if a == [] {
      assert a + b == b;
    } else {
      assert (a + b)[1..] == a[1..] + b;
      InkAppend(a[1..], b);
    }
  }

  lemma {:induction false} InkSnoc(t: string)
    requires t != []
    ensures Ink(t) == Ink(t[..|t| - 1]) + if IsSpace(t[|t| - 1]) then [] else [t[|t| - 1]]
  {
    assert t == t[..|t| - 1] + [t[|t| - 1]];
    InkAppend(t[..|t| - 1], [t[|t| - 1]]);
    assert [t[|t| - 1]][1..] == [];
  }

  lemma {:induction false} InkOfCollapsed(t: string)
    ensures Ink(CollapseRuns(t)) == Ink(t)
    decreases |t|
  {
    if t != [] {
      InkOfCollapsed(t[1..]);
      if !IsSpace(t[0]) {
        assert ([t[0]] + CollapseRuns(t[1..]))[1..] == CollapseRuns(t[1..]);
      } else if !(|t| > 1 && IsSpace(t[1])) {
        assert (" " + CollapseRuns(t[1..]))[1..] == CollapseRuns(t[1..]);
      }
    }
  }

  lemma {:induction false} InkOfRightStripped(t: string)
    ensures Ink(RightStrip(t)) == Ink(t)
    ensures RightStrip(t) == "" <==> Ink(t) == ""
    decreases |t|
  {
    if t != [] {
      InkSnoc(t);
      if IsSpace(t[|t| - 1]) { InkOfRightStripped(t[..|t| - 1]); }
    }
  }

  lemma {:induction false} InkOfLeftStripped(t: string)
    ensures Ink(LeftStrip(t)) == Ink(t)
    decreases |t|
  {
    if t != [] && IsSpace(t[0]) { InkOfLeftStripped(t[1..]); }
  }

  /** Stripping keeps the visible characters, and leaves nothing exactly if there are none. */
  lemma {:induction false} InkOfStripped(t: string)
    ensures Ink(Strip(t)) == Ink(t)
    ensures Strip(t) == "" <==> Ink(t) == ""
  {
    InkOfLeftStripped(t);
    InkOfRightStripped(LeftStrip(t));
  }

  lemma {:induction false} InkOfTidy(parts: seq<string>)
    ensures Ink(Tidy(parts)) == Ink(Concat(parts))
    ensures Tidy(parts) == "" <==> Ink(Concat(parts)) == ""
  {
    InkOfStripped(CollapseRuns(Concat(parts)));
    InkOfCollapsed(Concat(parts));
  }

  lemma {:induction false} InkOfSpaces(n: int)
    ensures Ink(Repeat("  ", n)) == ""
    decreases n
  {
    if n > 0 {
      InkOfSpaces(n - 1);
      InkAppend("  ", Repeat("  ", n - 1));
      assert Ink("  ") == "";
    }
  }

  // ---------- the line a paragraph adds ----------

  /** What the quote and the list add in front of a paragraph, apart from spaces. */
  function Lead(p: Parser): string {
    (if p.quote then ">" else "") + if p.listDepth > 0 then "-" else ""
  }

  lemma {:induction false} InkOfLead(p: Parser)
    ensures Ink((if p.quote then "> " else "")
                + Repeat("  ", if p.listDepth - 1 > 0 then p.listDepth - 1 else 0)
                + if p.listDepth > 0 then "- " else "") == Lead(p)
  {
    InkOfMarks();
    InkOfSpaces(if p.listDepth - 1 > 0 then p.listDepth - 1 else 0);
    InkOfThree(if p.quote then "> " else "", Repeat("  ", if p.listDepth - 1 > 0 then p.listDepth - 1 else 0),
               if p.listDepth > 0 then "- " else "");
  }

  lemma {:induction false} InkOfMarks()
    ensures Ink("> ") == ">" && Ink("- ") == "-" && Ink("") == ""
  {
  }

  lemma {:induction false} InkOfThree(a: string, b: string, d: string)
    requires Ink(b) == ""
    ensures Ink(a + b + d) == Ink(a) + Ink(d)
  {
    InkAppend(a + b, d);
    InkAppend(a, b);
    assert Ink(a) + "" == Ink(a);
  }

  /** A flushed paragraph adds one line with the visible characters of the buffered text, in order,
      behind its quote and bullet; without visible characters it adds none. */
  lemma {:induction false} ParagraphAddsLine(p: Parser)
    ensures var q, text := FlushPara(p), Ink(Concat(p.buf));
            && q.buf == []
            && (text == "" ==> q.lines == p.lines)
            && (text != "" ==>
                  && |q.lines| == |p.lines| + 1 && q.lines[..|p.lines|] == p.lines
                  && Ink(q.lines[|p.lines|]) == Lead(p) + text)
  {
    InkOfTidy(p.buf);
    if Ink(Concat(p.buf)) != "" {
      InkOfLead(p);
      InkAppend((if p.quote then "> " else "")
                + Repeat("  ", if p.listDepth - 1 > 0 then p.listDepth - 1 else 0)
                + (if p.listDepth > 0 then "- " else ""), Tidy(p.buf));
    }
  }

  // ---------- no line is blank ----------

  ghost predicate NoBlank(lines: seq<string>) {
    forall i :: 0 <= i < |lines| ==> Ink(lines[i]) != ""
  }

  lemma {:induction false} InkHas(t: string, i: nat)
    requires i < |t| && !IsSpace(t[i])
    ensures Ink(t) != ""
    decreases |t|
  {
    if i > 0 { InkHas(t[1..], i - 1); }
  }

  lemma {:induction false} ParagraphKeepsNoBlank(p: Parser)
    requires NoBlank(p.lines)
    ensures NoBlank(FlushPara(p).lines)
  {
    ParagraphAddsLine(p);
    var q := FlushPara(p);
    forall i | 0 <= i < |q.lines| ensures Ink(q.lines[i]) != "" {
      if i < |p.lines| { assert q.lines[i] == q.lines[..|p.lines|][i]; }
    }
  }

  lemma {:induction false} OpenKeepsNoBlank(p: Parser, tag: Tag)
    requires NoBlank(p.lines)
    ensures NoBlank(OpenTag(p, tag).lines)
  {
    ParagraphKeepsNoBlank(p);
    InkHas("---", 0);
    if OpenFlushes(tag) { OpenFlushed(p, tag); } else { OpenUnflushed(p, tag); }
  }

  /** Start tags that put out the buffered paragraph. */
  predicate OpenFlushes(tag: Tag) {
    || Block(tag) || TableFrame(tag) || tag.Pre? || tag.Heading? || tag.Blockquote? || tag.Ul? || tag.Ol? || tag.Li?
    || tag.Hr?
  }

  lemma {:induction false} OpenFlushed(p: Parser, tag: Tag)
    requires OpenFlushes(tag)
    ensures OpenTag(p, tag).lines == FlushPara(p).lines + if tag.Hr? then ["---"] else []
  {
    var lines := FlushPara(p).lines;
    assert lines + [] == lines;
    if !tag.Hr? { OpenFlushedPlainly(p, tag); }
  }

  lemma {:induction false} OpenFlushedPlainly(p: Parser, tag: Tag)
    requires OpenFlushes(tag) && !tag.Hr?
    ensures OpenTag(p, tag).lines == FlushPara(p).lines
  {
    if tag.Pre? {
      OpensPre(p);
    } else if tag.Heading? {
      OpensHeading(p, tag.level);
    } else if tag.Ul? || tag.Ol? {
      OpensList(p);
    } else if tag.Li? || tag.Blockquote? {
      OpensItemOrQuote(p);
    } else {
      OpensBlock(p, tag);
    }
  }

  lemma {:induction false} OpensPre(p: Parser)
    ensures OpenTag(p, Pre) == OpenPre(p)
  {
  }

  lemma {:induction false} OpensHeading(p: Parser, level: Level)
    ensures OpenTag(p, Heading(level)) == OpenHeading(p, level)
  {
  }

  lemma {:induction false} OpensList(p: Parser)
    ensures OpenTag(p, Ul) == OpenTag(p, Ol) == OpenList(p)
  {
  }

  lemma {:induction false} OpensItemOrQuote(p: Parser)
    ensures OpenTag(p, Li) == FlushPara(p).(liOpen := true) && OpenTag(p, Blockquote) == FlushPara(p).(quote := true)
  {
  }

  lemma {:induction false} OpensBlock(p: Parser, tag: Tag)
    requires Block(tag) || TableFrame(tag)
    ensures OpenTag(p, tag) == FlushPara(p)
  {
  }

  lemma {:induction false} OpenUnflushed(p: Parser, tag: Tag)
    requires !OpenFlushes(tag)
    ensures OpenTag(p, tag).lines == p.lines
  {
  }

  /** A closing tag that adds no line of its own flushes at most. */
  lemma {:induction false} CloseCases(p: Parser, tag: Tag)
    requires !tag.Pre? && !tag.Heading? && !tag.Tr? && !tag.Td? && !tag.Th?
    ensures var q := CloseTag(p, tag);
            q == p || q == FlushPara(p) || q == FlushPara(p.(quote := false)) || q == CloseList(p)
  {
  }

  lemma {:induction false} HeadingLineInk(level: Level, quote: bool, text: string)
    ensures Ink((if quote then "> " else "") + Repeat("#", level) + " " + text) != ""
  {
    var prefix := if quote then "> " else "";
    assert Repeat("#", level)[0] == '#';
    var line := prefix + Repeat("#", level) + " " + text;
    assert line[|prefix|] == '#';
    InkHas(line, |prefix|);
  }

  lemma {:induction false} CloseKeepsNoBlank(p: Parser, tag: Tag)
    requires NoBlank(p.lines)
    ensures NoBlank(CloseTag(p, tag).lines)
  {
    CloseLines(p, tag);
    CodeKeepsNoBlank(p);
    RowKeepsNoBlank(p);
    ParagraphKeepsNoBlank(p);
    ParagraphKeepsNoBlank(p.(quote := false));
    ParagraphKeepsNoBlank(p.(listDepth := if p.listDepth - 1 > 0 then p.listDepth - 1 else 0));
    if tag.Heading? { HeadingKeepsNoBlank(p, tag.level); }
  }

  lemma {:induction false} CloseLines(p: Parser, tag: Tag)
    ensures var lines := CloseTag(p, tag).lines;
            || lines == p.lines || lines == ClosePre(p).lines || lines == CloseRow(p).lines
            || lines == FlushPara(p).lines || lines == FlushPara(p.(quote := false)).lines
            || lines == CloseList(p).lines
            || (tag.Heading? && lines == CloseHeading(p, tag.level).lines)
  {
    if tag.Pre? {
      ClosesPre(p);
    } else if tag.Td? || tag.Th? {
      ClosesCell(p);
    } else if tag.Tr? {
      ClosesRow(p);
    } else if tag.Heading? {
      ClosesHeading(p, tag.level);
    } else {
      CloseCases(p, tag);
    }
  }

  lemma {:induction false} CodeKeepsNoBlank(p: Parser)
    requires NoBlank(p.lines)
    ensures NoBlank(ClosePre(p).lines)
  {
    var line := "```\n" + StripNewlines(Concat(p.preBuf)) + "\n```";
    assert line[0] == '`';
    InkHas(line, 0);
  }

  lemma {:induction false} HeadingKeepsNoBlank(p: Parser, level: Level)
    requires NoBlank(p.lines)
    ensures NoBlank(CloseHeading(p, level).lines)
  {
    HeadingLineInk(level, p.quote, Strip(CollapseRuns(RemoveAll(Concat(p.buf), Marker(level)))));
  }

  lemma {:induction false} RowKeepsNoBlank(p: Parser)
    requires NoBlank(p.lines)
    ensures NoBlank(CloseRow(p).lines)
  {
    if p.rowCells.Some? && p.rowCells.value != [] {
      var line := "| " + Join(p.rowCells.value, " | ") + " |";
      assert line[0] == '|';
      InkHas(line, 0);
      InkHas("|" + Repeat("---|", |p.rowCells.value|), 0);
    }
  }

  /** Whatever the parser is fed, no line is ever blank. */
  lemma {:induction false} LinesNeverBlank(p: Parser, es: seq<Ev>)
    requires NoBlank(p.lines)
    ensures NoBlank(FeedAll(p, es).lines)
    decreases |es|
  {
    if es != [] {
      if p.skipDepth <= 0 && !es[0].Data? && !Skipped(es[0].tag) {
        if es[0].StartTag? { OpenKeepsNoBlank(p, es[0].tag); } else { CloseKeepsNoBlank(p, es[0].tag); }
      }
      LinesNeverBlank(Feed(p, es[0]), es[1..]);
    }
  }

  lemma {:induction false} NothingToSqueeze(lines: seq<string>, prevBlank: bool)
    requires NoBlank(lines)
    ensures Squeezed(lines, prevBlank) == lines
    decreases |lines|
  {
    if lines != [] {
      assert Ink(lines[0]) != "";
      InkOfStripped(lines[0]);
      NothingToSqueeze(lines[1..], false);
      assert [lines[0]] + lines[1..] == lines;
    }
  }

  /** So the blank-line loop of `result()` never has anything to do: the text is the plain join. */
  lemma {:induction false} ResultIsJoin(es: seq<Ev>)
    ensures var p := FlushPara(FeedAll(NEW_PARSER, es));
            && Squeezed(p.lines, true) == p.lines
            && Result(FeedAll(NEW_PARSER, es)) == Strip(Join(p.lines, "\n")) + "\n"
  {
    LinesNeverBlank(NEW_PARSER, es);
    ParagraphKeepsNoBlank(FeedAll(NEW_PARSER, es));
    NothingToSqueeze(FlushPara(FeedAll(NEW_PARSER, es)).lines, true);
  }

  // ---------- which characters reach the output ----------

  /** How often c occurs in t. */
  function Times(c: char, t: string): nat {
    if t == [] then 0 else (if t[0] == c then 1 else 0) + Times(c, t[1..])
  }

  /** How often c occurs in the parts. */
  function In(c: char, parts: seq<string>): nat {
    if parts == [] then 0 else Times(c, parts[0]) + In(c, parts[1..])
  }

  lemma {:induction false} TimesAppend(c: char, a: string, b: string)
    ensures Times(c, a + b) == Times(c, a) + Times(c, b)
    decreases |a|
  {
    if a == [] {
      assert a + b == b;
    } else {
      assert (a + b)[1..] == a[1..] + b;
      TimesAppend(c, a[1..], b);
    }
  }

  lemma {:induction false} InSnoc(c: char, parts: seq<string>, t: string)
    ensures In(c, parts + [t]) == In(c, parts) + Times(c, t)
    decreases |parts|
  {
    if parts == [] {
      assert ([] + [t])[1..] == [];
    } else {
      assert (parts + [t])[1..] == parts[1..] + [t];
      InSnoc(c, parts[1..], t);
    }
  }

  lemma {:induction false} TimesInConcat(c: char, parts: seq<string>)
    ensures Times(c, Concat(parts)) == In(c, parts)
    decreases |parts|
  {
    if parts != [] {
      TimesAppend(c, parts[0], Concat(parts[1..]));
      TimesInConcat(c, parts[1..]);
    }
  }

  lemma {:induction false} TimesInInk(c: char, t: string)
    requires !IsSpace(c)
    ensures Times(c, Ink(t)) == Times(c, t)
    decreases |t|
  {
    if t != [] {
      TimesInInk(c, t[1..]);
      if IsSpace(t[0]) {
        assert [] + Ink(t[1..]) == Ink(t[1..]);
      } else {
        assert ([t[0]] + Ink(t[1..]))[1..] == Ink(t[1..]);
      }
    }
  }

  /** A character the converter never writes itself: not space, and none of its own marks. */
  predicate Plain(c: char) {
    !IsSpace(c) && c !in "#>-|`"
  }

  /** c is no part of the mark the heading tags of the stream put into the buffer. */
  ghost predicate NotMarked(c: char, es: seq<Ev>) {
    forall i :: 0 <= i < |es| && !es[i].Data? && es[i].tag.Heading? ==> c !in Marker(es[i].tag.level)
  }

  /** The text of the stream has no NUL, the character that begins and ends a mark. */
  ghost predicate NulFree(es: seq<Ev>) {
    forall i :: 0 <= i < |es| && es[i].Data? ==> NUL !in es[i].text
  }

  lemma {:induction false} TimesAbsent(c: char, t: string)
    requires c !in t
    ensures Times(c, t) == 0
    decreases |t|
  {
    if t != [] { TimesAbsent(c, t[1..]); }
  }

  /** Around some text, marks without c. */
  lemma {:induction false} TimesFramed(c: char, before: string, t: string, after: string)
    requires c !in before && c !in after
    ensures Times(c, before + t + after) == Times(c, t)
  {
    TimesAppend(c, before + t, after);
    TimesAppend(c, before, t);
    TimesAbsent(c, before);
    TimesAbsent(c, after);
  }

  lemma {:induction false} AbsentInRepeat(c: char, unit: string, n: int)
    requires c !in unit
    ensures c !in Repeat(unit, n)
    decreases n
  {
    if n > 0 { AbsentInRepeat(c, unit, n - 1); }
  }

  lemma {:induction false} TimesTidy(c: char, parts: seq<string>)
    requires !IsSpace(c)
    ensures Times(c, Tidy(parts)) == In(c, parts)
  {
    InkOfTidy(parts);
    TimesInInk(c, Tidy(parts));
    TimesInInk(c, Concat(parts));
    TimesInConcat(c, parts);
  }

  lemma {:induction false} TimesRemoved(c: char, t: string, word: string)
    requires word != [] && c !in word
    ensures Times(c, RemoveAll(t, word)) == Times(c, t)
    decreases |t|
  {
    if t != [] {
      if word <= t {
        TimesRemoved(c, t[|word|..], word);
        assert t == word + t[|word|..];
        TimesAppend(c, word, t[|word|..]);
        TimesAbsent(c, word);
      } else {
        TimesRemoved(c, t[1..], word);
        assert ([t[0]] + RemoveAll(t[1..], word))[1..] == RemoveAll(t[1..], word);
      }
    }
  }

  lemma {:induction false} TimesStripNewlines(c: char, t: string)
    requires c != '\n'
    ensures Times(c, StripNewlines(t)) == Times(c, t)
    decreases |t|
  {
    if t != [] && t[|t| - 1] == '\n' {
      assert t == t[..|t| - 1] + ['\n'];
      TimesAppend(c, t[..|t| - 1], ['\n']);
      TimesAbsent(c, ['\n']);
      TimesStripNewlines(c, t[..|t| - 1]);
    }
  }

  lemma {:induction false} TimesJoin(c: char, parts: seq<string>, sep: string)
    requires c !in sep
    ensures Times(c, Join(parts, sep)) == In(c, parts)
    decreases |parts|
  {
    if |parts| == 1 {
      assert parts[1..] == [];
    } else if parts != [] {
      TimesJoin(c, parts[1..], sep);
      TimesAppend(c, parts[0] + sep, Join(parts[1..], sep));
      TimesAppend(c, parts[0], sep);
      TimesAbsent(c, sep);
    }
  }

  /** Flushing a paragraph moves its characters from the buffer to the lines. */
  lemma {:induction false} ParagraphMoves(c: char, p: Parser)
    requires Plain(c)
    ensures FlushPara(p).buf == [] && In(c, FlushPara(p).lines) == In(c, p.lines) + In(c, p.buf)
  {
    TimesTidy(c, p.buf);
    if Tidy(p.buf) != "" {
      var prefix, bullet := if p.quote then "> " else "", if p.listDepth > 0 then "- " else "";
      var indent := Repeat("  ", if p.listDepth - 1 > 0 then p.listDepth - 1 else 0);
      AbsentInRepeat(c, "  ", if p.listDepth - 1 > 0 then p.listDepth - 1 else 0);
      var lead := prefix + indent + bullet;
      assert lead + Tidy(p.buf) + "" == lead + Tidy(p.buf);
      TimesFramed(c, lead, Tidy(p.buf), "");
      InSnoc(c, p.lines, lead + Tidy(p.buf));
    }
  }

  // ---------- the marks of headings ----------

  /** `mark` is the mark at the front of the buffer, if there is one; the rest of it has no NUL. */
  ghost predicate Agrees(buf: seq<string>, mark: Option<Level>) {
    match mark
    case None => forall i :: 0 <= i < |buf| ==> NUL !in buf[i]
    case Some(level) => buf != [] && buf[0] == Marker(level) && forall i :: 0 < i < |buf| ==> NUL !in buf[i]
  }

  lemma {:induction false} ConcatNulFree(parts: seq<string>)
    requires forall i :: 0 <= i < |parts| ==> NUL !in parts[i]
    ensures NUL !in Concat(parts)
    decreases |parts|
  {
    if parts != [] { ConcatNulFree(parts[1..]); }
  }

  lemma {:induction false} NothingToRemove(t: string, level: Level)
    requires NUL !in t
    ensures RemoveAll(t, Marker(level)) == t
    decreases |t|
  {
    if t != [] {
      assert t[0] != Marker(level)[0];
      NothingToRemove(t[1..], level);
    }
  }

  lemma {:induction false} OwnMarkGoes(t: string, level: Level)
    requires NUL !in t
    ensures RemoveAll(Marker(level) + t, Marker(level)) == t
  {
    assert (Marker(level) + t)[|Marker(level)|..] == t;
    NothingToRemove(t, level);
  }

  lemma {:induction false} OtherMarkStays(t: string, level: Level, other: Level)
    requires NUL !in t && other != level
    ensures RemoveAll(Marker(other) + t, Marker(level)) == Marker(other) + t
  {
    var digit, m := '0' + other as char, Marker(level);
    var s3 := [NUL] + t;
    var s2 := [digit] + s3;
    var s1 := ['H'] + s2;
    NothingToRemove(t, level);
    NoMarkAtItsEnd(t, level);
    FirstStays(NUL, t, m);
    assert m[0] == NUL && digit != NUL;
    assert s2[0] == digit && s1[0] == 'H';
    FirstStays(digit, s3, m);
    FirstStays('H', s2, m);
    assert !(m <= [NUL] + s1) by { assert ([NUL] + s1)[2] == digit != m[2]; }
    FirstStays(NUL, s1, m);
    assert Marker(other) + t == [NUL] + s1;
  }

  lemma {:induction false} FirstStays(c: char, t: string, word: string)
    requires word != [] && !(word <= [c] + t)
    ensures RemoveAll([c] + t, word) == [c] + RemoveAll(t, word)
  {
    assert ([c] + t)[0] == c && ([c] + t)[1..] == t;
  }

  lemma {:induction false} NoMarkAtItsEnd(t: string, level: Level)
    requires NUL !in t
    ensures !(Marker(level) <= [NUL] + t)
  {
    var s := [NUL] + t;
    if |s| > 3 { assert s[3] == t[2] && t[2] in t; }
  }

  /** What removing the mark of a level takes out of the buffer: the mark, if it is that level's. */
  lemma {:induction false} TimesUnmarked(c: char, buf: seq<string>, mark: Option<Level>, level: Level)
    requires Agrees(buf, mark) || c !in Marker(level)
    ensures Times(c, RemoveAll(Concat(buf), Marker(level)))
            == In(c, buf) - if mark == Some(level) then Times(c, Marker(level)) else 0
  {
    TimesInConcat(c, buf);
    if c !in Marker(level) {
      TimesRemoved(c, Concat(buf), Marker(level));
      TimesAbsent(c, Marker(level));
    } else if mark.None? {
      ConcatNulFree(buf);
      NothingToRemove(Concat(buf), level);
    } else {
      var t := Concat(buf[1..]);
      ConcatNulFree(buf[1..]);
      TimesAppend(c, buf[0], t);
      if mark.value == level { OwnMarkGoes(t, level); } else { OtherMarkStays(t, level, mark.value); }
    }
  }

  /** End tags that put out the buffered paragraph. */
  predicate CloseFlushes(tag: Tag) {
    Block(tag) || tag.Table? || tag.Blockquote? || tag.Ul? || tag.Ol?
  }

  predicate Flushes(e: Ev) {
    match e
    case StartTag(tag) => OpenFlushes(tag)
    case EndTag(tag) => CloseFlushes(tag)
    case Data(_) => false
  }

  predicate EndsHeading(e: Ev) {
    e.EndTag? && e.tag.Heading?
  }

  /** The mark that is in the buffer after an event. */
  function MarkAfter(mark: Option<Level>, e: Ev): Option<Level> {
    if e.StartTag? && e.tag.Heading? then Some(e.tag.level)
    else if Flushes(e) || EndsHeading(e) then None
    else mark
  }

  /** A mark in the buffer is put out: it is flushed, or another heading ends, before the next end tag of
      its own level.  The end of the input flushes as well. */
  predicate MarkLeaks(level: Level, es: seq<Ev>)
    decreases |es|
  {
    es == [] ||
    if EndsHeading(es[0]) then es[0].tag.level != level
    else Flushes(es[0]) || MarkLeaks(level, es[1..])
  }

  /** How often c occurs in the mark of es[0], if that is put out. */
  function LeakOf(c: char, es: seq<Ev>): nat
    requires es != []
  {
    if es[0].StartTag? && es[0].tag.Heading? && MarkLeaks(es[0].tag.level, es[1..])
    then Times(c, Marker(es[0].tag.level)) else 0
  }

  /** How often c occurs in the marks that are put out. */
  function Leaked(c: char, es: seq<Ev>): nat
    decreases |es|
  {
    if es == [] then 0 else LeakOf(c, es) + Leaked(c, es[1..])
  }

  /** How often c occurs in the mark in the buffer, if that will be taken out again. */
  function Owed(c: char, mark: Option<Level>, es: seq<Ev>): nat {
    if mark.Some? && !MarkLeaks(mark.value, es) then Times(c, Marker(mark.value)) else 0
  }

  function MarkMade(c: char, e: Ev): nat {
    if e.StartTag? && e.tag.Heading? then Times(c, Marker(e.tag.level)) else 0
  }

  function MarkTaken(c: char, mark: Option<Level>, e: Ev): int {
    if EndsHeading(e) && mark == Some(e.tag.level) then Times(c, Marker(e.tag.level)) else 0
  }

  lemma {:induction false} OwedStep(c: char, mark: Option<Level>, es: seq<Ev>)
    requires es != []
    ensures Owed(c, MarkAfter(mark, es[0]), es[1..])
            == Owed(c, mark, es) + MarkMade(c, es[0]) - LeakOf(c, es) - MarkTaken(c, mark, es[0])
  {
  }

  lemma {:induction false} FlushEmpties(p: Parser, e: Ev)
    requires p.skipDepth == 0 && Survives(0, e) && (Flushes(e) || EndsHeading(e))
    ensures Feed(p, e).buf == if e.StartTag? && e.tag.Heading? then [Marker(e.tag.level)] else []
  {
    if e.StartTag? { OpenEmpties(p, e.tag); } else { CloseEmpties(p, e.tag); }
  }

  lemma {:induction false} OpenEmpties(p: Parser, tag: Tag)
    requires OpenFlushes(tag)
    ensures OpenTag(p, tag).buf == if tag.Heading? then [Marker(tag.level)] else []
  {
    if tag.Pre? {
      OpensPre(p);
    } else if tag.Heading? {
      OpensHeading(p, tag.level);
    } else if tag.Ul? || tag.Ol? {
      OpensList(p);
    } else if tag.Li? || tag.Blockquote? {
      OpensItemOrQuote(p);
    } else if tag.Hr? {
      OpensRule(p);
    } else {
      OpensBlock(p, tag);
    }
  }

  lemma {:induction false} OpensRule(p: Parser)
    ensures OpenTag(p, Hr) == AddRule(p)
  {
  }

  lemma {:induction false} CloseEmpties(p: Parser, tag: Tag)
    requires CloseFlushes(tag) || tag.Heading?
    ensures CloseTag(p, tag).buf == []
  {
  }

  lemma {:induction false} OthersAppend(p: Parser, e: Ev)
    requires p.skipDepth == 0 && Survives(0, e) && !Flushes(e) && !EndsHeading(e)
    ensures var buf := Feed(p, e).buf;
            buf == p.buf || buf == p.buf + [" "] || (e.Data? && buf == p.buf + [e.text])
  {
    if e == StartTag(Br) {
      OpensBreak(p);
    } else if e.StartTag? {
      OpenKeepsBuffer(p, e.tag);
    } else if e.EndTag? {
      CloseKeepsBuffer(p, e.tag);
    }
  }

  lemma {:induction false} OpensBreak(p: Parser)
    ensures OpenTag(p, Br) == AddText(p, " ")
  {
  }

  lemma {:induction false} OpenKeepsBuffer(p: Parser, tag: Tag)
    requires !OpenFlushes(tag) && !tag.Br?
    ensures OpenTag(p, tag).buf == p.buf
  {
  }

  lemma {:induction false} CloseKeepsBuffer(p: Parser, tag: Tag)
    requires !CloseFlushes(tag) && !tag.Heading?
    ensures CloseTag(p, tag).buf == p.buf
  {
    if tag.Pre? {
      ClosesPre(p);
    } else if tag.Td? || tag.Th? {
      ClosesCell(p);
    } else if tag.Tr? {
      ClosesRow(p);
    }
  }

  lemma {:induction false} ClosesPre(p: Parser)
    ensures CloseTag(p, Pre) == ClosePre(p)
  {
  }

  lemma {:induction false} ClosesCell(p: Parser)
    ensures CloseTag(p, Td) == CloseTag(p, Th) == FlushCell(p.(inCell := false))
  {
  }

  lemma {:induction false} ClosesRow(p: Parser)
    ensures CloseTag(p, Tr) == CloseRow(p)
  {
  }

  lemma {:induction false} FeedAgrees(p: Parser, mark: Option<Level>, e: Ev)
    requires p.skipDepth == 0 && Survives(0, e) && Agrees(p.buf, mark) && (e.Data? ==> NUL !in e.text)
    ensures Agrees(Feed(p, e).buf, MarkAfter(mark, e))
  {
    if Flushes(e) || EndsHeading(e) { FlushEmpties(p, e); } else { OthersAppend(p, e); }
  }

  /** Marks can be told from text: the text has no NUL, or c is in no mark. */
  ghost predicate Legible(c: char, buf: seq<string>, mark: Option<Level>, es: seq<Ev>) {
    || (NulFree(es) && Agrees(buf, mark))
    || (NotMarked(c, es) && (mark.Some? ==> c !in Marker(mark.value)))
  }

  lemma {:induction false} LegibleStep(c: char, p: Parser, mark: Option<Level>, es: seq<Ev>)
    requires p.skipDepth == 0 && es != [] && Survives(0, es[0]) && Legible(c, p.buf, mark, es)
    ensures Legible(c, Feed(p, es[0]).buf, MarkAfter(mark, es[0]), es[1..])
  {
    assert forall i :: 0 <= i < |es[1..]| ==> es[1..][i] == es[i + 1];
    if NulFree(es) && Agrees(p.buf, mark) { FeedAgrees(p, mark, es[0]); }
  }

  lemma {:induction false} HeadingMoves(c: char, p: Parser, mark: Option<Level>, level: Level)
    requires Plain(c) && (Agrees(p.buf, mark) || c !in Marker(level))
    ensures var q := CloseHeading(p, level);
            && q.buf == []
            && In(c, q.lines) == In(c, p.lines) + In(c, p.buf) - MarkTaken(c, mark, EndTag(Heading(level)))
  {
    var raw := RemoveAll(Concat(p.buf), Marker(level));
    var text := Strip(CollapseRuns(raw));
    TimesUnmarked(c, p.buf, mark, level);
    InkOfStripped(CollapseRuns(raw));
    InkOfCollapsed(raw);
    TimesInInk(c, raw);
    TimesInInk(c, text);
    AbsentInRepeat(c, "#", level);
    var lead := (if p.quote then "> " else "") + Repeat("#", level) + " ";
    assert lead + text + "" == lead + text;
    TimesFramed(c, lead, text, "");
    InSnoc(c, p.lines, lead + text);
  }

  lemma {:induction false} CodeMoves(c: char, p: Parser)
    requires Plain(c) && p.preDepth == 1
    ensures In(c, ClosePre(p).lines) == In(c, p.lines) + In(c, p.preBuf)
  {
    TimesInConcat(c, p.preBuf);
    TimesStripNewlines(c, Concat(p.preBuf));
    TimesFramed(c, "```\n", StripNewlines(Concat(p.preBuf)), "\n```");
    InSnoc(c, p.lines, "```\n" + StripNewlines(Concat(p.preBuf)) + "\n```");
  }

  lemma {:induction false} RowMoves(c: char, p: Parser)
    requires Plain(c)
    ensures CloseRow(p).rowCells.None?
    ensures In(c, CloseRow(p).lines) == In(c, p.lines) + if p.rowCells.Some? then In(c, p.rowCells.value) else 0
  {
    if p.rowCells.Some? && p.rowCells.value != [] {
      var cells := p.rowCells.value;
      var line, rule := "| " + Join(cells, " | ") + " |", "|" + Repeat("---|", |cells|);
      TimesJoin(c, cells, " | ");
      TimesFramed(c, "| ", Join(cells, " | "), " |");
      AbsentInRepeat(c, "---|", |cells|);
      TimesAbsent(c, rule);
      InSnoc(c, p.lines, line);
      InSnoc(c, p.lines + [line], rule);
    }
  }

  // What becomes of text is told by the tags that follow it, none of them skipped.

  /** The code block that is `depth` deep is closed. */
  predicate CodeCloses(depth: int, es: seq<Ev>)
    decreases |es|
  {
    es != [] &&
    if es[0] == StartTag(Pre) then CodeCloses(depth + 1, es[1..])
    else if es[0] == EndTag(Pre) then depth == 1 || CodeCloses(depth - 1, es[1..])
    else CodeCloses(depth, es[1..])
  }

  /** The open row is closed before another one begins. */
  predicate RowCloses(es: seq<Ev>)
    decreases |es|
  {
    es != [] && (es[0] == EndTag(Tr) || (es[0] != StartTag(Tr) && RowCloses(es[1..])))
  }

  predicate CellEnd(e: Ev) {
    e == EndTag(Td) || e == EndTag(Th)
  }

  /** The next cell to end does so in a row, and that row is closed. */
  predicate CellLands(inRow: bool, es: seq<Ev>)
    decreases |es|
  {
    es != [] &&
    if CellEnd(es[0]) then inRow && RowCloses(es[1..])
    else CellLands(RowAfter(inRow, es[0]), es[1..])
  }

  function RowAfter(inRow: bool, e: Ev): bool {
    if e == StartTag(Tr) then true else if e == EndTag(Tr) then false else inRow
  }

  function CellAfter(inCell: bool, e: Ev): bool {
    if e == StartTag(Td) || e == StartTag(Th) then true else if CellEnd(e) then false else inCell
  }

  function DepthOfCode(depth: int, e: Ev): int {
    if e == StartTag(Pre) then depth + 1 else if e == EndTag(Pre) then depth - 1 else depth
  }

  /** Text fed here reaches the output. */
  predicate Reaches(code: int, inCell: bool, inRow: bool, es: seq<Ev>) {
    if code > 0 then CodeCloses(code, es) else inCell ==> CellLands(inRow, es)
  }

  /** How often c occurs in the text that reaches the output. */
  function Reaching(c: char, code: int, inCell: bool, inRow: bool, es: seq<Ev>): nat
    decreases |es|
  {
    if es == [] then 0
    else
      (if es[0].Data? && Reaches(code, inCell, inRow, es[1..]) then Times(c, es[0].text) else 0)
      + Reaching(c, DepthOfCode(code, es[0]), CellAfter(inCell, es[0]), RowAfter(inRow, es[0]), es[1..])
  }

  // How often c is in what the parser holds and will put out.

  function HeldText(c: char, p: Parser): nat {
    In(c, p.lines) + In(c, p.buf)
  }

  function HeldCode(c: char, p: Parser, es: seq<Ev>): nat {
    if p.preDepth > 0 && CodeCloses(p.preDepth, es) then In(c, p.preBuf) else 0
  }

  function HeldCell(c: char, p: Parser, es: seq<Ev>): nat {
    if CellLands(p.rowCells.Some?, es) then In(c, p.cellBuf) else 0
  }

  function HeldRow(c: char, p: Parser, es: seq<Ev>): nat {
    if p.rowCells.Some? && RowCloses(es) then In(c, p.rowCells.value) else 0
  }

  function Held(c: char, p: Parser, es: seq<Ev>): nat {
    HeldText(c, p) + HeldCode(c, p, es) + HeldCell(c, p, es) + HeldRow(c, p, es)
  }

  /** What the parser's flags are after an event. */
  ghost predicate Tracks(p: Parser, q: Parser, e: Ev) {
    && q.skipDepth == p.skipDepth
    && q.preDepth == DepthOfCode(p.preDepth, e) && q.inCell == CellAfter(p.inCell, e)
    && q.rowCells.Some? == RowAfter(p.rowCells.Some?, e)
  }

  /** The event es[0] takes p to q and adds that much to what is held. */
  ghost predicate Passes(c: char, p: Parser, q: Parser, es: seq<Ev>, more: int := 0)
    requires es != []
  {
    Held(c, q, es[1..]) == Held(c, p, es) + more && Tracks(p, q, es[0])
  }

  /** A tag without effect on code, cells and rows. */
  predicate Ordinary(tag: Tag) {
    !tag.Pre? && !tag.Td? && !tag.Th? && !tag.Tr?
  }

  lemma {:induction false} OrdinaryAhead(c: char, p: Parser, es: seq<Ev>)
    requires es != [] && (es[0].Data? || Ordinary(es[0].tag))
    ensures Held(c, p, es[1..]) == Held(c, p, es)
  {
    assert CodeCloses(p.preDepth, es) == CodeCloses(p.preDepth, es[1..]);
    assert CellLands(p.rowCells.Some?, es) == CellLands(p.rowCells.Some?, es[1..]);
    assert RowCloses(es) == RowCloses(es[1..]);
  }

  lemma {:induction false} TextIsHeld(c: char, p: Parser, t: string, ahead: seq<Ev>)
    requires p.skipDepth == 0
    ensures Held(c, AddText(p, t), ahead)
            == Held(c, p, ahead) + if Reaches(p.preDepth, p.inCell, p.rowCells.Some?, ahead) then Times(c, t) else 0
  {
    if p.preDepth > 0 {
      InSnoc(c, p.preBuf, t);
    } else if p.inCell {
      InSnoc(c, p.cellBuf, t);
    } else {
      InSnoc(c, p.buf, t);
    }
  }

  lemma {:induction false} DataIsHeld(c: char, p: Parser, es: seq<Ev>)
    requires p.skipDepth == 0 && es != [] && es[0].Data?
    ensures Tracks(p, AddText(p, es[0].text), es[0])
    ensures Held(c, AddText(p, es[0].text), es[1..])
            == Held(c, p, es)
               + if Reaches(p.preDepth, p.inCell, p.rowCells.Some?, es[1..]) then Times(c, es[0].text) else 0
  {
    OrdinaryAhead(c, p, es);
    TextIsHeld(c, p, es[0].text, es[1..]);
  }

  /** A break adds a space, so it counts as text without c. */
  lemma {:induction false} BreakIsHeld(c: char, p: Parser, es: seq<Ev>)
    requires p.skipDepth == 0 && Plain(c) && es != [] && es[0] == StartTag(Br)
    ensures Passes(c, p, OpenTag(p, Br), es)
  {
    OrdinaryAhead(c, p, es);
    TextIsHeld(c, p, " ", es[1..]);
    TimesAbsent(c, " ");
  }

  /** Nothing but the lines and the buffer differ, and together they hold c that much more often. */
  ghost predicate TextMoved(c: char, p: Parser, q: Parser, more: int := 0) {
    && q.preDepth == p.preDepth && q.preBuf == p.preBuf && q.inCell == p.inCell && q.cellBuf == p.cellBuf
    && q.rowCells == p.rowCells && q.skipDepth == p.skipDepth
    && HeldText(c, q) == HeldText(c, p) + more
  }

  lemma {:induction false} OrdinaryIsHeld(c: char, p: Parser, q: Parser, es: seq<Ev>, more: int)
    requires es != [] && !es[0].Data? && Ordinary(es[0].tag) && TextMoved(c, p, q, more)
    ensures Passes(c, p, q, es, more)
  {
    OrdinaryAhead(c, p, es);
  }

  lemma {:induction false} ParagraphMovesText(c: char, p: Parser)
    requires Plain(c)
    ensures TextMoved(c, p, FlushPara(p))
  {
    ParagraphMoves(c, p);
  }

  lemma {:induction false} OpenOrdinary(c: char, p: Parser, tag: Tag)
    requires Plain(c) && Ordinary(tag) && !tag.Br?
    ensures TextMoved(c, p, OpenTag(p, tag), MarkMade(c, StartTag(tag)))
  {
    ParagraphMovesText(c, p);
    if tag.Heading? {
      InSnoc(c, FlushPara(p).buf, Marker(tag.level));
    } else if tag.Hr? {
      InSnoc(c, FlushPara(p).lines, "---");
      TimesAbsent(c, "---");
    }
  }

  lemma {:induction false} OpenPreIsHeld(c: char, p: Parser, es: seq<Ev>)
    requires Plain(c) && es != [] && es[0] == StartTag(Pre)
    ensures Passes(c, p, OpenTag(p, Pre), es)
  {
    ParagraphMovesText(c, p);
    PreOpens(c, p, FlushPara(p), es);
  }

  lemma {:induction false} PreOpens(c: char, p: Parser, q: Parser, es: seq<Ev>)
    requires TextMoved(c, p, q) && es != [] && es[0] == StartTag(Pre)
    ensures Passes(c, p, q.(preDepth := q.preDepth + 1, preBuf := if q.preDepth + 1 == 1 then [] else q.preBuf), es)
  {
  }

  lemma {:induction false} OpenCellOrRowIsHeld(c: char, p: Parser, es: seq<Ev>)
    requires es != [] && (es[0] == StartTag(Td) || es[0] == StartTag(Th) || es[0] == StartTag(Tr))
    ensures Passes(c, p, OpenTag(p, es[0].tag), es)
  {
    if es[0] == StartTag(Tr) {
      OpensRow(p);
      RowOpens(c, p, es);
    } else {
      OpensCell(p);
      CellOpens(c, p, p.(inCell := true, isHeaderRow := es[0].tag.Th? || p.isHeaderRow), es);
    }
  }

  lemma {:induction false} OpensRow(p: Parser)
    ensures OpenTag(p, Tr) == p.(rowCells := Some([]))
  {
  }

  lemma {:induction false} OpensCell(p: Parser)
    ensures OpenTag(p, Td) == p.(inCell := true)
    ensures OpenTag(p, Th) == p.(inCell := true, isHeaderRow := true)
  {
  }

  lemma {:induction false} RowOpens(c: char, p: Parser, es: seq<Ev>)
    requires es != [] && es[0] == StartTag(Tr)
    ensures Passes(c, p, p.(rowCells := Some([])), es)
  {
  }

  lemma {:induction false} CellOpens(c: char, p: Parser, q: Parser, es: seq<Ev>)
    requires es != [] && (es[0] == StartTag(Td) || es[0] == StartTag(Th))
    requires q == p.(inCell := true, isHeaderRow := q.isHeaderRow)
    ensures Passes(c, p, q, es)
  {
  }

  lemma {:induction false} OpenIsHeld(c: char, p: Parser, es: seq<Ev>)
    requires p.skipDepth == 0 && Plain(c) && es != [] && es[0].StartTag?
    ensures Passes(c, p, OpenTag(p, es[0].tag), es, MarkMade(c, es[0]))
  {
    var tag := es[0].tag;
    if tag.Pre? {
      OpenPreIsHeld(c, p, es);
    } else if tag.Td? || tag.Th? || tag.Tr? {
      OpenCellOrRowIsHeld(c, p, es);
    } else if tag.Br? {
      BreakIsHeld(c, p, es);
    } else {
      OpenOrdinaryIsHeld(c, p, es);
    }
  }

  lemma {:induction false} OpenOrdinaryIsHeld(c: char, p: Parser, es: seq<Ev>)
    requires Plain(c) && es != [] && es[0].StartTag? && Ordinary(es[0].tag) && !es[0].tag.Br?
    ensures Passes(c, p, OpenTag(p, es[0].tag), es, MarkMade(c, es[0]))
  {
    OpenOrdinary(c, p, es[0].tag);
    OrdinaryIsHeld(c, p, OpenTag(p, es[0].tag), es, MarkMade(c, es[0]));
  }

  lemma {:induction false} CloseOrdinary(c: char, p: Parser, mark: Option<Level>, tag: Tag)
    requires Plain(c) && Ordinary(tag) && (tag.Heading? ==> Agrees(p.buf, mark) || c !in Marker(tag.level))
    ensures TextMoved(c, p, CloseTag(p, tag), -MarkTaken(c, mark, EndTag(tag)))
  {
    if tag.Heading? {
      ClosesHeading(p, tag.level);
      HeadingMoves(c, p, mark, tag.level);
    } else {
      CloseMoves(c, p, tag);
    }
  }

  lemma {:induction false} CloseMoves(c: char, p: Parser, tag: Tag)
    requires Plain(c) && Ordinary(tag) && !tag.Heading?
    ensures TextMoved(c, p, CloseTag(p, tag))
  {
    CloseCases(p, tag);
    ParagraphMovesText(c, p);
    ParagraphMovesText(c, p.(quote := false));
    ParagraphMovesText(c, p.(listDepth := if p.listDepth - 1 > 0 then p.listDepth - 1 else 0));
  }

  lemma {:induction false} ClosePreIsHeld(c: char, p: Parser, es: seq<Ev>)
    requires Plain(c) && es != [] && es[0] == EndTag(Pre)
    ensures Passes(c, p, CloseTag(p, Pre), es)
  {
    if p.preDepth == 1 { CodeMoves(c, p); }
  }

  lemma {:induction false} CloseCellIsHeld(c: char, p: Parser, es: seq<Ev>)
    requires Plain(c) && es != [] && CellEnd(es[0])
    ensures Passes(c, p, CloseTag(p, es[0].tag), es)
  {
    TimesTidy(c, p.cellBuf);
    CellEnds(c, p, Tidy(p.cellBuf), es);
  }

  lemma {:induction false} CellEnds(c: char, p: Parser, text: string, es: seq<Ev>)
    requires es != [] && CellEnd(es[0]) && Times(c, text) == In(c, p.cellBuf)
    ensures var row := if p.rowCells.Some? then Some(p.rowCells.value + [text]) else None;
            Passes(c, p, p.(inCell := false, cellBuf := [], rowCells := row), es)
  {
    if p.rowCells.Some? { InSnoc(c, p.rowCells.value, text); }
  }

  lemma {:induction false} CloseRowIsHeld(c: char, p: Parser, es: seq<Ev>)
    requires Plain(c) && es != [] && es[0] == EndTag(Tr)
    ensures Passes(c, p, CloseTag(p, Tr), es)
  {
    ClosesRow(p);
    RowMoves(c, p);
    RowEnds(c, p, CloseRow(p), es);
  }

  lemma {:induction false} RowEnds(c: char, p: Parser, q: Parser, es: seq<Ev>)
    requires es != [] && es[0] == EndTag(Tr) && q.rowCells.None?
    requires q == p.(lines := q.lines, rowCells := None, isHeaderRow := q.isHeaderRow)
    requires In(c, q.lines) == In(c, p.lines) + if p.rowCells.Some? then In(c, p.rowCells.value) else 0
    ensures Passes(c, p, q, es)
  {
  }

  lemma {:induction false} CloseIsHeld(c: char, p: Parser, mark: Option<Level>, es: seq<Ev>)
    requires p.skipDepth == 0 && Plain(c) && es != [] && es[0].EndTag?
    requires es[0].tag.Heading? ==> Agrees(p.buf, mark) || c !in Marker(es[0].tag.level)
    ensures Passes(c, p, CloseTag(p, es[0].tag), es, -MarkTaken(c, mark, es[0]))
  {
    var tag := es[0].tag;
    if tag.Pre? {
      ClosePreIsHeld(c, p, es);
    } else if tag.Td? || tag.Th? {
      CloseCellIsHeld(c, p, es);
    } else if tag.Tr? {
      CloseRowIsHeld(c, p, es);
    } else {
      CloseOrdinaryIsHeld(c, p, mark, es);
    }
  }

  lemma {:induction false} CloseOrdinaryIsHeld(c: char, p: Parser, mark: Option<Level>, es: seq<Ev>)
    requires Plain(c) && es != [] && es[0].EndTag? && Ordinary(es[0].tag)
    requires es[0].tag.Heading? ==> Agrees(p.buf, mark) || c !in Marker(es[0].tag.level)
    ensures Passes(c, p, CloseTag(p, es[0].tag), es, -MarkTaken(c, mark, es[0]))
  {
    CloseOrdinary(c, p, mark, es[0].tag);
    OrdinaryIsHeld(c, p, CloseTag(p, es[0].tag), es, -MarkTaken(c, mark, es[0]));
  }

  lemma {:induction false} EventIsHeld(c: char, p: Parser, mark: Option<Level>, es: seq<Ev>)
    requires p.skipDepth == 0 && Plain(c) && es != [] && Survives(0, es[0]) && Legible(c, p.buf, mark, es)
    ensures Held(c, Feed(p, es[0]), es[1..])
            == Held(c, p, es) + MarkMade(c, es[0]) - MarkTaken(c, mark, es[0])
               + if es[0].Data? && Reaches(p.preDepth, p.inCell, p.rowCells.Some?, es[1..])
                 then Times(c, es[0].text) else 0
    ensures Tracks(p, Feed(p, es[0]), es[0])
  {
    match es[0]
    case Data(_) => DataIsHeld(c, p, es);
    case StartTag(_) => OpenIsHeld(c, p, es);
    case EndTag(_) => CloseIsHeld(c, p, mark, es);
  }

  ghost predicate NoneSkipped(es: seq<Ev>) {
    forall i :: 0 <= i < |es| ==> Survives(0, es[i])
  }

  /** On a stream without skipped tags: what ends up in the lines is what the parser held, as far as
      it will be put out, the text fed that reaches the output, and the marks that leak. */
  lemma {:induction false} FedReaches(c: char, p: Parser, mark: Option<Level>, es: seq<Ev>)
    requires p.skipDepth == 0 && Plain(c) && Legible(c, p.buf, mark, es) && NoneSkipped(es)
    ensures In(c, FlushPara(FeedAll(p, es)).lines)
            == Held(c, p, es) - Owed(c, mark, es)
               + Reaching(c, p.preDepth, p.inCell, p.rowCells.Some?, es) + Leaked(c, es)
    decreases |es|
  {
    if es == [] {
      ParagraphMoves(c, p);
    } else {
      assert Survives(0, es[0]);
      EventIsHeld(c, p, mark, es);
      OwedStep(c, mark, es);
      LegibleStep(c, p, mark, es);
      FedReaches(c, Feed(p, es[0]), MarkAfter(mark, es[0]), es[1..]);
    }
  }

  lemma {:induction false} TimesInResult(c: char, p: Parser)
    requires Plain(c)
    ensures Times(c, Result(p)) == In(c, FlushPara(p).lines)
  {
    var lines := FlushPara(p).lines;
    SqueezeKeeps(c, lines, true);
    TimesJoin(c, Squeezed(lines, true), "\n");
    TimesStripped(c, Join(Squeezed(lines, true), "\n"));
  }

  lemma {:induction false} TimesStripped(c: char, text: string)
    requires !IsSpace(c)
    ensures Times(c, Strip(text) + "\n") == Times(c, text)
  {
    InkOfStripped(text);
    TimesInInk(c, text);
    TimesInInk(c, Strip(text));
    TimesAppend(c, Strip(text), "\n");
    TimesAbsent(c, "\n");
  }

  lemma {:induction false} SqueezeKeeps(c: char, lines: seq<string>, prevBlank: bool)
    requires !IsSpace(c)
    ensures In(c, Squeezed(lines, prevBlank)) == In(c, lines)
    decreases |lines|
  {
    if lines != [] {
      SqueezeKeeps(c, lines[1..], Strip(lines[0]) == "");
      InkOfStripped(lines[0]);
      TimesInInk(c, lines[0]);
      var rest := Squeezed(lines[1..], Strip(lines[0]) == "");
      assert Squeezed(lines, prevBlank) != rest ==> Squeezed(lines, prevBlank)[1..] == rest;
    }
  }

  lemma {:induction false} OutsideKeeps(d: int, es: seq<Ev>)
    requires d >= 0
    ensures NoneSkipped(Outside(d, es))
    ensures forall e :: e in Outside(d, es) ==> e in es
    decreases |es|
  {
    if es != [] { OutsideKeeps(DepthAfter(d, es[0]), es[1..]); }
  }

  /** What reaches the output, character by character: a character the converter does not write itself
      occurs in the result exactly as often as in the text that is outside every skipped region and
      that the tags after it let through (text in a code block that is closed, text in a cell that ends
      in a row that is closed, and all other text), and in the heading marks that leak. */
  lemma {:induction false} CharactersInResult(es: seq<Ev>, c: char)
    requires Plain(c) && (NulFree(es) || NotMarked(c, es))
    ensures Times(c, Result(FeedAll(NEW_PARSER, es)))
            == Reaching(c, 0, false, false, Outside(0, es)) + Leaked(c, Outside(0, es))
  {
    var kept := Outside(0, es);
    OutsideKeeps(0, es);
    assert forall i :: 0 <= i < |kept| ==> kept[i] in kept && kept[i] in es;
    assert Legible(c, NEW_PARSER.buf, None, kept);
    StreamErasure(NEW_PARSER, 0, es);
    assert NEW_PARSER.(skipDepth := 0) == NEW_PARSER;
    ResultIgnoresDepth(FeedAll(NEW_PARSER, kept), FinalDepth(0, es));
    TimesInResult(c, FeedAll(NEW_PARSER, kept));
    FedReaches(c, NEW_PARSER, None, kept);
  }

  /** In particular a character of no mark occurs as often as in the text let through. */
  lemma {:induction false} NothingLeaked(es: seq<Ev>, c: char)
    requires NotMarked(c, es)
    ensures Leaked(c, es) == 0
    decreases |es|
  {
    if es != [] {
      assert forall i :: 0 <= i < |es[1..]| ==> es[1..][i] == es[i + 1];
      NothingLeaked(es[1..], c);
      if es[0].StartTag? && es[0].tag.Heading? { TimesAbsent(c, Marker(es[0].tag.level)); }
    }
  }

  /** How many marks leak. */
  function LeakedMarks(es: seq<Ev>): nat
    decreases |es|
  {
    if es == [] then 0
    else
      (if es[0].StartTag? && es[0].tag.Heading? && MarkLeaks(es[0].tag.level, es[1..]) then 1 else 0)
      + LeakedMarks(es[1..])
  }

  lemma {:induction false} TwoPerMark(es: seq<Ev>)
    ensures Leaked(NUL, es) == 2 * LeakedMarks(es)
    decreases |es|
  {
    if es != [] {
      TwoPerMark(es[1..]);
      if es[0].StartTag? && es[0].tag.Heading? { NulsOfMark(es[0].tag.level); }
    }
  }

  lemma {:induction false} NulsOfMark(level: Level)
    ensures Times(NUL, Marker(level)) == 2
  {
    var digit := '0' + level as char;
    assert Marker(level)[1..] == ['H', digit, NUL] && ['H', digit, NUL][1..] == [digit, NUL];
    assert Times(NUL, [NUL]) == 1 by { assert [NUL][1..] == []; }
    assert Times(NUL, [digit, NUL]) == 1 by { assert [digit, NUL][1..] == [NUL] && digit != NUL; }
    assert Times(NUL, ['H', digit, NUL]) == 1;
  }

  lemma {:induction false} NoNulReaches(code: int, inCell: bool, inRow: bool, es: seq<Ev>)
    requires NulFree(es)
    ensures Reaching(NUL, code, inCell, inRow, es) == 0
    decreases |es|
  {
    if es != [] {
      assert forall i :: 0 <= i < |es[1..]| ==> es[1..][i] == es[i + 1];
      NoNulReaches(DepthOfCode(code, es[0]), CellAfter(inCell, es[0]), RowAfter(inRow, es[0]), es[1..]);
      if es[0].Data? { TimesAbsent(NUL, es[0].text); }
    }
  }

  /** When the internal mark of a heading shows in the output: each mark that leaks shows with its two
      NULs, and none shows if and only if every heading start is followed by its end tag before
      anything flushes and before another heading ends. */
  lemma {:induction false} MarksLeakIff(es: seq<Ev>)
    requires NulFree(es)
    ensures var text := Result(FeedAll(NEW_PARSER, es));
            && Times(NUL, text) == 2 * LeakedMarks(Outside(0, es))
            && (NUL in text <==> exists i :: 0 <= i < |Outside(0, es)| && LeaksAt(Outside(0, es), i))
  {
    var kept, text := Outside(0, es), Result(FeedAll(NEW_PARSER, es));
    OutsideKeeps(0, es);
    assert forall i :: 0 <= i < |kept| ==> kept[i] in kept && kept[i] in es;
    CharactersInResult(es, NUL);
    NoNulReaches(0, false, false, kept);
    TwoPerMark(kept);
    TimesPresent(NUL, text);
    SomeLeakIff(kept);
  }

  /** es[i] starts a heading whose mark leaks. */
  ghost predicate LeaksAt(es: seq<Ev>, i: int)
    requires 0 <= i < |es|
  {
    es[i].StartTag? && es[i].tag.Heading? && MarkLeaks(es[i].tag.level, es[i + 1..])
  }

  lemma {:induction false} SomeLeakIff(es: seq<Ev>)
    ensures LeakedMarks(es) > 0 <==> exists i :: 0 <= i < |es| && LeaksAt(es, i)
    decreases |es|
  {
    if es != [] {
      SomeLeakIff(es[1..]);
      forall i | 0 < i < |es| ensures LeaksAt(es, i) <==> LeaksAt(es[1..], i - 1) {
        assert es[1..][i..] == es[i + 1..] && es[1..][i - 1] == es[i];
      }
      if LeakedMarks(es[1..]) > 0 {
        var i :| 0 <= i < |es[1..]| && LeaksAt(es[1..], i);
        assert LeaksAt(es, i + 1);
      }
      assert es[0 + 1..] == es[1..];
      if exists i :: 0 <= i < |es| && LeaksAt(es, i) {
        var i :| 0 <= i < |es| && LeaksAt(es, i);
        if i > 0 { assert LeaksAt(es[1..], i - 1); }
      }
      if !(LeakedMarks(es[1..]) > 0) && LeakedMarks(es) > 0 { assert LeaksAt(es, 0); }
    }
  }

  /** A paragraph inside a heading suffices, whatever the title. */
  lemma {:induction false} ParagraphInHeadingLeaks(level: Level, title: string)
    requires NUL !in title
    ensures var inner := [StartTag(P)] + ([Data(title)] + ([EndTag(P)] + ([EndTag(Heading(level))] + [])));
            Times(NUL, Result(FeedAll(NEW_PARSER, [StartTag(Heading(level))] + inner))) == 2
  {
    var end := [EndTag(Heading(level))] + [];
    var rest := [Data(title)] + ([EndTag(P)] + end);
    var es := [StartTag(Heading(level))] + ([StartTag(P)] + rest);
    assert es[1..] == [StartTag(P)] + rest && ([StartTag(P)] + rest)[1..] == rest;
    assert rest[1..] == [EndTag(P)] + end && ([EndTag(P)] + end)[1..] == end && end[1..] == [];
    NothingIsSkipped(es);
    MarksLeakIff(es);
    assert MarkLeaks(level, es[1..]);
    assert LeakedMarks(end) == 0;
    assert LeakedMarks([EndTag(P)] + end) == 0;
    assert LeakedMarks(rest) == 0;
    assert LeakedMarks([StartTag(P)] + rest) == 0;
  }

  lemma {:induction false} NothingIsSkipped(es: seq<Ev>)
    requires NoneSkipped(es)
    ensures Outside(0, es) == es
    decreases |es|
  {
    if es != [] {
      assert Survives(0, es[0]);
      assert forall i :: 0 <= i < |es[1..]| ==> es[1..][i] == es[i + 1];
      NothingIsSkipped(es[1..]);
    }
  }

  /** With NULs in the text marks cannot be told from it: text that looks like a mark is taken out of
      the heading it stands in. */
  lemma {:induction false} ForgedMarkIsDropped(p: Parser, level: Level)
    requires p.skipDepth == 0 && p.preDepth <= 0 && !p.inCell
    ensures var q := Feed(Feed(Feed(p, StartTag(Heading(level))), Data(Marker(level))), EndTag(Heading(level)));
            q.lines == FlushPara(p).lines + [(if p.quote then "> " else "") + Repeat("#", level) + " "]
  {
    OpensHeading(p, level);
    ParagraphAddsLine(p);
    var p2 := AddText(OpenHeading(p, level), Marker(level));
    assert OpenHeading(p, level).buf == [] + [Marker(level)] == [Marker(level)];
    assert p2 == FlushPara(p).(buf := [Marker(level)] + [Marker(level)], liOpen := false);
    TwoMarksGo(level);
    BareHeading(p2, level);
  }

  /** A heading whose buffer holds nothing but its marks. */
  lemma {:induction false} BareHeading(p: Parser, level: Level)
    requires p.skipDepth == 0 && RemoveAll(Concat(p.buf), Marker(level)) == ""
    ensures Feed(p, EndTag(Heading(level))).lines
            == p.lines + [(if p.quote then "> " else "") + Repeat("#", level) + " "]
  {
    var lead := (if p.quote then "> " else "") + Repeat("#", level) + " ";
    assert lead + "" == lead;
    assert Strip(CollapseRuns("")) == "";
    ClosesHeading(p, level);
  }

  lemma {:induction false} ClosesHeading(p: Parser, level: Level)
    ensures CloseTag(p, Heading(level)) == CloseHeading(p, level)
  {
  }

  lemma {:induction false} TwoMarksGo(level: Level)
    ensures RemoveAll(Concat([Marker(level)] + [Marker(level)]), Marker(level)) == ""
  {
    var m := Marker(level);
    ConcatAppend([m], [m]);
    assert Concat([m]) == m + "" == m;
    assert (m + m)[|m|..] == m && m[|m|..] == [];
    assert RemoveAll(m, m) == [] && RemoveAll(m + m, m) == [];
  }

  /** How often c occurs in the text. */
  function InData(c: char, es: seq<Ev>): nat {
    if es == [] then 0 else (if es[0].Data? then Times(c, es[0].text) else 0) + InData(c, es[1..])
  }

  /** All text with c reaches the output. */
  predicate AllReach(c: char, code: int, inCell: bool, inRow: bool, es: seq<Ev>)
    decreases |es|
  {
    es == [] ||
    (&& (es[0].Data? && c in es[0].text ==> Reaches(code, inCell, inRow, es[1..]))
     && AllReach(c, DepthOfCode(code, es[0]), CellAfter(inCell, es[0]), RowAfter(inRow, es[0]), es[1..]))
  }

  lemma {:induction false} TimesPresent(c: char, t: string)
    ensures Times(c, t) > 0 <==> c in t
    decreases |t|
  {
    if t != [] { TimesPresent(c, t[1..]); }
  }

  lemma {:induction false} AllReachIff(c: char, code: int, inCell: bool, inRow: bool, es: seq<Ev>)
    ensures Reaching(c, code, inCell, inRow, es) <= InData(c, es)
    ensures Reaching(c, code, inCell, inRow, es) == InData(c, es) <==> AllReach(c, code, inCell, inRow, es)
    decreases |es|
  {
    if es != [] {
      AllReachIff(c, DepthOfCode(code, es[0]), CellAfter(inCell, es[0]), RowAfter(inRow, es[0]), es[1..]);
      if es[0].Data? { TimesPresent(c, es[0].text); }
    }
  }

  /** No character of the text outside skipped regions is lost if and only if every piece of text with
      that character is let through by the tags after it; nothing is added but the marks that leak. */
  lemma {:induction false} NothingLostIff(es: seq<Ev>, c: char)
    requires Plain(c) && (NulFree(es) || NotMarked(c, es))
    ensures var kept := Outside(0, es); var found := Times(c, Result(FeedAll(NEW_PARSER, es)));
            && found <= InData(c, kept) + Leaked(c, kept)
            && (found == InData(c, kept) + Leaked(c, kept) <==> AllReach(c, 0, false, false, kept))
            && (NotMarked(c, es) ==> Leaked(c, kept) == 0)
  {
    CharactersInResult(es, c);
    AllReachIff(c, 0, false, false, Outside(0, es));
    if NotMarked(c, es) {
      var kept := Outside(0, es);
      OutsideKeeps(0, es);
      assert forall i :: 0 <= i < |kept| ==> kept[i] in kept && kept[i] in es;
      NothingLeaked(kept, c);
    }
  }

  /** A cell outside every row is dropped without a trace. */
  lemma {:induction false} CellOutsideRowIsDropped(t: string)
    ensures FeedAll(NEW_PARSER, [StartTag(Td)] + ([Data(t)] + ([EndTag(Td)] + []))) == NEW_PARSER
  {
    var es := [StartTag(Td)] + ([Data(t)] + ([EndTag(Td)] + []));
    assert es[1..] == [Data(t)] + ([EndTag(Td)] + []) && es[1..][1..] == [EndTag(Td)] && es[1..][1..][1..] == [];
    var p1 := Feed(NEW_PARSER, es[0]);
    var p2 := Feed(p1, es[1..][0]);
    assert FeedAll(Feed(p2, EndTag(Td)), []) == Feed(p2, EndTag(Td)) == NEW_PARSER;
    assert FeedAll(p2, es[1..][1..]) == NEW_PARSER && FeedAll(p1, es[1..]) == NEW_PARSER;
  }

  // ---------- the parser object ----------

  class ArticleToMarkdown {
    var lines: seq<string>
    var buf: seq<string>
    var skipDepth: int
    var preDepth: int
    var preBuf: seq<string>
    var inCell: bool
    var cellBuf: seq<string>
    var rowCells: Option<seq<string>>
    var isHeaderRow: bool
    var listDepth: int
    var liOpen: bool
    var quote: bool

    ghost function View(): Parser
      reads this
    {
      Parser(lines, buf, skipDepth, preDepth, preBuf, inCell, cellBuf, rowCells, isHeaderRow, listDepth, liOpen, quote)
    }

    constructor ()
      ensures View() == NEW_PARSER
    {
      lines, buf, preBuf, cellBuf, rowCells := [], [], [], [], None;
      skipDepth, preDepth, listDepth := 0, 0, 0;
      inCell, isHeaderRow, liOpen, quote := false, false, false, false;
    }

    method AppendText(s: string)
      modifies this
      ensures View() == AddText(old(View()), s)
    {
      if skipDepth > 0 {
        return;
      }
      if preDepth > 0 {
        preBuf := preBuf + [s];
      } else if inCell {
        cellBuf := cellBuf + [s];
      } else {
        buf := buf + [s];
        if liOpen {
          liOpen := false;
        }
      }
    }

    method FlushParagraph()
      modifies this
      ensures View() == FlushPara(old(View()))
    {
      var text := Tidy(buf);
      buf := [];
      if text == "" {
        return;
      }
      var prefix := if quote then "> " else "";
      var indent := Repeat("  ", if listDepth - 1 > 0 then listDepth - 1 else 0);
      var bullet := if listDepth > 0 then "- " else "";
      lines := lines + [prefix + indent + bullet + text];
    }

    method FlushTableCell()
      modifies this
      ensures View() == FlushCell(old(View()))
    {
      var text := Tidy(cellBuf);
      cellBuf := [];
      if rowCells.Some? {
        rowCells := Some(rowCells.value + [text]);
      }
    }

    method HandleStartTag(tag: Tag)
      modifies this
      ensures View() == Feed(old(View()), StartTag(tag))
    {
      if Skipped(tag) {
        skipDepth := skipDepth + 1;
        return;
      }
      if skipDepth > 0 {
        return;
      }
      OpenHandled(tag);
    }

    method OpenHandled(tag: Tag)
      modifies this
      ensures View() == OpenTag(old(View()), tag)
    {
      if Block(tag) || TableFrame(tag) {
        FlushParagraph();
      } else if tag.Pre? {
        StartPre();
      } else if tag.Heading? {
        StartHeading(tag.level);
      } else if tag.Ul? || tag.Ol? {
        StartList();
      } else if tag.Blockquote? {
        StartQuote();
      } else {
        OpenInline(tag);
      }
    }

    /** List items, tables, breaks and rules; other start tags do nothing. */
    method OpenInline(tag: Tag)
      requires !Block(tag) && !TableFrame(tag)
      requires !tag.Pre? && !tag.Heading? && !tag.Ul? && !tag.Ol? && !tag.Blockquote?
      modifies this
      ensures View() == OpenTag(old(View()), tag)
    {
      if tag.Li? {
        StartItem();
      } else if tag.Tr? {
        rowCells := Some([]);
      } else if tag.Td? || tag.Th? {
        StartCell(tag.Th?);
      } else if tag.Br? {
        AppendText(" ");
      } else if tag.Hr? {
        AppendRule();
      }
    }

    method StartCell(header: bool)
      modifies this
      ensures View() == old(View()).(inCell := true, isHeaderRow := header || old(isHeaderRow))
    {
      inCell := true;
      if header {
        isHeaderRow := true;
      }
    }

    method StartPre()
      modifies this
      ensures View() == OpenPre(old(View()))
    {
      FlushParagraph();
      preDepth := preDepth + 1;
      if preDepth == 1 {
        preBuf := [];
      }
    }

    method StartHeading(level: Level)
      modifies this
      ensures View() == OpenHeading(old(View()), level)
    {
      FlushParagraph();
      buf := buf + [Marker(level)];
    }

    method StartList()
      modifies this
      ensures View() == OpenList(old(View()))
    {
      FlushParagraph();
      listDepth := listDepth + 1;
    }

    method StartQuote()
      modifies this
      ensures View() == FlushPara(old(View())).(quote := true)
    {
      FlushParagraph();
      quote := true;
    }

    method StartItem()
      modifies this
      ensures View() == FlushPara(old(View())).(liOpen := true)
    {
      FlushParagraph();
      liOpen := true;
    }

    method AppendRule()
      modifies this
      ensures View() == AddRule(old(View()))
    {
      FlushParagraph();
      lines := lines + ["---"];
    }

    method HandleEndTag(tag: Tag)
      modifies this
      ensures View() == Feed(old(View()), EndTag(tag))
    {
      if Skipped(tag) {
        skipDepth := if 0 >= skipDepth - 1 then 0 else skipDepth - 1;
        return;
      }
      if skipDepth > 0 {
        return;
      }
      CloseHandled(tag);
    }

    method CloseHandled(tag: Tag)
      modifies this
      ensures View() == CloseTag(old(View()), tag)
    {
      if Block(tag) || tag.Table? {
        FlushParagraph();
      } else if tag.Pre? {
        EndPre();
      } else if tag.Heading? {
        EndHeading(tag.level);
      } else if tag.Td? || tag.Th? {
        EndCell();
      } else if tag.Tr? {
        EndRow();
      } else {
        CloseContainer(tag);
      }
    }

    /** A quote or a list; other end tags do nothing. */
    method CloseContainer(tag: Tag)
      requires !Block(tag) && !tag.Table? && !tag.Pre? && !tag.Heading? && !tag.Tr? && !tag.Td? && !tag.Th?
      modifies this
      ensures View() == CloseTag(old(View()), tag)
    {
      if tag.Blockquote? {
        EndQuote();
      } else if tag.Ul? || tag.Ol? {
        EndList();
      }
    }

    method EndPre()
      modifies this
      ensures View() == ClosePre(old(View()))
    {
      preDepth := preDepth - 1;
      if preDepth == 0 {
        var code := StripNewlines(Concat(preBuf));
        lines := lines + ["```\n" + code + "\n```"];
      }
    }

    method EndQuote()
      modifies this
      ensures View() == FlushPara(old(View()).(quote := false))
    {
      quote := false;
      FlushParagraph();
    }

    method EndHeading(level: Level)
      modifies this
      ensures View() == CloseHeading(old(View()), level)
    {
      var raw := Concat(buf);
      buf := [];
      var text := Strip(CollapseRuns(RemoveAll(raw, Marker(level))));
      var prefix := if quote then "> " else "";
      lines := lines + [prefix + Repeat("#", level) + " " + text];
    }

    method EndList()
      modifies this
      ensures View() == CloseList(old(View()))
    {
      listDepth := if 0 >= listDepth - 1 then 0 else listDepth - 1;
      FlushParagraph();
    }

    method EndCell()
      modifies this
      ensures View() == FlushCell(old(View()).(inCell := false))
    {
      inCell := false;
      FlushTableCell();
    }

    method EndRow()
      modifies this
      ensures View() == CloseRow(old(View()))
    {
      if rowCells.None? {
        return;
      }
      var cells := rowCells.value;
      rowCells := None;
      if cells != [] {
        lines := lines + ["| " + Join(cells, " | ") + " |"];
        if isHeaderRow {
          lines := lines + ["|" + Repeat("---|", |cells|)];
          isHeaderRow := false;
        }
      }
    }

    method HandleData(data: string)
      modifies this
      ensures View() == Feed(old(View()), Data(data))
    {
      AppendText(data);
    }

    /** `feed`, from the callbacks on. */
    method FeedEvents(es: seq<Ev>)
      modifies this
      ensures View() == FeedAll(old(View()), es)
    {
      ghost var p0 := View();
      for i := 0 to |es|
        invariant FeedAll(View(), es[i..]) == FeedAll(p0, es)
      {
        assert es[i..][1..] == es[i + 1..];
        match es[i] {
          case StartTag(tag) => HandleStartTag(tag);
          case EndTag(tag) => HandleEndTag(tag);
          case Data(text) => HandleData(text);
        }
      }
    }

    method GetResult() returns (text: string)
      modifies this
      ensures View() == FlushPara(old(View()))
      ensures text == Result(old(View()))
    {
      FlushParagraph();
      var out := SqueezeBlankLines(lines);
      text := Strip(Join(out, "\n")) + "\n";
    }

    static method SqueezeBlankLines(lines: seq<string>) returns (out: seq<string>)
      ensures out == Squeezed(lines, true)
    {
      out := [];
      var prevBlank := true;
      for i := 0 to |lines|
        invariant out + Squeezed(lines[i..], prevBlank) == Squeezed(lines, true)
      {
        SqueezeStep(lines, i, prevBlank, out);
        if Strip(lines[i]) != "" {
          out := out + [lines[i]];
          prevBlank := false;
        } else {
          if !prevBlank {
            out := out + [""];
          }
          prevBlank := true;
        }
      }
      assert out + [] == out;
    }
  }

  /** `extract_article` from the parser's callbacks on: what a fresh parser makes of the article. */
  method ExtractMarkdown(es: seq<Ev>) returns (text: string)
    ensures text == Result(FeedAll(NEW_PARSER, es))
    ensures exists lines :: NoBlank(lines) && text == Strip(Join(lines, "\n")) + "\n"
  {
    var parser := new ArticleToMarkdown();
    parser.FeedEvents(es);
    text := parser.GetResult();
    ResultIsJoin(es);
    LinesNeverBlank(NEW_PARSER, es);
    ParagraphKeepsNoBlank(FeedAll(NEW_PARSER, es));
  }

  lemma {:induction false} SqueezeStep(lines: seq<string>, i: nat, prevBlank: bool, out: seq<string>)
    requires i < |lines|
    ensures out + Squeezed(lines[i..], prevBlank) ==
            if Strip(lines[i]) != "" then out + [lines[i]] + Squeezed(lines[i + 1..], false)
            else (if prevBlank then out else out + [""]) + Squeezed(lines[i + 1..], true)
  {
    assert lines[i..][1..] == lines[i + 1..];
  }
}
