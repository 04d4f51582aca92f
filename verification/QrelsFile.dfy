/** Relevance judgements on file: `write_qrels_trec` of rag-bench/scripts/l1_eval.py, read back by
    `parse_trec_plain`.  Grades are written as integers; `show` prints an integer and `num` is
    `float`. */
module QrelsFile {
  import opened Common
  import opened Scorers
  import opened Text
  import opened TrecFile

  datatype Judgement = Judgement(qid: string, doc: string, grade: real)

  /** `int(x)`: towards zero. */
  function Truncated(x: real): (n: int)
    ensures x >= 0.0 ==> n as real <= x < (n + 1) as real
    ensures x <= 0.0 ==> (n - 1) as real < x <= n as real
  {
    if x >= 0.0 then x.Floor else -((-x).Floor)
  }

  function JudgementLine(j: Judgement, show: int -> string): string {
    j.qid + " " + ("0" + " " + (j.doc + " " + show(Truncated(j.grade))))
  }

  function JudgementLines(js: seq<Judgement>, show: int -> string): seq<string> {
    if js == [] then [] else [JudgementLine(js[0], show)] + JudgementLines(js[1..], show)
  }

  /** Each line with its line feed. */
  function LinesText(lines: seq<string>): string {
    if lines == [] then "" else lines[0] + "\n" + LinesText(lines[1..])
  }

  /** The judgements in the order the file lists them: every entry once.  The sorted order of the
      source is one such order. */
  ghost predicate Listing(js: seq<Judgement>, qrels: Qrels) {
    && (forall q, doc, g :: Judgement(q, doc, g) in js <==> Get(GetOr(qrels, q, []), doc) == Some(g))
    && forall i, j :: 0 <= i < j < |js| ==> !(js[i].qid == js[j].qid && js[i].doc == js[j].doc)
  }

  ghost predicate ExactIntegers(show: int -> string, num: string -> Option<real>) {
    forall n :: Word(show(n)) && num(show(n)) == Some(n as real)
  }

  ghost predicate Words(js: seq<Judgement>) {
    forall i :: 0 <= i < |js| ==> Word(js[i].qid) && Word(js[i].doc)
  }

  method WriteQrelsTrec(js: seq<Judgement>, show: int -> string) returns (text: string)
    ensures text == LinesText(JudgementLines(js, show))
  {
    text := "";
    for i := 0 to |js|
      invariant text + LinesText(JudgementLines(js[i..], show)) == LinesText(JudgementLines(js, show))
    {
      assert js[i..][1..] == js[i + 1..];
      NextLine(text, JudgementLine(js[i], show), JudgementLines(js[i + 1..], show));
      text := text + (JudgementLine(js[i], show) + "\n");
    }
    assert text + "" == text;
  }

  lemma {:induction false} NextLine(text: string, line: string, rest: seq<string>)
    ensures text + LinesText([line] + rest) == text + (line + "\n") + LinesText(rest)
  {
    assert ([line] + rest)[1..] == rest;
  }

  // ---------- what the reader makes of it ----------

  lemma {:induction false} JudgementFields(j: Judgement, show: int -> string, num: string -> Option<real>)
    requires Word(j.qid) && Word(j.doc) && ExactIntegers(show, num)
    ensures Split(JudgementLine(j, show)) == [j.qid, "0", j.doc, show(Truncated(j.grade))]
  {
    assert Word("0") && Word(show(Truncated(j.grade)));
    SplitFour(j.qid, "0", j.doc, show(Truncated(j.grade)));
  }

  lemma {:induction false} SplitFour(a: string, b: string, c: string, d: string)
    requires Word(a) && Word(b) && Word(c) && Word(d)
    ensures Split(a + " " + (b + " " + (c + " " + d))) == [a, b, c, d]
  {
    SplitLast(d);
    SplitNext(c, d, [d]);
    SplitNext(b, c + " " + d, [c] + [d]);
    SplitNext(a, b + " " + (c + " " + d), [b] + ([c] + [d]));
    FourFields(a, b, c, d);
  }

  lemma {:induction false} FourFields(a: string, b: string, c: string, d: string)
    ensures [a] + ([b] + ([c] + [d])) == [a, b, c, d]
  {
  }

  lemma {:induction false} JudgementOneLine(j: Judgement, show: int -> string, num: string -> Option<real>)
    requires Word(j.qid) && Word(j.doc) && ExactIntegers(show, num)
    ensures OneLine(JudgementLine(j, show))
  {
    var g := show(Truncated(j.grade));
    assert Word(g);
    WordOneLine(g);
    JoinOneLine(j.doc, g);
    JoinOneLine("0", j.doc + " " + g);
    JoinOneLine(j.qid, "0" + " " + (j.doc + " " + g));
  }

  lemma {:induction false} SplitLinesText(lines: seq<string>)
    requires AllOneLine(lines)
    ensures SplitLines(LinesText(lines)) == lines
    decreases |lines|
  {
    if lines != [] {
      SplitFirstLine(lines[0], LinesText(lines[1..]));
      SplitLinesText(lines[1..]);
      assert [lines[0]] + lines[1..] == lines;
    }
  }

  lemma {:induction false} SplitFirstLine(l: string, rest: string)
    requires OneLine(l)
    ensures SplitLines(l + "\n" + rest) == [l] + SplitLines(rest)
  {
    var t := l + "\n" + rest;
    assert t[..|l|] == l && t[|l|] == '\n';
    assert forall i :: 0 <= i < |l| ==> t[i] == l[i];
    assert LineEnd(t) == |l|;
    assert t[|l| + 1..] == rest;
  }

  lemma {:induction false} LinesOneLine(js: seq<Judgement>, show: int -> string, num: string -> Option<real>)
    requires Words(js) && ExactIntegers(show, num)
    ensures AllOneLine(JudgementLines(js, show))
    decreases |js|
  {
    if js != [] {
      JudgementOneLine(js[0], show, num);
      LinesOneLine(js[1..], show, num);
    }
  }

  function Grade(d: Qrels, q: string, doc: string): Option<real> {
    Get(GetOr(d, q, []), doc)
  }

  ghost predicate Tidy(d: Qrels) {
    UniqueKeys(d) && forall i :: 0 <= i < |d| ==> UniqueKeys(d[i].1)
  }

  lemma {:induction false} PutUnique<V>(d: Dict<string, V>, k: string, v: V)
    requires UniqueKeys(d)
    ensures UniqueKeys(Put(d, k, v))
    ensures forall e :: e in Put(d, k, v) ==> e == (k, v) || e in d
    decreases |d|
  {
    if d != [] && d[0].0 != k {
      var rest := Put(d[1..], k, v);
      PutUnique(d[1..], k, v);
      forall i | 0 <= i < |rest| ensures rest[i].0 != d[0].0 {
        assert rest[i] in rest;
        if rest[i] != (k, v) { var j :| 0 <= j < |d[1..]| && d[1..][j] == rest[i]; assert d[j + 1].0 != d[0].0; }
      }
    }
  }

  /** One line read: that grade is set, every other grade is as it was. */
  lemma {:induction false} ReadJudgement(out: Qrels, j: Judgement, show: int -> string, num: string -> Option<real>)
    requires Word(j.qid) && Word(j.doc) && ExactIntegers(show, num) && Tidy(out)
    ensures var r := ReadLine(out, JudgementLine(j, show), FileKind.QrelsFile, num);
            && r.Some? && Tidy(r.value)
            && forall q, doc :: Grade(r.value, q, doc)
                 == if q == j.qid && doc == j.doc then Some(Truncated(j.grade) as real) else Grade(out, q, doc)
  {
    JudgementFields(j, show, num);
    var g := Truncated(j.grade) as real;
    assert num(show(Truncated(j.grade))) == Some(g);
    var row := GetOr(out, j.qid, []);
    var more := Put(row, j.doc, g);
    var r := Put(out, j.qid, more);
    assert UniqueKeys(row) by { RowUnique(out, j.qid); }
    PutUnique(row, j.doc, g);
    PutUnique(out, j.qid, more);
    forall i | 0 <= i < |r| ensures UniqueKeys(r[i].1) { assert r[i] in r; }
    forall q, doc ensures Grade(r, q, doc) == if q == j.qid && doc == j.doc then Some(g) else Grade(out, q, doc) {
      GetPut(out, j.qid, more, q);
      GetPut(row, j.doc, g, doc);
    }
  }

  lemma {:induction false} RowUnique(d: Qrels, q: string)
    requires Tidy(d)
    ensures UniqueKeys(GetOr(d, q, []))
  {
    if Get(d, q).Some? {
      var i :| 0 <= i < |d| && d[i] == (q, Get(d, q).value);
      assert UniqueKeys(d[i].1);
    }
  }

  /** The grade the lines leave behind: of the last line for the pair. */
  function Latest(js: seq<Judgement>, q: string, doc: string, before: Option<real>): Option<real>
    decreases |js|
  {
    if js == [] then before
    else Latest(js[1..], q, doc,
                if js[0].qid == q && js[0].doc == doc then Some(Truncated(js[0].grade) as real) else before)
  }

  lemma {:induction false} ReadJudgements(out: Qrels, js: seq<Judgement>, show: int -> string,
                                          num: string -> Option<real>)
    requires Words(js) && ExactIntegers(show, num) && Tidy(out)
    ensures var r := ReadLines(out, JudgementLines(js, show), FileKind.QrelsFile, num);
            && r.Some? && Tidy(r.value)
            && forall q, doc :: Grade(r.value, q, doc) == Latest(js, q, doc, Grade(out, q, doc))
    decreases |js|
  {
    if js != [] {
      ReadJudgement(out, js[0], show, num);
      var out1 := ReadLine(out, JudgementLine(js[0], show), FileKind.QrelsFile, num).value;
      ReadJudgements(out1, js[1..], show, num);
      ReadCons(out, JudgementLine(js[0], show), JudgementLines(js[1..], show), FileKind.QrelsFile, num);
    }
  }

  lemma {:induction false} LatestOfNone(js: seq<Judgement>, q: string, doc: string, before: Option<real>)
    requires forall i :: 0 <= i < |js| ==> !(js[i].qid == q && js[i].doc == doc)
    ensures Latest(js, q, doc, before) == before
    decreases |js|
  {
    if js != [] { LatestOfNone(js[1..], q, doc, before); }
  }

  lemma {:induction false} LatestOfOne(js: seq<Judgement>, i: nat, before: Option<real>)
    requires i < |js|
    requires forall k, l :: 0 <= k < l < |js| ==> !(js[k].qid == js[l].qid && js[k].doc == js[l].doc)
    ensures Latest(js, js[i].qid, js[i].doc, before) == Some(Truncated(js[i].grade) as real)
    decreases |js|
  {
    if i == 0 {
      LatestOfNone(js[1..], js[0].qid, js[0].doc, Some(Truncated(js[0].grade) as real));
    } else {
      assert !(js[0].qid == js[i].qid && js[0].doc == js[i].doc);
      LatestOfOne(js[1..], i - 1, before);
    }
  }

  function Cut(g: Option<real>): Option<real> {
    if g.Some? then Some(Truncated(g.value) as real) else None
  }

  /** Reading the written judgements back gives every pair its grade cut to an integer, and no other pair. */
  lemma {:induction false} WrittenQrelsReadBack(qrels: Qrels, js: seq<Judgement>, show: int -> string,
                                                num: string -> Option<real>)
    requires Words(js) && ExactIntegers(show, num) && Listing(js, qrels)
    ensures var r := ReadLines([], SplitLines(LinesText(JudgementLines(js, show))), FileKind.QrelsFile, num);
            && r.Some? && Tidy(r.value)
            && forall q, doc :: Grade(r.value, q, doc) == Cut(Grade(qrels, q, doc))
  {
    LinesOneLine(js, show, num);
    SplitLinesText(JudgementLines(js, show));
    ReadJudgements([], js, show, num);
    forall q, doc ensures Latest(js, q, doc, None) == Cut(Grade(qrels, q, doc)) {
      if Grade(qrels, q, doc).Some? {
        assert Judgement(q, doc, Grade(qrels, q, doc).value) in js;
        var i :| 0 <= i < |js| && js[i] == Judgement(q, doc, Grade(qrels, q, doc).value);
        LatestOfOne(js, i, None);
      } else {
        forall i | 0 <= i < |js| ensures !(js[i].qid == q && js[i].doc == doc) {
          assert js[i] in js && js[i] == Judgement(js[i].qid, js[i].doc, js[i].grade);
        }
        LatestOfNone(js, q, doc, None);
      }
    }
  }

  lemma {:induction false} PositiveIff(grades: Dict<string, real>, doc: string)
    requires UniqueKeys(grades)
    ensures doc in Positive(grades) <==> Get(grades, doc).Some? && Get(grades, doc).value > 0.0
  {
    if doc in Positive(grades) {
      var i :| 0 <= i < |grades| && grades[i].1 > 0.0 && grades[i].0 == doc;
      GetAt(grades, i);
    }
  }

  /** Cutting the grades keeps every relevant set if and only if no grade lies strictly between 0 and 1. */
  lemma {:induction false} CutKeepsRelevanceIff(qrels: Qrels, read: Qrels)
    requires Tidy(qrels) && Tidy(read) && forall q, doc :: Grade(read, q, doc) == Cut(Grade(qrels, q, doc))
    ensures (forall q :: Positive(GetOr(read, q, [])) == Positive(GetOr(qrels, q, [])))
            <==> forall q, doc :: Grade(qrels, q, doc).Some? ==> !(0.0 < Grade(qrels, q, doc).value < 1.0)
  {
    forall q, doc
      ensures doc in Positive(GetOr(read, q, [])) <==> Grade(qrels, q, doc).Some? && Grade(qrels, q, doc).value >= 1.0
      ensures doc in Positive(GetOr(qrels, q, [])) <==> Grade(qrels, q, doc).Some? && Grade(qrels, q, doc).value > 0.0
    {
      RowUnique(read, q);
      RowUnique(qrels, q);
      PositiveIff(GetOr(read, q, []), doc);
      PositiveIff(GetOr(qrels, q, []), doc);
    }
    if forall q :: Positive(GetOr(read, q, [])) == Positive(GetOr(qrels, q, [])) {
      forall q, doc | Grade(qrels, q, doc).Some? ensures !(0.0 < Grade(qrels, q, doc).value < 1.0) {
        assert Positive(GetOr(read, q, [])) == Positive(GetOr(qrels, q, []));
        assert doc in Positive(GetOr(qrels, q, [])) <==> doc in Positive(GetOr(read, q, []));
      }
    }
  }

  /** The relevant documents of every query are the same after the round trip if and only if no grade
      lies strictly between 0 and 1. */
  lemma {:induction false} RelevanceSurvivesIff(qrels: Qrels, js: seq<Judgement>, show: int -> string,
                                                num: string -> Option<real>)
    requires Tidy(qrels) && Words(js) && ExactIntegers(show, num) && Listing(js, qrels)
    ensures var r := ReadLines([], SplitLines(LinesText(JudgementLines(js, show))), FileKind.QrelsFile, num);
            && r.Some?
            && ((forall q :: Positive(GetOr(r.value, q, [])) == Positive(GetOr(qrels, q, [])))
                <==> forall q, doc :: Grade(qrels, q, doc).Some? ==> !(0.0 < Grade(qrels, q, doc).value < 1.0))
  {
    WrittenQrelsReadBack(qrels, js, show, num);
    var lines := SplitLines(LinesText(JudgementLines(js, show)));
    CutKeepsRelevanceIff(qrels, ReadLines([], lines, FileKind.QrelsFile, num).value);
  }
}
