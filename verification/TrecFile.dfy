/** Run files in TREC format: `save_runs_trec`, `parse_trec_plain` and `_ranked_docs` of
    rag-bench/scripts/l1_eval.py, and `load_run_trec` of rag-bench/scripts/report_layer_gates.py.
    Number formatting is a parameter: `fmt` prints a score, `num` is `float`. */
module TrecFile {
  import opened Common
  import opened Text

  type Scores = Dict<string, real>
  type Run = Dict<string, Scores>

  // ---------- lines and fields ----------

  ghost predicate OneLine(l: string) {
    forall i :: 0 <= i < |l| ==> !IsLineBreak(l[i])
  }

  function LineEnd(t: string): (k: nat)
    ensures k <= |t|
    ensures forall i :: 0 <= i < k ==> !IsLineBreak(t[i])
    ensures k < |t| ==> IsLineBreak(t[k])
  {
    if t == [] || IsLineBreak(t[0]) then 0 else 1 + LineEnd(t[1..])
  }

  /** `text.splitlines()`; taking "\r\n" as two boundaries only adds blank lines, which are skipped. */
  function SplitLines(t: string): seq<string>
    decreases |t|
  {
    if t == [] then []
    else if LineEnd(t) == |t| then [t]
    else [t[..LineEnd(t)]] + SplitLines(t[LineEnd(t) + 1..])
  }

  /** `"\n".join(lines) + "\n"` */
  function JoinLines(lines: seq<string>): string {
    if |lines| <= 1 then (if lines == [] then "" else lines[0]) + "\n"
    else lines[0] + "\n" + JoinLines(lines[1..])
  }

  function Decimal(n: nat): (w: string)
    ensures Word(w)
  {
    var digit := ['0' + (n % 10) as char];
    if n < 10 then digit else Decimal(n / 10) + digit
  }

  /** The number a row of digits names. */
  function Named(w: string): nat
    requires forall i :: 0 <= i < |w| ==> '0' <= w[i] <= '9'
  {
    if w == [] then 0 else 10 * Named(w[..|w| - 1]) + (w[|w| - 1] - '0') as nat
  }

  /** A printed number names itself, without a leading zero. */
  lemma {:induction false} DecimalNames(n: nat)
    ensures forall i :: 0 <= i < |Decimal(n)| ==> '0' <= Decimal(n)[i] <= '9'
    ensures Named(Decimal(n)) == n && (n > 0 ==> Decimal(n)[0] != '0')
  {
    var digit := '0' + (n % 10) as char;
    if n < 10 {
      assert Decimal(n) == [digit] && [digit][..0] == [];
    } else {
      DecimalNames(n / 10);
      assert Decimal(n)[..|Decimal(n)| - 1] == Decimal(n / 10);
    }
  }

  lemma {:induction false} SplitJoinedLines(lines: seq<string>)
    requires lines != [] && forall i :: 0 <= i < |lines| ==> OneLine(lines[i])
    ensures SplitLines(JoinLines(lines)) == lines
    decreases |lines|
  {
    var t := JoinLines(lines);
    var l := lines[0];
    assert t[..|l|] == l && t[|l|] == '\n';
    assert forall i :: 0 <= i < |l| ==> t[i] == l[i];
    if |lines| == 1 {
      assert t[|l| + 1..] == [];
    } else {
      assert t[|l| + 1..] == JoinLines(lines[1..]);
      SplitJoinedLines(lines[1..]);
    }
  }

  // ---------- stable descending sort ----------

  function InsertDescending(e: (string, real), s: Scores): Scores {
    if s == [] || e.1 >= s[0].1 then [e] + s else [s[0]] + InsertDescending(e, s[1..])
  }

  /** `sorted(scores.items(), key=score, reverse=True)`, which keeps equal scores in order. */
  function SortDescending(s: Scores): Scores {
    if s == [] then [] else InsertDescending(s[0], SortDescending(s[1..]))
  }

  ghost predicate Descending(s: Scores) {
    forall i, j :: 0 <= i < j < |s| ==> s[i].1 >= s[j].1
  }

  /** The entries with score v, in order. */
  function WithScore(s: Scores, v: real): Scores {
    if s == [] then [] else (if s[0].1 == v then [s[0]] else []) + WithScore(s[1..], v)
  }

  lemma {:induction false} InsertKeepsEntries(e: (string, real), s: Scores)
    ensures multiset(InsertDescending(e, s)) == multiset{e} + multiset(s)
    decreases |s|
  {
    if s != [] && e.1 < s[0].1 {
      InsertKeepsEntries(e, s[1..]);
      assert s == [s[0]] + s[1..];
    }
  }

  lemma {:induction false} InsertKeepsDescending(e: (string, real), s: Scores)
    requires Descending(s)
    ensures Descending(InsertDescending(e, s))
    decreases |s|
  {
    if s != [] && e.1 < s[0].1 {
      var r := InsertDescending(e, s[1..]);
      InsertKeepsDescending(e, s[1..]);
      InsertKeepsEntries(e, s[1..]);
      forall j | 0 <= j < |r| ensures r[j].1 <= s[0].1 {
        assert r[j] in multiset(r);
        assert r[j] == e || r[j] in s[1..];
      }
    }
  }

  lemma {:induction false} InsertKeepsOrder(e: (string, real), s: Scores, v: real)
    ensures WithScore(InsertDescending(e, s), v) == (if e.1 == v then [e] else []) + WithScore(s, v)
    decreases |s|
  {
    if s == [] || e.1 >= s[0].1 {
      WithScoreCons(e, s, v);
    } else {
      var rest := InsertDescending(e, s[1..]);
      InsertKeepsOrder(e, s[1..], v);
      WithScoreCons(s[0], rest, v);
      if s[0].1 == v {
        assert e.1 != v && [] + WithScore(s, v) == WithScore(s, v);
      } else {
        assert [] + WithScore(rest, v) == WithScore(rest, v);
        assert WithScore(s, v) == WithScore(s[1..], v);
      }
    }
  }

  lemma {:induction false} WithScoreCons(e: (string, real), s: Scores, v: real)
    ensures WithScore([e] + s, v) == (if e.1 == v then [e] else []) + WithScore(s, v)
  {
    assert ([e] + s)[1..] == s && ([e] + s)[0] == e;
  }

  /** The sort arranges the same entries in descending order and keeps equal scores in order. */
  lemma {:induction false} SortIsStable(s: Scores, v: real)
    ensures Descending(SortDescending(s))
    ensures WithScore(SortDescending(s), v) == WithScore(s, v)
    ensures multiset(SortDescending(s)) == multiset(s)
  {
    SortDescends(s);
    SortKeepsOrder(s, v);
    SortPermutes(s);
  }

  lemma {:induction false} SortDescends(s: Scores)
    ensures Descending(SortDescending(s))
    decreases |s|
  {
    if s != [] {
      SortDescends(s[1..]);
      InsertKeepsDescending(s[0], SortDescending(s[1..]));
    }
  }

  lemma {:induction false} SortKeepsOrder(s: Scores, v: real)
    ensures WithScore(SortDescending(s), v) == WithScore(s, v)
    decreases |s|
  {
    if s != [] {
      SortKeepsOrder(s[1..], v);
      InsertKeepsOrder(s[0], SortDescending(s[1..]), v);
    }
  }

  lemma {:induction false} MultisetCons(s: Scores)
    requires s != []
    ensures multiset(s) == multiset{s[0]} + multiset(s[1..])
  {
    assert s == [s[0]] + s[1..];
  }

  lemma {:induction false} SortPermutes(s: Scores)
    ensures multiset(SortDescending(s)) == multiset(s)
    decreases |s|
  {
    if s != [] {
      var r := SortDescending(s[1..]);
      SortPermutes(s[1..]);
      InsertKeepsEntries(s[0], r);
      MultisetCons(s);
      assert SortDescending(s) == InsertDescending(s[0], r);
    }
  }

  lemma {:induction false} HeadScore(s: Scores)
    requires Descending(s) && s != []
    ensures WithScore(s, s[0].1) != [] && WithScore(s, s[0].1)[0] == s[0]
    ensures forall v :: v > s[0].1 ==> WithScore(s, v) == []
    decreases |s|
  {
    if |s| > 1 { HeadScore(s[1..]); }
  }

  /** No other arrangement does: descending order and the order among equals fix the list. */
  lemma {:induction false} StableOrderIsUnique(r: Scores, q: Scores)
    requires Descending(r) && Descending(q) && forall v :: WithScore(r, v) == WithScore(q, v)
    ensures r == q
    decreases |r|
  {
    if r == [] {
      if q != [] { HeadScore(q); }
    } else {
      HeadScore(r);
      assert WithScore(q, r[0].1) != [];
      HeadScore(q);
      assert WithScore(r, q[0].1) == WithScore(q, q[0].1) && WithScore(r, r[0].1) == WithScore(q, r[0].1);
      assert r[0] == q[0];
      forall v ensures WithScore(r[1..], v) == WithScore(q[1..], v) {
        var head := if r[0].1 == v then [r[0]] else [];
        assert WithScore(r, v) == head + WithScore(r[1..], v) && WithScore(q, v) == head + WithScore(q[1..], v);
        assert WithScore(r, v)[|head|..] == WithScore(q, v)[|head|..];
      }
      StableOrderIsUnique(r[1..], q[1..]);
      assert r == [r[0]] + r[1..] && q == [q[0]] + q[1..];
    }
  }

  /** A list already in descending order is left as it is, ties included. */
  lemma {:induction false} SortOfDescending(s: Scores)
    requires Descending(s)
    ensures SortDescending(s) == s
    decreases |s|
  {
    if s != [] {
      SortOfDescending(s[1..]);
      assert s == [s[0]] + s[1..];
    }
  }

  /** `_ranked_docs` */
  function Docs(s: Scores): seq<string> {
    seq(|s|, i requires 0 <= i < |s| => s[i].0)
  }

  function RankedDocs(s: Scores): seq<string> {
    Docs(SortDescending(s))
  }

  // ---------- printing and reading ----------

  /** `fmt` prints a score as one word, `num` reads it back, and larger scores never read back
      as smaller ones; two different scores may well read back as the same. */
  ghost predicate MonotoneFormat(fmt: real -> string, num: string -> Option<real>) {
    && (forall x: real :: Word(fmt(x)) && num(fmt(x)).Some?)
    && (forall x: real, y: real :: x <= y ==> num(fmt(x)).value <= num(fmt(y)).value)
  }

  function Line(qid: string, e: (string, real), rank: nat, tag: string, fmt: real -> string): string {
    qid + " " + ("Q0" + " " + (e.0 + " " + (Decimal(rank) + " " + (fmt(e.1) + " " + tag))))
  }

  function QueryLines(qid: string, sorted: Scores, rank: nat, tag: string, fmt: real -> string): seq<string>
    decreases |sorted|
  {
    if sorted == [] then []
    else [Line(qid, sorted[0], rank, tag, fmt)] + QueryLines(qid, sorted[1..], rank + 1, tag, fmt)
  }

  function RunLines(run: Run, tag: string, fmt: real -> string): seq<string> {
    if run == [] then []
    else QueryLines(run[0].0, SortDescending(run[0].1), 1, tag, fmt) + RunLines(run[1..], tag, fmt)
  }

  function RunText(run: Run, tag: string, fmt: real -> string): string {
    JoinLines(RunLines(run, tag, fmt))
  }

  datatype FileKind = RunFile | QrelsFile

  /** One line of `parse_trec_plain`; `None` is the ValueError of `float`. */
  function ReadLine(out: Run, line: string, kind: FileKind, num: string -> Option<real>): Option<Run> {
    var parts := Split(line);
    if |parts| < (if kind.RunFile? then 5 else 4) then Some(out)
    else
      var val := num(if kind.RunFile? then parts[4] else parts[3]);
      if val.None? then None
      else Some(Put(out, parts[0], Put(GetOr(out, parts[0], []), parts[2], val.value)))
  }

  function ReadLines(out: Run, lines: seq<string>, kind: FileKind, num: string -> Option<real>): Option<Run>
    decreases |lines|
  {
    if lines == [] then Some(out)
    else
      var out1 := ReadLine(out, lines[0], kind, num);
      if out1.None? then None else ReadLines(out1.value, lines[1..], kind, num)
  }

  /** One line of `load_run_trec`. */
  function LoadLine(out: Dict<string, seq<string>>, line: string): Dict<string, seq<string>> {
    var parts := Split(line);
    if |parts| < 6 then out else Put(out, parts[0], GetOr(out, parts[0], []) + [parts[2]])
  }

  function LoadLines(out: Dict<string, seq<string>>, lines: seq<string>): Dict<string, seq<string>>
    decreases |lines|
  {
    if lines == [] then out else LoadLines(LoadLine(out, lines[0]), lines[1..])
  }

  /** The lines of a text: up to each line break, and what follows the last one unless it is empty. */
  lemma {:induction false} LinesOfText(l: string, b: char, rest: string)
    requires OneLine(l) && IsLineBreak(b)
    ensures SplitLines(l + [b] + rest) == [l] + SplitLines(rest)
    ensures SplitLines(l) == if l == "" then [] else [l]
  {
    var t := l + [b] + rest;
    assert t[|l|] == b && forall i :: 0 <= i < |l| ==> t[i] == l[i];
    assert LineEnd(t) == |l|;
    assert t[..|l|] == l && t[|l| + 1..] == rest;
    assert LineEnd(l) == |l|;
  }

  /** The number field of a line with enough fields. */
  function Numeral(line: string, kind: FileKind): Option<string> {
    var parts := Split(line);
    if kind.RunFile? then (if |parts| >= 5 then Some(parts[4]) else None)
    else if |parts| >= 4 then Some(parts[3]) else None
  }

  /** Reading raises if and only if a line with enough fields has a field that is no number. */
  lemma {:induction false} ReadFailsIff(out: Run, lines: seq<string>, kind: FileKind, num: string -> Option<real>)
    ensures ReadLines(out, lines, kind, num).None?
            <==> exists i :: 0 <= i < |lines| && Numeral(lines[i], kind).Some?
                             && num(Numeral(lines[i], kind).value).None?
    decreases |lines|
  {
    if lines != [] {
      var out1 := ReadLine(out, lines[0], kind, num);
      if out1.Some? {
        ReadFailsIff(out1.value, lines[1..], kind, num);
        assert forall i :: 0 < i < |lines| ==> lines[i] == lines[1..][i - 1];
      }
    }
  }

  method ParseTrecPlain(text: string, kind: FileKind, num: string -> Option<real>) returns (r: Option<Run>)
    ensures r == ReadLines([], SplitLines(text), kind, num)
  {
    var lines := SplitLines(text);
    var out: Run := [];
    for i := 0 to |lines|
      invariant ReadLines(out, lines[i..], kind, num) == ReadLines([], lines, kind, num)
    {
      assert lines[i..][1..] == lines[i + 1..];
      var parts := Split(lines[i]);
      if |parts| < (if kind.RunFile? then 5 else 4) {
        continue;
      }
      var val := num(if kind.RunFile? then parts[4] else parts[3]);
      if val.None? {
        return None;
      }
      out := Put(out, parts[0], Put(GetOr(out, parts[0], []), parts[2], val.value));
    }
    return Some(out);
  }

  method LoadRunTrec(text: string) returns (out: Dict<string, seq<string>>)
    ensures out == LoadLines([], SplitLines(text))
  {
    var lines := SplitLines(text);
    out := [];
    for i := 0 to |lines|
      invariant LoadLines(out, lines[i..]) == LoadLines([], lines)
    {
      assert lines[i..][1..] == lines[i + 1..];
      var parts := Split(lines[i]);
      if |parts| >= 6 {
        out := Put(out, parts[0], GetOr(out, parts[0], []) + [parts[2]]);
      }
    }
  }

  method SaveRunTrec(run: Run, tag: string, fmt: real -> string) returns (text: string)
    ensures text == RunText(run, tag, fmt)
  {
    var lines: seq<string> := [];
    for q := 0 to |run|
      invariant lines + RunLines(run[q..], tag, fmt) == RunLines(run, tag, fmt)
    {
      var scored := SortDescending(run[q].1);
      ghost var before := lines;
      for i := 0 to |scored|
        invariant lines + QueryLines(run[q].0, scored[i..], i + 1, tag, fmt)
               == before + QueryLines(run[q].0, scored, 1, tag, fmt)
      {
        assert scored[i..][1..] == scored[i + 1..];
        AddField(lines, Line(run[q].0, scored[i], i + 1, tag, fmt),
                 QueryLines(run[q].0, scored[i + 1..], i + 2, tag, fmt));
        lines := lines + [Line(run[q].0, scored[i], i + 1, tag, fmt)];
      }
      assert lines + [] == lines;
      NextQuery(run, q, tag, fmt, before);
    }
    assert lines + [] == lines;
    assert lines == RunLines(run, tag, fmt);
    text := JoinLines(lines);
  }

  /** The lines before those of query q. */
  function LinesBefore(run: Run, q: nat): nat
    requires q <= |run|
  {
    if q == 0 then 0 else LinesBefore(run, q - 1) + |SortDescending(run[q - 1].1)|
  }

  lemma {:induction false} QueryLineAt(qid: string, sorted: Scores, rank: nat, tag: string, fmt: real -> string, i: nat)
    requires i < |sorted|
    ensures |QueryLines(qid, sorted, rank, tag, fmt)| == |sorted|
    ensures QueryLines(qid, sorted, rank, tag, fmt)[i] == Line(qid, sorted[i], rank + i, tag, fmt)
    decreases |sorted|
  {
    if i > 0 {
      QueryLineAt(qid, sorted[1..], rank + 1, tag, fmt, i - 1);
    } else if |sorted| > 1 {
      QueryLineAt(qid, sorted[1..], rank + 1, tag, fmt, 0);
    }
  }

  lemma {:induction false} RunLinesConcat(a: Run, b: Run, tag: string, fmt: real -> string)
    ensures RunLines(a + b, tag, fmt) == RunLines(a, tag, fmt) + RunLines(b, tag, fmt)
    decreases |a|
  {
    if a == [] {
      assert a + b == b;
    } else {
      assert (a + b)[1..] == a[1..] + b;
      RunLinesConcat(a[1..], b, tag, fmt);
    }
  }

  lemma {:induction false} LinesBeforeCount(run: Run, q: nat, tag: string, fmt: real -> string)
    requires q <= |run|
    ensures |RunLines(run[..q], tag, fmt)| == LinesBefore(run, q)
  {
    if q > 0 {
      LinesBeforeCount(run, q - 1, tag, fmt);
      assert run[..q] == run[..q - 1] + [run[q - 1]] && [run[q - 1]][1..] == [];
      RunLinesConcat(run[..q - 1], [run[q - 1]], tag, fmt);
      var sorted := SortDescending(run[q - 1].1);
      if sorted != [] { QueryLineAt(run[q - 1].0, sorted, 1, tag, fmt, 0); }
    }
  }

  /** The i-th document of a query is printed on its line with rank i + 1, behind the lines of the queries
      before it. */
  lemma {:induction false} PrintedLineAt(run: Run, q: nat, i: nat, tag: string, fmt: real -> string)
    requires q < |run| && i < |SortDescending(run[q].1)|
    ensures |RunLines(run, tag, fmt)| == LinesBefore(run, |run|) >= LinesBefore(run, q) + i + 1
    ensures RunLines(run, tag, fmt)[LinesBefore(run, q) + i]
         == Line(run[q].0, SortDescending(run[q].1)[i], i + 1, tag, fmt)
  {
    var sorted := SortDescending(run[q].1);
    QueryLineAt(run[q].0, sorted, 1, tag, fmt, i);
    LinesBeforeCount(run, q, tag, fmt);
    LinesBeforeCount(run, |run|, tag, fmt);
    assert run[..|run|] == run && run == run[..q] + run[q..];
    RunLinesConcat(run[..q], run[q..], tag, fmt);
    assert RunLines(run[q..], tag, fmt)
        == QueryLines(run[q].0, sorted, 1, tag, fmt) + RunLines(run[q..][1..], tag, fmt);
  }

  lemma {:induction false} NextQuery(run: Run, q: nat, tag: string, fmt: real -> string, before: seq<string>)
    requires q < |run|
    ensures before + RunLines(run[q..], tag, fmt)
         == before + QueryLines(run[q].0, SortDescending(run[q].1), 1, tag, fmt) + RunLines(run[q + 1..], tag, fmt)
  {
    assert run[q..][1..] == run[q + 1..];
  }

  // ---------- the round trip ----------

  ghost predicate Printable(run: Run, tag: string) {
    && UniqueKeys(run) && OneLine(tag)
    && forall q :: 0 <= q < |run| ==>
         && Word(run[q].0) && UniqueKeys(run[q].1)
         && forall d :: 0 <= d < |run[q].1| ==> Word(run[q].1[d].0)
  }

  function Reread(x: real, fmt: real -> string, num: string -> Option<real>): real {
    if num(fmt(x)).Some? then num(fmt(x)).value else 0.0
  }

  function Rounded(s: Scores, fmt: real -> string, num: string -> Option<real>): Scores {
    seq(|s|, i requires 0 <= i < |s| => (s[i].0, Reread(s[i].1, fmt, num)))
  }

  /** What the file keeps of a run: the queries with documents, sorted, with rounded scores. */
  function Kept(run: Run, fmt: real -> string, num: string -> Option<real>): Run {
    if run == [] then []
    else
      (if run[0].1 == [] then [] else [(run[0].0, Rounded(SortDescending(run[0].1), fmt, num))])
      + Kept(run[1..], fmt, num)
  }

  /** The same for `load_run_trec`. */
  function KeptRankings(run: Run): Dict<string, seq<string>> {
    if run == [] then []
    else (if run[0].1 == [] then [] else [(run[0].0, RankedDocs(run[0].1))]) + KeptRankings(run[1..])
  }

  lemma {:induction false} SplitFive(a: string, b: string, c: string, d: string, e: string, rest: string)
    requires Word(a) && Word(b) && Word(c) && Word(d) && Word(e)
    ensures Split(a + " " + (b + " " + (c + " " + (d + " " + (e + " " + rest))))) == [a, b, c, d, e] + Split(rest)
  {
    SplitNext(e, rest, Split(rest));
    SplitNext(d, e + " " + rest, [e] + Split(rest));
    SplitNext(c, d + " " + (e + " " + rest), [d] + ([e] + Split(rest)));
    SplitNext(b, c + " " + (d + " " + (e + " " + rest)), [c] + ([d] + ([e] + Split(rest))));
    SplitNext(a, b + " " + (c + " " + (d + " " + (e + " " + rest))), [b] + ([c] + ([d] + ([e] + Split(rest)))));
    FiveFields(a, b, c, d, e, Split(rest));
  }

  lemma {:induction false} FiveFields(a: string, b: string, c: string, d: string, e: string, rest: seq<string>)
    ensures [a] + ([b] + ([c] + ([d] + ([e] + rest)))) == [a, b, c, d, e] + rest
  {
  }

  lemma {:induction false} AddField(fields: seq<string>, w: string, rest: seq<string>)
    ensures fields + ([w] + rest) == fields + [w] + rest
  {
  }

  lemma {:induction false} Prints(fmt: real -> string, num: string -> Option<real>, x: real)
    requires MonotoneFormat(fmt, num)
    ensures Word(fmt(x)) && num(fmt(x)) == Some(Reread(x, fmt, num))
  {
    assert Word(fmt(x)) && num(fmt(x)).Some?;
  }

  lemma {:induction false} LineFields(qid: string, e: (string, real), rank: nat, tag: string, fmt: real -> string,
                                      num: string -> Option<real>)
    requires Word(qid) && Word(e.0) && MonotoneFormat(fmt, num)
    ensures Split(Line(qid, e, rank, tag, fmt)) == [qid, "Q0", e.0, Decimal(rank), fmt(e.1)] + Split(tag)
  {
    Prints(fmt, num, e.1);
    SplitFive(qid, "Q0", e.0, Decimal(rank), fmt(e.1), tag);
  }

  lemma {:induction false} LineOneLine(qid: string, e: (string, real), rank: nat, tag: string, fmt: real -> string,
                                       num: string -> Option<real>)
    requires Word(qid) && Word(e.0) && MonotoneFormat(fmt, num) && OneLine(tag)
    ensures OneLine(Line(qid, e, rank, tag, fmt))
  {
    Prints(fmt, num, e.1);
    var r4 := fmt(e.1) + " " + tag;
    var r3 := Decimal(rank) + " " + r4;
    var r2 := e.0 + " " + r3;
    var r1 := "Q0" + " " + r2;
    JoinOneLine(fmt(e.1), tag);
    JoinOneLine(Decimal(rank), r4);
    JoinOneLine(e.0, r3);
    JoinOneLine("Q0", r2);
    JoinOneLine(qid, r1);
  }

  lemma {:induction false} JoinOneLine(w: string, rest: string)
    requires Word(w) && OneLine(rest)
    ensures OneLine(w + " " + rest)
  {
    WordOneLine(w);
  }

  lemma {:induction false} WordOneLine(w: string)
    requires Word(w)
    ensures OneLine(w)
  {
  }

  ghost predicate AllOneLine(lines: seq<string>) {
    forall i :: 0 <= i < |lines| ==> OneLine(lines[i])
  }

  ghost predicate DocWords(s: Scores) {
    forall i :: 0 <= i < |s| ==> Word(s[i].0)
  }

  lemma {:induction false} QueryLinesOneLine(qid: string, s: Scores, rank: nat, tag: string, fmt: real -> string,
                                             num: string -> Option<real>)
    requires Word(qid) && DocWords(s) && MonotoneFormat(fmt, num) && OneLine(tag)
    ensures AllOneLine(QueryLines(qid, s, rank, tag, fmt))
    decreases |s|
  {
    if s != [] {
      LineOneLine(qid, s[0], rank, tag, fmt, num);
      QueryLinesOneLine(qid, s[1..], rank + 1, tag, fmt, num);
    }
  }

  lemma {:induction false} SortedQuery(s: Scores)
    requires UniqueKeys(s) && DocWords(s)
    ensures UniqueKeys(SortDescending(s)) && DocWords(SortDescending(s)) && Descending(SortDescending(s))
    ensures |SortDescending(s)| == |s|
  {
    var r := SortDescending(s);
    SortIsStable(s, 0.0);
    assert |multiset(r)| == |multiset(s)|;
    forall i | 0 <= i < |r| ensures Word(r[i].0) { assert r[i] in multiset(r); assert r[i] in s; }
    SameEntriesUnique(s, r);
  }

  /** Rearranging a dict's entries keeps its keys distinct. */
  lemma {:induction false} SameEntriesUnique(s: Scores, r: Scores)
    requires UniqueKeys(s) && multiset(r) == multiset(s)
    ensures UniqueKeys(r)
  {
    forall i, j | 0 <= i < j < |r| ensures r[i].0 != r[j].0 {
      if r[i].0 == r[j].0 {
        assert r[i] in multiset(r) && r[j] in multiset(r);
        var a :| 0 <= a < |s| && s[a] == r[i];
        var b :| 0 <= b < |s| && s[b] == r[j];
        assert a == b;
        TwiceIn(r, i, j);
        OnceIn(s, a);
        assert false;
      }
    }
  }

  lemma {:induction false} TwiceIn(r: Scores, i: nat, j: nat)
    requires i < j < |r| && r[i] == r[j]
    ensures multiset(r)[r[i]] >= 2
  {
    assert r == r[..i] + [r[i]] + r[i + 1..j] + [r[j]] + r[j + 1..];
  }

  lemma {:induction false} OnceIn(s: Scores, a: nat)
    requires UniqueKeys(s) && a < |s|
    ensures multiset(s)[s[a]] == 1
  {
    assert s == s[..a] + [s[a]] + s[a + 1..];
    assert s[a] !in s[..a] && s[a] !in s[a + 1..];
  }

  lemma {:induction false} ReadConcat(out: Run, a: seq<string>, b: seq<string>, kind: FileKind,
                                      num: string -> Option<real>)
    ensures ReadLines(out, a + b, kind, num)
         == var mid := ReadLines(out, a, kind, num); if mid.None? then None else ReadLines(mid.value, b, kind, num)
    decreases |a|
  {
    if a == [] {
      assert a + b == b;
    } else {
      assert (a + b)[1..] == a[1..] + b;
      var out1 := ReadLine(out, a[0], kind, num);
      if out1.Some? { ReadConcat(out1.value, a[1..], b, kind, num); }
    }
  }

  lemma {:induction false} LoadConcat(out: Dict<string, seq<string>>, a: seq<string>, b: seq<string>)
    ensures LoadLines(out, a + b) == LoadLines(LoadLines(out, a), b)
    decreases |a|
  {
    if a == [] {
      assert a + b == b;
    } else {
      assert (a + b)[1..] == a[1..] + b;
      LoadConcat(LoadLine(out, a[0]), a[1..], b);
    }
  }

  /** `out` with an entry for qid, unless there is nothing to put there. */
  function Entered<V>(out: Dict<string, seq<V>>, qid: string, done: seq<V>): Dict<string, seq<V>> {
    if done == [] then out else out + [(qid, done)]
  }

  lemma {:induction false} EnterOne<V>(out: Dict<string, seq<V>>, qid: string, done: seq<V>, more: seq<V>)
    requires !HasKey(out, qid) && more != []
    ensures GetOr(Entered(out, qid, done), qid, []) == done
    ensures Put(Entered(out, qid, done), qid, more) == Entered(out, qid, more)
  {
    PutNew(out, qid, more);
    PutLast(out, qid, done, more);
  }

  /** One printed line read after the lines of `done`. */
  lemma {:induction false} ReadOne(out: Run, qid: string, done: Scores, e: (string, real), rank: nat, tag: string,
                                   fmt: real -> string, num: string -> Option<real>)
    requires Word(qid) && Word(e.0) && MonotoneFormat(fmt, num) && !HasKey(out, qid) && !HasKey(done, e.0)
    ensures ReadLine(Entered(out, qid, done), Line(qid, e, rank, tag, fmt), RunFile, num)
         == Some(Entered(out, qid, done + [(e.0, Reread(e.1, fmt, num))]))
  {
    LineFields(qid, e, rank, tag, fmt, num);
    Prints(fmt, num, e.1);
    PutNew(done, e.0, Reread(e.1, fmt, num));
    EnterOne(out, qid, done, done + [(e.0, Reread(e.1, fmt, num))]);
  }

  lemma {:induction false} LoadOne(out: Dict<string, seq<string>>, qid: string, done: seq<string>, e: (string, real),
                                   rank: nat, tag: string, fmt: real -> string, num: string -> Option<real>)
    requires Word(qid) && Word(e.0) && MonotoneFormat(fmt, num) && !HasKey(out, qid)
    ensures LoadLine(Entered(out, qid, done), Line(qid, e, rank, tag, fmt))
         == Entered(out, qid, if Split(tag) == [] then done else done + [e.0])
  {
    LineFields(qid, e, rank, tag, fmt, num);
    LoadFields(Entered(out, qid, done), Line(qid, e, rank, tag, fmt), qid, e.0, Decimal(rank), fmt(e.1), Split(tag));
    EnterOne(out, qid, done, done + [e.0]);
  }

  lemma {:induction false} LoadFields(out: Dict<string, seq<string>>, line: string, qid: string, doc: string,
                                      rank: string, score: string, rest: seq<string>)
    requires Split(line) == [qid, "Q0", doc, rank, score] + rest
    ensures LoadLine(out, line) == if rest == [] then out else Put(out, qid, GetOr(out, qid, []) + [doc])
  {
    assert |Split(line)| == 5 + |rest|;
  }

  ghost predicate Fresh(done: Scores, s: Scores) {
    && UniqueKeys(s) && forall i, j :: 0 <= i < |done| && 0 <= j < |s| ==> done[i].0 != s[j].0
  }

  lemma {:induction false} ReadQuery(out: Run, qid: string, done: Scores, s: Scores, rank: nat, tag: string,
                                     fmt: real -> string, num: string -> Option<real>)
    requires Word(qid) && DocWords(s) && MonotoneFormat(fmt, num) && !HasKey(out, qid) && Fresh(done, s)
    ensures ReadLines(Entered(out, qid, done), QueryLines(qid, s, rank, tag, fmt), RunFile, num)
         == Some(Entered(out, qid, done + Rounded(s, fmt, num)))
    decreases |s|
  {
    if s == [] {
      assert done + Rounded(s, fmt, num) == done;
    } else {
      var done1 := done + [(s[0].0, Reread(s[0].1, fmt, num))];
      ReadOne(out, qid, done, s[0], rank, tag, fmt, num);
      ReadQuery(out, qid, done1, s[1..], rank + 1, tag, fmt, num);
      RoundedCons(done, s, fmt, num);
      ReadCons(Entered(out, qid, done), Line(qid, s[0], rank, tag, fmt),
               QueryLines(qid, s[1..], rank + 1, tag, fmt), RunFile, num);
    }
  }

  lemma {:induction false} RoundedCons(done: Scores, s: Scores, fmt: real -> string, num: string -> Option<real>)
    requires s != []
    ensures done + [(s[0].0, Reread(s[0].1, fmt, num))] + Rounded(s[1..], fmt, num) == done + Rounded(s, fmt, num)
  {
    assert Rounded(s, fmt, num) == [(s[0].0, Reread(s[0].1, fmt, num))] + Rounded(s[1..], fmt, num);
  }

  lemma {:induction false} EnteredFirst<V>(out: Dict<string, seq<V>>, qid: string, v: seq<V>,
                                           rest: Dict<string, seq<V>>)
    ensures Entered(out, qid, v) + rest == out + ((if v == [] then [] else [(qid, v)]) + rest)
  {
  }

  lemma {:induction false} ReadCons(out: Run, line: string, rest: seq<string>, kind: FileKind,
                                    num: string -> Option<real>)
    ensures ReadLines(out, [line] + rest, kind, num)
         == var out1 := ReadLine(out, line, kind, num);
            if out1.None? then None else ReadLines(out1.value, rest, kind, num)
  {
    assert ([line] + rest)[1..] == rest;
  }

  lemma {:induction false} LoadQuery(out: Dict<string, seq<string>>, qid: string, done: seq<string>, s: Scores,
                                     rank: nat, tag: string, fmt: real -> string, num: string -> Option<real>)
    requires Word(qid) && DocWords(s) && MonotoneFormat(fmt, num) && !HasKey(out, qid)
    ensures LoadLines(Entered(out, qid, done), QueryLines(qid, s, rank, tag, fmt))
         == Entered(out, qid, if Split(tag) == [] then done else done + Docs(s))
    decreases |s|
  {
    if s == [] {
      assert done + Docs(s) == done;
    } else {
      var done1 := if Split(tag) == [] then done else done + [s[0].0];
      LoadOne(out, qid, done, s[0], rank, tag, fmt, num);
      LoadQuery(out, qid, done1, s[1..], rank + 1, tag, fmt, num);
      DocsCons(done, s);
      LoadCons(Entered(out, qid, done), Line(qid, s[0], rank, tag, fmt), QueryLines(qid, s[1..], rank + 1, tag, fmt));
    }
  }

  lemma {:induction false} DocsCons(done: seq<string>, s: Scores)
    requires s != []
    ensures done + [s[0].0] + Docs(s[1..]) == done + Docs(s)
  {
    assert Docs(s) == [s[0].0] + Docs(s[1..]);
  }

  lemma {:induction false} LoadCons(out: Dict<string, seq<string>>, line: string, rest: seq<string>)
    ensures LoadLines(out, [line] + rest) == LoadLines(LoadLine(out, line), rest)
  {
    assert ([line] + rest)[1..] == rest;
  }

  ghost predicate Apart<V, W>(out: Dict<string, V>, run: Dict<string, W>) {
    forall q :: 0 <= q < |run| ==> !HasKey(out, run[q].0)
  }

  lemma {:induction false} EnteredApart<V, W>(out: Dict<string, seq<V>>, run: Dict<string, W>, done: seq<V>)
    requires Apart(out, run) && UniqueKeys(run) && run != []
    ensures Apart(Entered(out, run[0].0, done), run[1..])
  {
    forall q | 0 <= q < |run[1..]| ensures !HasKey(Entered(out, run[0].0, done), run[1..][q].0) {
      assert run[1..][q] == run[q + 1] && run[0].0 != run[q + 1].0;
    }
  }

  lemma {:induction false} ReadFirstQuery(out: Run, run: Run, tag: string, fmt: real -> string,
                                          num: string -> Option<real>)
    requires Printable(run, tag) && MonotoneFormat(fmt, num) && run != [] && !HasKey(out, run[0].0)
    ensures var sorted := SortDescending(run[0].1); var lines := QueryLines(run[0].0, sorted, 1, tag, fmt);
            && ReadLines(out, lines, RunFile, num) == Some(Entered(out, run[0].0, Rounded(sorted, fmt, num)))
            && AllOneLine(lines)
            && (sorted == [] <==> run[0].1 == [])
  {
    var sorted := SortDescending(run[0].1);
    assert Word(run[0].0) && UniqueKeys(run[0].1);
    SortedQuery(run[0].1);
    QueryLinesOneLine(run[0].0, sorted, 1, tag, fmt, num);
    assert [] + Rounded(sorted, fmt, num) == Rounded(sorted, fmt, num);
    ReadQuery(out, run[0].0, [], sorted, 1, tag, fmt, num);
  }

  lemma {:induction false} LoadFirstQuery(out: Dict<string, seq<string>>, run: Run, tag: string, fmt: real -> string,
                                          num: string -> Option<real>)
    requires Printable(run, tag) && MonotoneFormat(fmt, num) && run != [] && !HasKey(out, run[0].0)
    ensures LoadLines(out, QueryLines(run[0].0, SortDescending(run[0].1), 1, tag, fmt))
         == if Split(tag) == [] then out else Entered(out, run[0].0, RankedDocs(run[0].1))
    ensures RankedDocs(run[0].1) == [] <==> run[0].1 == []
  {
    var sorted := SortDescending(run[0].1);
    assert Word(run[0].0) && UniqueKeys(run[0].1);
    SortedQuery(run[0].1);
    assert [] + Docs(sorted) == Docs(sorted);
    LoadQuery(out, run[0].0, [], sorted, 1, tag, fmt, num);
  }

  lemma {:induction false} TailPrintable(run: Run, tag: string)
    requires Printable(run, tag) && run != []
    ensures Printable(run[1..], tag)
  {
    assert forall q :: 0 <= q < |run[1..]| ==> run[1..][q] == run[q + 1];
  }

  lemma {:induction false} ReadRun(out: Run, run: Run, tag: string, fmt: real -> string, num: string -> Option<real>)
    requires Printable(run, tag) && MonotoneFormat(fmt, num) && Apart(out, run)
    ensures ReadLines(out, RunLines(run, tag, fmt), RunFile, num) == Some(out + Kept(run, fmt, num))
    ensures AllOneLine(RunLines(run, tag, fmt))
    decreases |run|
  {
    if run == [] {
      assert out + Kept(run, fmt, num) == out;
    } else {
      var first := Rounded(SortDescending(run[0].1), fmt, num);
      var out1 := Entered(out, run[0].0, first);
      ReadFirstQuery(out, run, tag, fmt, num);
      EnteredApart(out, run, first);
      ReadConcat(out, QueryLines(run[0].0, SortDescending(run[0].1), 1, tag, fmt), RunLines(run[1..], tag, fmt),
                 RunFile, num);
      TailPrintable(run, tag);
      ReadRun(out1, run[1..], tag, fmt, num);
      EnteredFirst(out, run[0].0, first, Kept(run[1..], fmt, num));
    }
  }

  lemma {:induction false} LoadRun(out: Dict<string, seq<string>>, run: Run, tag: string, fmt: real -> string,
                                   num: string -> Option<real>)
    requires Printable(run, tag) && MonotoneFormat(fmt, num) && Apart(out, run)
    ensures LoadLines(out, RunLines(run, tag, fmt)) == if Split(tag) == [] then out else out + KeptRankings(run)
    decreases |run|
  {
    if run == [] {
      assert out + KeptRankings(run) == out;
    } else {
      var out1 := if Split(tag) == [] then out else Entered(out, run[0].0, RankedDocs(run[0].1));
      LoadFirstQuery(out, run, tag, fmt, num);
      EnteredApart(out, run, if Split(tag) == [] then [] else RankedDocs(run[0].1));
      LoadConcat(out, QueryLines(run[0].0, SortDescending(run[0].1), 1, tag, fmt), RunLines(run[1..], tag, fmt));
      TailPrintable(run, tag);
      LoadRun(out1, run[1..], tag, fmt, num);
      EnteredFirst(out, run[0].0, RankedDocs(run[0].1), KeptRankings(run[1..]));
    }
  }

  /** The lines of the file are the printed lines; an empty run gives one blank line, which is skipped. */
  lemma {:induction false} FileLines(run: Run, tag: string, fmt: real -> string, num: string -> Option<real>)
    requires AllOneLine(RunLines(run, tag, fmt))
    ensures ReadLines([], SplitLines(RunText(run, tag, fmt)), RunFile, num)
        == ReadLines([], RunLines(run, tag, fmt), RunFile, num)
    ensures LoadLines([], SplitLines(RunText(run, tag, fmt))) == LoadLines([], RunLines(run, tag, fmt))
  {
    var lines := RunLines(run, tag, fmt);
    if lines == [] {
      assert LineEnd("\n") == 0;
      assert SplitLines("\n") == [""];
      assert [""][1..] == [] && Split("") == [];
    } else {
      SplitJoinedLines(lines);
    }
  }

  /** Reading back a printed run gives each query with documents its documents in ranked order,
      with the scores as printed. */
  lemma {:induction false} PrintedRunReadsBack(run: Run, tag: string, fmt: real -> string, num: string -> Option<real>)
    requires Printable(run, tag) && MonotoneFormat(fmt, num)
    ensures ReadLines([], SplitLines(RunText(run, tag, fmt)), RunFile, num) == Some(Kept(run, fmt, num))
  {
    ReadRun([], run, tag, fmt, num);
    FileLines(run, tag, fmt, num);
    assert [] + Kept(run, fmt, num) == Kept(run, fmt, num);
  }

  /** `load_run_trec` reads the rankings in file order, except that it wants a sixth field: with a
      blank tag it reads nothing. */
  lemma {:induction false} PrintedRunLoads(run: Run, tag: string, fmt: real -> string, num: string -> Option<real>)
    requires Printable(run, tag) && MonotoneFormat(fmt, num)
    ensures LoadLines([], SplitLines(RunText(run, tag, fmt))) == if Split(tag) == [] then [] else KeptRankings(run)
  {
    ReadRun([], run, tag, fmt, num);
    LoadRun([], run, tag, fmt, num);
    FileLines(run, tag, fmt, num);
    assert [] + KeptRankings(run) == KeptRankings(run);
  }

  lemma {:induction false} RoundedDescending(s: Scores, fmt: real -> string, num: string -> Option<real>)
    requires Descending(s) && MonotoneFormat(fmt, num)
    ensures Descending(Rounded(s, fmt, num)) && Docs(Rounded(s, fmt, num)) == Docs(s)
  {
    var r := Rounded(s, fmt, num);
    forall i, j | 0 <= i < j < |r| ensures r[i].1 >= r[j].1 {
      Prints(fmt, num, s[i].1);
      Prints(fmt, num, s[j].1);
      assert s[j].1 <= s[i].1;
    }
  }

  lemma {:induction false} KeptEntry(run: Run, q: nat, fmt: real -> string, num: string -> Option<real>)
    requires UniqueKeys(run) && q < |run|
    ensures Get(Kept(run, fmt, num), run[q].0)
         == if run[q].1 == [] then None else Some(Rounded(SortDescending(run[q].1), fmt, num))
    ensures Get(KeptRankings(run), run[q].0) == if run[q].1 == [] then None else Some(RankedDocs(run[q].1))
    decreases |run|
  {
    if q == 0 {
      KeptKeys(run[1..], run[0].0, fmt, num);
    } else {
      assert run[0].0 != run[q].0;
      KeptEntry(run[1..], q - 1, fmt, num);
      assert Kept(run, fmt, num)[if run[0].1 == [] then 0 else 1..] == Kept(run[1..], fmt, num);
      assert KeptRankings(run)[if run[0].1 == [] then 0 else 1..] == KeptRankings(run[1..]);
    }
  }

  lemma {:induction false} KeptKeys(run: Run, qid: string, fmt: real -> string, num: string -> Option<real>)
    requires forall q :: 0 <= q < |run| ==> run[q].0 != qid
    ensures Get(Kept(run, fmt, num), qid) == None && Get(KeptRankings(run), qid) == None
    decreases |run|
  {
    if run != [] {
      KeptKeys(run[1..], qid, fmt, num);
      assert Kept(run, fmt, num)[if run[0].1 == [] then 0 else 1..] == Kept(run[1..], fmt, num);
      assert KeptRankings(run)[if run[0].1 == [] then 0 else 1..] == KeptRankings(run[1..]);
    }
  }

  /** Printing and reading back keeps the ranking of every query with documents, also when
      rounding makes scores equal; a query without documents is gone from the file. */
  lemma {:induction false} RankingSurvivesPrinting(run: Run, q: nat, tag: string, fmt: real -> string,
                                                   num: string -> Option<real>)
    requires Printable(run, tag) && MonotoneFormat(fmt, num) && q < |run|
    ensures var read := ReadLines([], SplitLines(RunText(run, tag, fmt)), RunFile, num);
            && read.Some?
            && (HasKey(read.value, run[q].0) <==> run[q].1 != [])
            && RankedDocs(GetOr(read.value, run[q].0, [])) == RankedDocs(run[q].1)
  {
    PrintedRunReadsBack(run, tag, fmt, num);
    KeptEntry(run, q, fmt, num);
    var sorted := SortDescending(run[q].1);
    SortIsStable(run[q].1, 0.0);
    RoundedDescending(sorted, fmt, num);
    SortOfDescending(Rounded(sorted, fmt, num));
  }

  /** Both readers of the file agree on every query, given a tag that is not blank. */
  lemma {:induction false} ReadersAgree(run: Run, q: nat, tag: string, fmt: real -> string, num: string -> Option<real>)
    requires Printable(run, tag) && MonotoneFormat(fmt, num) && q < |run| && Split(tag) != []
    ensures var text := RunText(run, tag, fmt);
            && GetOr(LoadLines([], SplitLines(text)), run[q].0, []) == RankedDocs(run[q].1)
            && ReadLines([], SplitLines(text), RunFile, num).Some?
            && GetOr(LoadLines([], SplitLines(text)), run[q].0, [])
               == RankedDocs(GetOr(ReadLines([], SplitLines(text), RunFile, num).value, run[q].0, []))
  {
    PrintedRunLoads(run, tag, fmt, num);
    KeptEntry(run, q, fmt, num);
    RankingSurvivesPrinting(run, q, tag, fmt, num);
  }
}
