/** The per-question attribution of rag-bench/scripts/report_layer_gates.py for one run file. */
module LayerGates {
  import opened Common
  import opened RetrievalMetrics
  import opened TrecFile
  import opened Scorers
  import opened Text

  datatype Gap = NoGap | RankGap | RecallGap

  datatype Row = Row(qid: string, questionType: string, hit: bool, gap: Gap)

  /** `set(r[:k]) & rel` is not empty. */
  predicate Meets(ranking: seq<string>, k: nat, rel: set<string>) {
    exists i :: 0 <= i < CutLength(|ranking|, Some(k)) && ranking[i] in rel
  }

  function KeySet<V>(d: Dict<string, V>): set<string> {
    set i | 0 <= i < |d| :: d[i].0
  }

  function Classify(qid: string, questionType: string, rel: set<string>, ranking: seq<string>): Row {
    var hit := Meets(ranking, 6, rel);
    Row(qid, questionType, hit, if !Meets(ranking, 50, rel) then RecallGap else if !hit then RankGap else NoGap)
  }

  function RowOf(qrels: Qrels, types: QueryTypes, loaded: Dict<string, seq<string>>, qid: string): Row {
    Classify(qid, GetOr(types, qid, ""), KeySet(GetOr(qrels, qid, [])), GetOr(loaded, qid, []))
  }

  ghost predicate Classified(rows: seq<Row>) {
    forall i :: 0 <= i < |rows| ==> (rows[i].gap == NoGap <==> rows[i].hit)
  }

  /** `None` is the KeyError of a question without a type. */
  method ClassifyAll(qrels: Qrels, types: QueryTypes, loaded: Dict<string, seq<string>>)
    returns (rows: Option<seq<Row>>)
    requires UniqueKeys(qrels)
    ensures rows.None? <==> exists i :: 0 <= i < |qrels| && !HasKey(types, qrels[i].0)
    ensures rows.Some? ==> |rows.value| == |qrels|
    ensures rows.Some? ==> forall i :: 0 <= i < |qrels| ==> rows.value[i] == RowOf(qrels, types, loaded, qrels[i].0)
    ensures rows.Some? ==> Classified(rows.value)
    ensures rows.Some? ==> forall i :: 0 <= i < |qrels| ==>
              rows.value[i].qid == qrels[i].0 && Get(types, qrels[i].0) == Some(rows.value[i].questionType)
  {
    var done: seq<Row> := [];
    for i := 0 to |qrels|
      invariant |done| == i && Classified(done)
      invariant forall k :: 0 <= k < i ==>
        HasKey(types, qrels[k].0) && done[k] == RowOf(qrels, types, loaded, qrels[k].0)
      invariant forall k :: 0 <= k < i ==>
        done[k].qid == qrels[k].0 && Get(types, qrels[k].0) == Some(done[k].questionType)
    {
      var t := Get(types, qrels[i].0);
      if t.None? {
        return None;
      }
      GetAt(qrels, i);
      HitsAtSixAreHitsAtFifty(GetOr(loaded, qrels[i].0, []), KeySet(qrels[i].1));
      done := done + [Classify(qrels[i].0, t.value, KeySet(qrels[i].1), GetOr(loaded, qrels[i].0, []))];
    }
    return Some(done);
  }

  lemma {:induction false} HitsAtSixAreHitsAtFifty(ranking: seq<string>, rel: set<string>)
    ensures Meets(ranking, 6, rel) ==> Meets(ranking, 50, rel)
  {
    if Meets(ranking, 6, rel) {
      var i :| 0 <= i < CutLength(|ranking|, Some(6)) && ranking[i] in rel;
      assert 0 <= i < CutLength(|ranking|, Some(50)) && ranking[i] in rel;
    }
  }

  /** What the classification says: a hit is hit_rate@6, a recall gap is a zero hit_rate@50, a rank
      gap is a hit in the first 50 that is not among the first 6, and exactly one of them holds. */
  lemma {:induction false} ClassificationMeaning(qid: string, questionType: string, rel: set<string>,
                                                 ranking: seq<string>, disc: Discount)
    ensures var row := Classify(qid, questionType, rel, ranking);
            var at6 := MetricValue(Metric(HitRate, Some(6)), ranking, rel, disc);
            var at50 := MetricValue(Metric(HitRate, Some(50)), ranking, rel, disc);
            && (row.hit <==> at6 == Some(1.0)) && (!row.hit <==> at6 == Some(0.0))
            && (row.gap == RecallGap <==> at50 == Some(0.0))
            && (row.gap == RankGap <==> at50 == Some(1.0) && at6 == Some(0.0))
            && (row.gap == NoGap <==> row.hit)
  {
    MeetsIsHitRate(ranking, 6, rel);
    MeetsIsHitRate(ranking, 50, rel);
    HitsAtSixAreHitsAtFifty(ranking, rel);
  }

  lemma {:induction false} MeetsIsHitRate(ranking: seq<string>, k: nat, rel: set<string>)
    ensures var n := CutLength(|ranking|, Some(k)); Meets(ranking, k, rel) <==> FirstHit(ranking, rel, n) < n
  {
    var n := CutLength(|ranking|, Some(k));
    var f := FirstHit(ranking, rel, n);
    if f < n { assert ranking[f] in rel; }
  }

  ghost predicate AllGradesPositive(qrels: Qrels) {
    forall i, j :: 0 <= i < |qrels| && 0 <= j < |qrels[i].1| ==> qrels[i].1[j].1 > 0.0
  }

  lemma {:induction false} KeySetIsPositive(qrels: Qrels, q: string)
    requires AllGradesPositive(qrels)
    ensures KeySet(GetOr(qrels, q, [])) == Positive(GetOr(qrels, q, []))
  {
    var grades := GetOr(qrels, q, []);
    if Get(qrels, q).Some? {
      var i :| 0 <= i < |qrels| && qrels[i] == (q, grades);
      assert forall j :: 0 <= j < |grades| ==> qrels[i].1[j].1 > 0.0;
    }
  }

  /** The gates agree with the metric engine through the file: the row of any question, in the run or
      not, read back in file order from what `save_runs_trec` printed, hits exactly when its
      hit_rate@6 is one. */
  lemma {:induction false} GatesAgreeWithMetrics(qrels: Qrels, types: QueryTypes, run: Run, qid: string, tag: string,
                                                 fmt: real -> string, num: string -> Option<real>, disc: Discount)
    requires AllGradesPositive(qrels)
    requires Printable(run, tag) && MonotoneFormat(fmt, num) && Split(tag) != []
    ensures var loaded := LoadLines([], SplitLines(RunText(run, tag, fmt)));
            RowOf(qrels, types, loaded, qid).hit <==> Score(HIT_AT_6, qrels, run, disc, qid) == 1.0
  {
    LoadedRanking(run, qid, tag, fmt, num);
    KeySetIsPositive(qrels, qid);
    ClassificationMeaning(qid, GetOr(types, qid, ""), Positive(GetOr(qrels, qid, [])),
                          RankedDocs(GetOr(run, qid, [])), disc);
  }

  /** The gate reader gives every question its ranking, an empty one to a question the run does not
      mention. */
  lemma {:induction false} LoadedRanking(run: Run, qid: string, tag: string, fmt: real -> string,
                                         num: string -> Option<real>)
    requires Printable(run, tag) && MonotoneFormat(fmt, num) && Split(tag) != []
    ensures GetOr(LoadLines([], SplitLines(RunText(run, tag, fmt))), qid, []) == RankedDocs(GetOr(run, qid, []))
  {
    if HasKey(run, qid) {
      var q :| 0 <= q < |run| && run[q].0 == qid;
      ReadersAgree(run, q, tag, fmt, num);
      GetAt(run, q);
    } else {
      PrintedRunLoads(run, tag, fmt, num);
      KeptKeys(run, qid, fmt, num);
      assert RankedDocs([]) == [];
    }
  }

  // ---------- the blocks of the report ----------

  function CountHits(rows: seq<Row>): nat {
    if rows == [] then 0 else CountHits(rows[1..]) + if rows[0].hit then 1 else 0
  }

  function CountGaps(rows: seq<Row>, kind: Gap): nat {
    if rows == [] then 0 else CountGaps(rows[1..], kind) + if rows[0].gap == kind then 1 else 0
  }

  datatype Block = Block(n: nat, hits: nat, recallGaps: nat, rankGaps: nat)

  function RowsOfType(rows: seq<Row>, t: string): seq<Row> {
    if rows == [] then [] else (if rows[0].questionType == t then [rows[0]] else []) + RowsOfType(rows[1..], t)
  }

  method HitTotal(rows: seq<Row>) returns (hits: nat)
    ensures hits == CountHits(rows)
  {
    hits := 0;
    for i := 0 to |rows|
      invariant hits + CountHits(rows[i..]) == CountHits(rows)
    {
      assert rows[i..][1..] == rows[i + 1..];
      if rows[i].hit {
        hits := hits + 1;
      }
    }
  }

  method GapTotal(rows: seq<Row>, kind: Gap) returns (gaps: nat)
    ensures gaps == CountGaps(rows, kind)
  {
    gaps := 0;
    for i := 0 to |rows|
      invariant gaps + CountGaps(rows[i..], kind) == CountGaps(rows, kind)
    {
      assert rows[i..][1..] == rows[i + 1..];
      if rows[i].gap == kind {
        gaps := gaps + 1;
      }
    }
  }

  /** The totals of `add_block`; an empty block is not printed. */
  method AddBlock(rows: seq<Row>) returns (block: Option<Block>)
    requires Classified(rows)
    ensures block.None? <==> rows == []
    ensures block.Some? ==>
      && block.value.n == |rows| == block.value.hits + block.value.recallGaps + block.value.rankGaps
      && block.value.hits == CountHits(rows)
      && block.value.recallGaps == CountGaps(rows, RecallGap)
      && block.value.rankGaps == CountGaps(rows, RankGap)
  {
    if rows == [] {
      return None;
    }
    var hits := HitTotal(rows);
    var recallGaps := GapTotal(rows, RecallGap);
    var rankGaps := GapTotal(rows, RankGap);
    CountsAddUp(rows);
    return Some(Block(|rows|, hits, recallGaps, rankGaps));
  }

  /** Every question is counted exactly once. */
  lemma {:induction false} CountsAddUp(rows: seq<Row>)
    requires Classified(rows)
    ensures CountHits(rows) + CountGaps(rows, RecallGap) + CountGaps(rows, RankGap) == |rows|
    decreases |rows|
  {
    if rows != [] { CountsAddUp(rows[1..]); }
  }

  lemma {:induction false} CountsSnoc(rows: seq<Row>, row: Row, kind: Gap)
    ensures CountHits(rows + [row]) == CountHits(rows) + if row.hit then 1 else 0
    ensures CountGaps(rows + [row], kind) == CountGaps(rows, kind) + if row.gap == kind then 1 else 0
    decreases |rows|
  {
    if rows == [] {
      assert [] + [row] == [row] && [row][1..] == [];
    } else {
      assert (rows + [row])[1..] == rows[1..] + [row];
      CountsSnoc(rows[1..], row, kind);
    }
  }

  function HitPlaces(rows: seq<Row>): set<nat> {
    set i: nat | i < |rows| && rows[i].hit
  }

  function GapPlaces(rows: seq<Row>, kind: Gap): set<nat> {
    set i: nat | i < |rows| && rows[i].gap == kind
  }

  lemma {:induction false} HitPlacesSnoc(rows: seq<Row>, row: Row)
    ensures |HitPlaces(rows + [row])| == |HitPlaces(rows)| + if row.hit then 1 else 0
  {
    var more := if row.hit then {|rows|} else {};
    assert HitPlaces(rows + [row]) == HitPlaces(rows) + more;
    assert HitPlaces(rows) !! more;
  }

  lemma {:induction false} GapPlacesSnoc(rows: seq<Row>, row: Row, kind: Gap)
    ensures |GapPlaces(rows + [row], kind)| == |GapPlaces(rows, kind)| + if row.gap == kind then 1 else 0
  {
    var more := if row.gap == kind then {|rows|} else {};
    assert GapPlaces(rows + [row], kind) == GapPlaces(rows, kind) + more;
    assert GapPlaces(rows, kind) !! more;
  }

  /** The counts are the numbers of the questions that are hits or have that gap. */
  lemma {:induction false} CountsArePlaces(rows: seq<Row>, kind: Gap)
    ensures CountHits(rows) == |HitPlaces(rows)| && CountGaps(rows, kind) == |GapPlaces(rows, kind)|
    decreases |rows|
  {
    if rows == [] {
      assert HitPlaces(rows) == {} && GapPlaces(rows, kind) == {};
    } else {
      var init, row := rows[..|rows| - 1], rows[|rows| - 1];
      CountsArePlaces(init, kind);
      assert rows == init + [row];
      CountsSnoc(init, row, kind);
      HitPlacesSnoc(init, row);
      GapPlacesSnoc(init, row, kind);
    }
  }

  lemma {:induction false} RowsOfTypeKeep(rows: seq<Row>, t: string)
    ensures forall row :: row in RowsOfType(rows, t) <==> row in rows && row.questionType == t
    decreases |rows|
  {
    if rows != [] {
      RowsOfTypeKeep(rows[1..], t);
      assert forall row :: row in rows <==> row == rows[0] || row in rows[1..];
    }
  }

  /** So the block of a type may be added, and its n is hits plus recall gaps plus rank gaps as well. */
  lemma {:induction false} TypeBlockAddsUp(rows: seq<Row>, t: string)
    requires Classified(rows)
    ensures var typed := RowsOfType(rows, t);
            && Classified(typed)
            && CountHits(typed) + CountGaps(typed, RecallGap) + CountGaps(typed, RankGap) == |typed|
  {
    var typed := RowsOfType(rows, t);
    RowsOfTypeKeep(rows, t);
    forall i | 0 <= i < |typed| ensures typed[i].gap == NoGap <==> typed[i].hit {
      assert typed[i] in typed;
    }
    CountsAddUp(typed);
  }

  predicate Reported(t: string) {
    t == "single_doc" || t == "cross_doc" || t == "needle"
  }

  /** The three type blocks cover the whole report exactly when every question is of a reported type. */
  lemma {:induction false} TypeBlocksCoverIff(rows: seq<Row>)
    ensures var sum := |RowsOfType(rows, "single_doc")| + |RowsOfType(rows, "cross_doc")|
                       + |RowsOfType(rows, "needle")|;
            && sum <= |rows|
            && (sum == |rows| <==> forall i :: 0 <= i < |rows| ==> Reported(rows[i].questionType))
    decreases |rows|
  {
    if rows != [] {
      TypeBlocksCoverIff(rows[1..]);
      assert "single_doc"[0] == 's' && "cross_doc"[0] == 'c' && "needle"[0] == 'n';
      assert forall i :: 0 <= i < |rows| ==> i == 0 || rows[i] == rows[1..][i - 1];
    }
  }
}
