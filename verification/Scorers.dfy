/** The aggregations over queries: `summarize` and `per_type_summary` of rag-bench/scripts/l1_eval.py. */
module Scorers {
  import opened Common
  import opened RetrievalMetrics
  import opened TrecFile

  type Qrels = Dict<string, Dict<string, real>>

  // ---------- per-query scores ----------

  function Positive(grades: Dict<string, real>): set<string> {
    set i | 0 <= i < |grades| && grades[i].1 > 0.0 :: grades[i].0
  }

  function Score(metric: Metric, qrels: Qrels, run: Run, disc: Discount, q: string): real {
    var v := MetricValue(metric, RankedDocs(GetOr(run, q, [])), Positive(GetOr(qrels, q, [])), disc);
    if v.Some? then v.value else 0.0
  }

  function Scoring(metric: Metric, qrels: Qrels, run: Run, disc: Discount): string -> real {
    q => Score(metric, qrels, run, disc, q)
  }

  const HIT_AT_6 := Metric(HitRate, Some(6))
  const MRR_AT_6 := Metric(Mrr, Some(6))

  // ---------- sums over lists of queries ----------

  function SumOver(qs: seq<string>, f: string -> real): real {
    if qs == [] then 0.0 else f(qs[0]) + SumOver(qs[1..], f)
  }

  ghost predicate NoRepeats(qs: seq<string>) {
    forall i, j :: 0 <= i < j < |qs| ==> qs[i] != qs[j]
  }

  function Only(qs: seq<string>, keep: string -> bool): (r: seq<string>)
    ensures forall q :: q in r <==> q in qs && keep(q)
  {
    if qs == [] then [] else (if keep(qs[0]) then [qs[0]] else []) + Only(qs[1..], keep)
  }

  lemma {:induction false} OnlyNoRepeats(qs: seq<string>, keep: string -> bool)
    requires NoRepeats(qs)
    ensures NoRepeats(Only(qs, keep))
    decreases |qs|
  {
    if qs != [] {
      OnlyNoRepeats(qs[1..], keep);
      assert qs[0] !in qs[1..];
    }
  }

  lemma {:induction false} SumAppend(a: seq<string>, b: seq<string>, f: string -> real)
    ensures SumOver(a + b, f) == SumOver(a, f) + SumOver(b, f)
    decreases |a|
  {
    if a == [] {
      assert a + b == b;
    } else {
      assert (a + b)[1..] == a[1..] + b;
      SumAppend(a[1..], b, f);
    }
  }

  lemma {:induction false} SumSplit(qs: seq<string>, keep: string -> bool, f: string -> real)
    ensures SumOver(qs, f) == SumOver(Only(qs, keep), f) + SumOver(Only(qs, q => !keep(q)), f)
    decreases |qs|
  {
    if qs != [] {
      SumSplit(qs[1..], keep, f);
      SumAppend(if keep(qs[0]) then [qs[0]] else [], Only(qs[1..], keep), f);
      SumAppend(if keep(qs[0]) then [] else [qs[0]], Only(qs[1..], q => !keep(q)), f);
      SumOne(qs[0], f);
    }
  }

  lemma {:induction false} SumOne(q: string, f: string -> real)
    ensures SumOver([q], f) == f(q)
  {
    assert [q][1..] == [];
  }

  function Removed(qs: seq<string>, i: nat): (r: seq<string>)
    requires i < |qs|
  {
    qs[..i] + qs[i + 1..]
  }

  lemma {:induction false} SumRemoved(qs: seq<string>, i: nat, f: string -> real)
    requires i < |qs|
    ensures SumOver(qs, f) == f(qs[i]) + SumOver(Removed(qs, i), f)
  {
    assert qs == qs[..i] + qs[i..];
    SumAppend(qs[..i], qs[i..], f);
    SumAppend(qs[..i], qs[i + 1..], f);
  }

  lemma {:induction false} RemovedHas(qs: seq<string>, i: nat, q: string)
    requires i < |qs| && NoRepeats(qs)
    ensures q in Removed(qs, i) <==> q in qs && q != qs[i]
  {
    if q in qs && q != qs[i] {
      var k :| 0 <= k < |qs| && qs[k] == q;
      assert Removed(qs, i)[if k < i then k else k - 1] == q;
    }
  }

  lemma {:induction false} NonEmptyHas(qs: seq<string>)
    requires qs != []
    ensures exists q :: q in qs
  {
    assert qs[0] in qs;
  }

  /** The order of the queries does not matter. */
  lemma {:induction false} SumSameQueries(a: seq<string>, b: seq<string>, f: string -> real)
    requires NoRepeats(a) && NoRepeats(b) && forall q :: q in a <==> q in b
    ensures SumOver(a, f) == SumOver(b, f)
    decreases |a|
  {
    if a != [] {
      assert a[0] in b;
      var i :| 0 <= i < |b| && b[i] == a[0];
      SumRemoved(b, i, f);
      assert a[1..] == Removed(a, 0);
      forall q ensures q in a[1..] <==> q in Removed(b, i) {
        RemovedHas(a, 0, q);
        RemovedHas(b, i, q);
      }
      SumSameQueries(a[1..], Removed(b, i), f);
    } else if b != [] {
      NonEmptyHas(b);
    }
  }

  lemma {:induction false} SumZero(qs: seq<string>, f: string -> real)
    requires forall q :: q in qs ==> f(q) == 0.0
    ensures SumOver(qs, f) == 0.0
    decreases |qs|
  {
    if qs != [] { SumZero(qs[1..], f); }
  }

  lemma {:induction false} SumNonNegative(qs: seq<string>, f: string -> real)
    requires forall q :: q in qs ==> f(q) >= 0.0
    ensures SumOver(qs, f) >= 0.0
    ensures SumOver(qs, f) == 0.0 <==> forall q :: q in qs ==> f(q) == 0.0
    decreases |qs|
  {
    if qs != [] {
      SumNonNegative(qs[1..], f);
      assert forall q :: q in qs <==> q == qs[0] || q in qs[1..];
    }
  }

  /** `s / n if n else 0.0` */
  function Mean(sum: real, n: nat): real {
    if n != 0 then sum / n as real else 0.0
  }

  /** How many queries times their mean score. */
  function CountTimesMean(qs: seq<string>, f: string -> real): (r: real)
    ensures r == SumOver(qs, f)
  {
    |qs| as real * Mean(SumOver(qs, f), |qs|)
  }

  // ---------- summarize ----------

  function Keys<V>(d: Dict<string, V>): seq<string> {
    seq(|d|, i requires 0 <= i < |d| => d[i].0)
  }

  /** `set(qrels) & set(run)` */
  function CommonQueries(qrels: Qrels, run: Run): seq<string> {
    var asked := Keys(run);
    Only(Keys(qrels), q => q in asked)
  }

  lemma {:induction false} CommonQueriesFacts(qrels: Qrels, run: Run)
    requires UniqueKeys(qrels)
    ensures NoRepeats(CommonQueries(qrels, run))
    ensures forall q :: q in CommonQueries(qrels, run) <==> HasKey(qrels, q) && HasKey(run, q)
  {
    var asked := Keys(run);
    OnlyNoRepeats(Keys(qrels), q => q in asked);
    forall q ensures q in Keys(qrels) <==> HasKey(qrels, q) { KeysHave(qrels, q); }
    forall q ensures q in Keys(run) <==> HasKey(run, q) { KeysHave(run, q); }
  }

  lemma {:induction false} KeysHave<V>(d: Dict<string, V>, q: string)
    ensures q in Keys(d) <==> HasKey(d, q)
  {
    if HasKey(d, q) { var i :| 0 <= i < |d| && d[i].0 == q; assert Keys(d)[i] == q; }
  }

  ghost predicate Visited(common: seq<string>, todo: set<string>, order: seq<string>) {
    NoRepeats(order) && forall q :: (q in common <==> q in todo || q in order) && !(q in todo && q in order)
  }

  lemma {:induction false} VisitNext(common: seq<string>, todo: set<string>, order: seq<string>, q: string)
    requires Visited(common, todo, order) && q in todo
    ensures Visited(common, todo - {q}, order + [q]) && q in common
  {
  }

  /** `summarize` for one run and one metric.  The queries are visited in any order: the sorted
      order of the source is one of them. `None` is the NotImplementedError. */
  method Summarize(qrels: Qrels, run: Run, metric: Metric, disc: Discount) returns (n: nat, mean: Option<real>)
    requires UniqueKeys(qrels)
    ensures n == |CommonQueries(qrels, run)|
    ensures mean.None? <==> metric.kind.Unsupported? && n > 0
    ensures mean.Some? ==> mean.value == Mean(SumOver(CommonQueries(qrels, run), Scoring(metric, qrels, run, disc)), n)
  {
    var common := CommonQueries(qrels, run);
    ghost var f := Scoring(metric, qrels, run, disc);
    CommonQueriesFacts(qrels, run);
    n := |common|;
    var todo := set q | q in common;
    var sum := 0.0;
    ghost var order: seq<string> := [];
    while todo != {}
      invariant Visited(common, todo, order)
      invariant sum == SumOver(order, f)
      invariant metric.kind.Unsupported? ==> order == []
      decreases todo
    {
      var q :| q in todo;
      var v := MetricAtSingle(metric, RankedDocs(GetOr(run, q, [])), Positive(GetOr(qrels, q, [])), disc);
      VisitNext(common, todo, order, q);
      if v.None? {
        return n, None;
      }
      SumAppend(order, [q], f);
      SumOne(q, f);
      sum, todo, order := sum + v.value, todo - {q}, order + [q];
    }
    SumSameQueries(order, common, f);
    if n == 0 {
      return n, Some(0.0);
    }
    assert common[0] in order;
    return n, Some(Mean(sum, n));
  }

  // ---------- per_type_summary ----------

  type QueryTypes = Dict<string, string>

  const NEGATIVE := "negative"

  /** Queries of type t, in map order. */
  function QidsOf(types: QueryTypes, t: string): seq<string> {
    if types == [] then [] else (if types[0].1 == t then [types[0].0] else []) + QidsOf(types[1..], t)
  }

  function QidsIn(types: QueryTypes, ts: seq<string>): seq<string> {
    if types == [] then [] else (if types[0].1 in ts then [types[0].0] else []) + QidsIn(types[1..], ts)
  }

  /** The body of the loop over the queries of a type: what one query adds to the two sums. */
  method ScoreQuery(qrels: Qrels, run: Run, qid: string, disc: Discount) returns (hit: int, rr: real)
    ensures hit as real == Score(HIT_AT_6, qrels, run, disc, qid)
    ensures rr == Score(MRR_AT_6, qrels, run, disc, qid)
  {
    var rel := Positive(GetOr(qrels, qid, []));
    var ranked := TopSix(run, qid);
    TopSixScores(qrels, run, disc, qid);
    for i := 0 to |ranked|
      invariant FirstHit(ranked, rel, |ranked|) >= i
    {
      if ranked[i] in rel {
        return 1, 1.0 / (i + 1) as real;
      }
    }
    return 0, 0.0;
  }

  /** One cell of `per_type_summary`. */
  method TypeSummary(types: QueryTypes, t: string, qrels: Qrels, run: Run, disc: Discount)
    returns (n: nat, hitRate: real, mrr: real)
    ensures n == |QidsOf(types, t)|
    ensures hitRate == Mean(SumOver(QidsOf(types, t), Scoring(HIT_AT_6, qrels, run, disc)), n)
    ensures mrr == Mean(SumOver(QidsOf(types, t), Scoring(MRR_AT_6, qrels, run, disc)), n)
  {
    var qids := QidsOf(types, t);
    var hits, rrSum := 0, 0.0;
    for k := 0 to |qids|
      invariant hits as real == SumOver(qids[..k], Scoring(HIT_AT_6, qrels, run, disc))
      invariant rrSum == SumOver(qids[..k], Scoring(MRR_AT_6, qrels, run, disc))
    {
      var hit, rr := ScoreQuery(qrels, run, qids[k], disc);
      SumPrefix(qids, k, Scoring(HIT_AT_6, qrels, run, disc));
      SumPrefix(qids, k, Scoring(MRR_AT_6, qrels, run, disc));
      hits, rrSum := hits + hit, rrSum + rr;
    }
    assert qids[..|qids|] == qids;
    n := |qids|;
    hitRate := Mean(hits as real, n);
    mrr := Mean(rrSum, n);
  }

  /** `_ranked_docs(run.get(qid, {}))[:6]` */
  function TopSix(run: Run, q: string): seq<string> {
    var all := RankedDocs(GetOr(run, q, []));
    all[..CutLength(|all|, Some(6))]
  }

  lemma {:induction false} TopSixScores(qrels: Qrels, run: Run, disc: Discount, q: string)
    ensures var ranked := TopSix(run, q);
            var first := FirstHit(ranked, Positive(GetOr(qrels, q, [])), |ranked|);
            && Score(HIT_AT_6, qrels, run, disc, q) == (if first < |ranked| then 1.0 else 0.0)
            && Score(MRR_AT_6, qrels, run, disc, q) == (if first < |ranked| then 1.0 / (first + 1) as real else 0.0)
  {
    var all := RankedDocs(GetOr(run, q, []));
    FirstHitOfPrefix(all, Positive(GetOr(qrels, q, [])), CutLength(|all|, Some(6)));
  }

  lemma {:induction false} FirstHitOfPrefix(ranked: seq<string>, rel: set<string>, n: nat)
    requires n <= |ranked|
    ensures FirstHit(ranked[..n], rel, n) == FirstHit(ranked, rel, n)
  {
    assert forall i :: 0 <= i < n ==> ranked[..n][i] == ranked[i];
  }

  lemma {:induction false} SumPrefix(qs: seq<string>, k: nat, f: string -> real)
    requires k < |qs|
    ensures SumOver(qs[..k + 1], f) == SumOver(qs[..k], f) + f(qs[k])
  {
    assert qs[..k + 1] == qs[..k] + [qs[k]];
    SumAppend(qs[..k], [qs[k]], f);
    SumOne(qs[k], f);
  }

  /** The sum over types of their count times their mean. */
  function SumTypes(ts: seq<string>, types: QueryTypes, f: string -> real): real {
    if ts == [] then 0.0 else CountTimesMean(QidsOf(types, ts[0]), f) + SumTypes(ts[1..], types, f)
  }

  function TypeSums(ts: seq<string>, types: QueryTypes, f: string -> real): real {
    if ts == [] then 0.0 else SumOver(QidsOf(types, ts[0]), f) + TypeSums(ts[1..], types, f)
  }

  lemma {:induction false} SumTypesIsTypeSums(ts: seq<string>, types: QueryTypes, f: string -> real)
    ensures SumTypes(ts, types, f) == TypeSums(ts, types, f)
    decreases |ts|
  {
    if ts != [] {
      SumTypesIsTypeSums(ts[1..], types, f);
    }
  }

  lemma {:induction false} TypeSumsCons(ts: seq<string>, types: QueryTypes, f: string -> real)
    requires NoRepeats(ts) && types != []
    ensures TypeSums(ts, types, f) == TypeSums(ts, types[1..], f) + if types[0].1 in ts then f(types[0].0) else 0.0
    decreases |ts|
  {
    if ts != [] {
      TypeSumsCons(ts[1..], types, f);
      assert ts[0] !in ts[1..];
      SumAppend(if types[0].1 == ts[0] then [types[0].0] else [], QidsOf(types[1..], ts[0]), f);
      SumOne(types[0].0, f);
    }
  }

  lemma {:induction false} TypeSumsEmpty(ts: seq<string>, f: string -> real)
    ensures TypeSums(ts, [], f) == 0.0
    decreases |ts|
  {
    if ts != [] { TypeSumsEmpty(ts[1..], f); }
  }

  /** Every query of a listed type is summed once. */
  lemma {:induction false} TypeSumsIsSumOfQueries(ts: seq<string>, types: QueryTypes, f: string -> real)
    requires NoRepeats(ts)
    ensures TypeSums(ts, types, f) == SumOver(QidsIn(types, ts), f)
    decreases |types|
  {
    if types == [] {
      TypeSumsEmpty(ts, f);
    } else {
      TypeSumsCons(ts, types, f);
      TypeSumsIsSumOfQueries(ts, types[1..], f);
      SumAppend(if types[0].1 in ts then [types[0].0] else [], QidsIn(types[1..], ts), f);
      SumOne(types[0].0, f);
    }
  }

  lemma {:induction false} QidsInFacts(types: QueryTypes, ts: seq<string>)
    requires UniqueKeys(types)
    ensures NoRepeats(QidsIn(types, ts))
    ensures forall q :: q in QidsIn(types, ts) <==> exists i :: 0 <= i < |types| && types[i].0 == q && types[i].1 in ts
    decreases |types|
  {
    if types != [] {
      QidsInFacts(types[1..], ts);
      forall q ensures q in QidsIn(types, ts) <==> exists i :: 0 <= i < |types| && types[i].0 == q && types[i].1 in ts {
        if i :| 1 <= i < |types| && types[i].0 == q && types[i].1 in ts { assert types[1..][i - 1] == types[i]; }
      }
      assert types[0].0 !in QidsIn(types[1..], ts);
    }
  }

  /** The types `per_type_summary` reports: those in use, without the negative one. */
  ghost predicate ReportedTypes(ts: seq<string>, types: QueryTypes) {
    NoRepeats(ts) && forall t :: t in ts <==> t != NEGATIVE && exists i :: 0 <= i < |types| && types[i].1 == t
  }

  ghost predicate Covered(types: QueryTypes, q: string) {
    HasKey(types, q) && Get(types, q).value != NEGATIVE
  }

  lemma {:induction false} CoveredIff(types: QueryTypes, ts: seq<string>, q: string)
    requires UniqueKeys(types) && ReportedTypes(ts, types)
    ensures q in QidsIn(types, ts) <==> Covered(types, q)
  {
    QidsInFacts(types, ts);
    if HasKey(types, q) {
      var i :| 0 <= i < |types| && types[i].0 == q;
      GetAt(types, i);
    }
  }

  lemma {:induction false} ScoreOutsideIsZero(metric: Metric, qrels: Qrels, run: Run, disc: Discount, q: string)
    requires metric == HIT_AT_6 || metric == MRR_AT_6
    requires !(HasKey(qrels, q) && HasKey(run, q))
    ensures Score(metric, qrels, run, disc, q) == 0.0
  {
    if !HasKey(run, q) {
      assert RankedDocs(GetOr(run, q, [])) == [];
    } else {
      assert Positive(GetOr(qrels, q, [])) == {};
    }
  }

  /** One of the first six documents of the query is relevant. */
  predicate FoundInTopSix(qrels: Qrels, run: Run, q: string) {
    exists d :: d in TopSix(run, q) && d in Positive(GetOr(qrels, q, []))
  }

  /** Hit rate and MRR at 6 are zero together: when no relevant document is among the first six. */
  lemma {:induction false} ScoreIsZeroIff(metric: Metric, qrels: Qrels, run: Run, disc: Discount, q: string)
    requires metric == HIT_AT_6 || metric == MRR_AT_6
    ensures Score(metric, qrels, run, disc, q) == 0.0 <==> !FoundInTopSix(qrels, run, q)
  {
    var ranked, rel := TopSix(run, q), Positive(GetOr(qrels, q, []));
    var first := FirstHit(ranked, rel, |ranked|);
    TopSixScores(qrels, run, disc, q);
    if first < |ranked| { assert ranked[first] in ranked; }
  }

  lemma {:induction false} ScoreNonNegative(metric: Metric, qrels: Qrels, run: Run, disc: Discount, q: string)
    requires metric == HIT_AT_6 || metric == MRR_AT_6
    ensures Score(metric, qrels, run, disc, q) >= 0.0
  {
  }

  /** The sums of the two scorers differ by the scores of the common queries without a reported type. */
  lemma {:induction false} ScorersDiffer(metric: Metric, types: QueryTypes, ts: seq<string>, qrels: Qrels, run: Run,
                                         disc: Discount)
    requires metric == HIT_AT_6 || metric == MRR_AT_6
    requires UniqueKeys(types) && UniqueKeys(qrels)
    ensures var f := Scoring(metric, qrels, run, disc);
            var typed := QidsIn(types, ts);
            SumOver(CommonQueries(qrels, run), f)
            == SumOver(typed, f) + SumOver(Only(CommonQueries(qrels, run), q => q !in typed), f)
  {
    var f := Scoring(metric, qrels, run, disc);
    var common, typed := CommonQueries(qrels, run), QidsIn(types, ts);
    var inCommon, inTyped, untyped := (q: string) => q in common, (q: string) => q in typed, (q: string) => q !in typed;
    CommonQueriesFacts(qrels, run);
    QidsInFacts(types, ts);
    SumSplit(typed, inCommon, f);
    SumSplit(common, inTyped, f);
    OnlyNoRepeats(typed, inCommon);
    OnlyNoRepeats(common, inTyped);
    SumSameQueries(Only(typed, inCommon), Only(common, inTyped), f);
    forall q | q in Only(typed, q => !inCommon(q)) ensures f(q) == 0.0
    { ScoreOutsideIsZero(metric, qrels, run, disc, q); }
    SumZero(Only(typed, q => !inCommon(q)), f);
    OnlySame(common, q => !inTyped(q), q => q !in typed);
  }

  lemma {:induction false} OnlySame(qs: seq<string>, keep: string -> bool, keep': string -> bool)
    requires forall q :: keep(q) == keep'(q)
    ensures Only(qs, keep) == Only(qs, keep')
    decreases |qs|
  {
    if qs != [] { OnlySame(qs[1..], keep, keep'); }
  }

  lemma {:induction false} UntypedScores(metric: Metric, types: QueryTypes, ts: seq<string>, qrels: Qrels, run: Run,
                                         disc: Discount)
    requires metric == HIT_AT_6 || metric == MRR_AT_6
    requires UniqueKeys(types) && ReportedTypes(ts, types)
    ensures var f := Scoring(metric, qrels, run, disc);
            var typed := QidsIn(types, ts);
            SumOver(Only(CommonQueries(qrels, run), q => q !in typed), f) == 0.0
            <==> forall q :: q in CommonQueries(qrels, run) && !Covered(types, q) ==> f(q) == 0.0
  {
    var f := Scoring(metric, qrels, run, disc);
    var typed := QidsIn(types, ts);
    forall q ensures f(q) >= 0.0 { ScoreNonNegative(metric, qrels, run, disc, q); }
    SumNonNegative(Only(CommonQueries(qrels, run), q => q !in typed), f);
    forall q ensures q in typed <==> Covered(types, q) { CoveredIff(types, ts, q); }
  }

  /** The two scorers compared: the sum over types of n * hit_rate@6 (or n * mrr@6) equals
      |qrels & run| times the overall mean if and only if no common query without a reported type has
      a relevant document among its first six, in particular when every common query has a type that
      is not negative. */
  lemma {:induction false} ScorersAgreeIff(metric: Metric, types: QueryTypes, ts: seq<string>, qrels: Qrels,
                                           run: Run, disc: Discount)
    requires metric == HIT_AT_6 || metric == MRR_AT_6
    requires UniqueKeys(types) && UniqueKeys(qrels) && ReportedTypes(ts, types)
    ensures var f := Scoring(metric, qrels, run, disc);
            var common := CommonQueries(qrels, run);
            && (SumTypes(ts, types, f) == CountTimesMean(common, f)
                <==> forall q :: q in common && !Covered(types, q) ==> !FoundInTopSix(qrels, run, q))
            && ((forall q :: q in common ==> Covered(types, q)) ==> SumTypes(ts, types, f) == CountTimesMean(common, f))
  {
    var f := Scoring(metric, qrels, run, disc);
    var common, typed := CommonQueries(qrels, run), QidsIn(types, ts);
    assert SumTypes(ts, types, f) == SumOver(typed, f) by {
      SumTypesIsTypeSums(ts, types, f);
      TypeSumsIsSumOfQueries(ts, types, f);
    }
    ScorersDiffer(metric, types, ts, qrels, run, disc);
    UntypedScores(metric, types, ts, qrels, run, disc);
    forall q ensures f(q) == 0.0 <==> !FoundInTopSix(qrels, run, q) {
      ScoreIsZeroIff(metric, qrels, run, disc, q);
    }
  }

  // ---------- summaries of a run read back from its file ----------

  /** Every metric of every query is the same for the run read back, also of queries that the file
      does not mention. */
  lemma {:induction false} ScoresSurvivePrinting(metric: Metric, qrels: Qrels, run: Run, disc: Discount, q: string,
                              tag: string, fmt: real -> string, num: string -> Option<real>)
    requires Printable(run, tag) && MonotoneFormat(fmt, num)
    ensures var read := ReadLines([], SplitLines(RunText(run, tag, fmt)), RunFile, num);
            && read.Some?
            && Score(metric, qrels, read.value, disc, q) == Score(metric, qrels, run, disc, q)
            && (HasKey(read.value, q) <==> HasKey(run, q) && GetOr(run, q, []) != [])
  {
    PrintedRunReadsBack(run, tag, fmt, num);
    if HasKey(run, q) {
      var i :| 0 <= i < |run| && run[i].0 == q;
      RankingSurvivesPrinting(run, i, tag, fmt, num);
      GetAt(run, i);
    } else {
      KeptKeys(run, q, fmt, num);
    }
  }

  lemma {:induction false} NoDocumentsNoScore(metric: Metric, qrels: Qrels, run: Run, disc: Discount, q: string)
    requires GetOr(run, q, []) == []
    ensures Score(metric, qrels, run, disc, q) == 0.0
  {
    assert RankedDocs(GetOr(run, q, [])) == [];
  }

  lemma {:induction false} SumSameScores(qs: seq<string>, f: string -> real, g: string -> real)
    requires forall q :: f(q) == g(q)
    ensures SumOver(qs, f) == SumOver(qs, g)
    decreases |qs|
  {
    if qs != [] { SumSameScores(qs[1..], f, g); }
  }

  lemma {:induction false} OnlyLength(qs: seq<string>, keep: string -> bool)
    ensures |Only(qs, keep)| <= |qs|
    ensures |Only(qs, keep)| == |qs| <==> forall q :: q in qs ==> keep(q)
    decreases |qs|
  {
    if qs != [] {
      OnlyLength(qs[1..], keep);
      assert forall q :: q in qs <==> q == qs[0] || q in qs[1..];
    }
  }

  lemma {:induction false} SumOfOnes(qs: seq<string>)
    ensures SumOver(qs, q => 1.0) == |qs| as real
    decreases |qs|
  {
    if qs != [] { SumOfOnes(qs[1..]); }
  }

  lemma {:induction false} SameQueriesSameLength(a: seq<string>, b: seq<string>)
    requires NoRepeats(a) && NoRepeats(b) && forall q :: q in a <==> q in b
    ensures |a| == |b|
  {
    SumSameQueries(a, b, q => 1.0);
    SumOfOnes(a);
    SumOfOnes(b);
  }

  lemma {:induction false} MeanOfFewer(sum: real, n: nat, m: nat)
    requires m <= n && (m == 0 ==> sum == 0.0)
    ensures Mean(sum, m) == Mean(sum, n) <==> m == n || sum == 0.0
  {
    if 0 < m < n && sum != 0.0 {
      assert sum / m as real * m as real == sum && sum / n as real * n as real == sum;
      assert sum / m as real != sum / n as real;
    }
  }

  /** `summarize` of the run read back has the same sum but leaves out the judged queries without
      documents, so the mean is the same if and only if there is no such query or the sum is zero. */
  lemma {:induction false} SummaryAfterPrintingIff(metric: Metric, qrels: Qrels, run: Run, disc: Discount,
                                tag: string, fmt: real -> string, num: string -> Option<real>)
    requires UniqueKeys(qrels) && Printable(run, tag) && MonotoneFormat(fmt, num)
    ensures var read := ReadLines([], SplitLines(RunText(run, tag, fmt)), RunFile, num);
            && read.Some?
            && (var before, after := CommonQueries(qrels, run), CommonQueries(qrels, read.value);
                var f, g := Scoring(metric, qrels, run, disc), Scoring(metric, qrels, read.value, disc);
                && SumOver(after, g) == SumOver(before, f)
                && (Mean(SumOver(after, g), |after|) == Mean(SumOver(before, f), |before|)
                    <==> SumOver(before, f) == 0.0 || forall q :: q in before ==> GetOr(run, q, []) != []))
  {
    PrintedRunReadsBack(run, tag, fmt, num);
    var read := ReadLines([], SplitLines(RunText(run, tag, fmt)), RunFile, num).value;
    var before, after := CommonQueries(qrels, run), CommonQueries(qrels, read);
    var f, g := Scoring(metric, qrels, run, disc), Scoring(metric, qrels, read, disc);
    forall q ensures f(q) == g(q) && (HasKey(read, q) <==> HasKey(run, q) && GetOr(run, q, []) != []) {
      ScoresSurvivePrinting(metric, qrels, run, disc, q, tag, fmt, num);
    }
    CommonQueriesFacts(qrels, run);
    CommonQueriesFacts(qrels, read);
    SumSameScores(after, f, g);
    forall q | GetOr(run, q, []) == [] ensures f(q) == 0.0 { NoDocumentsNoScore(metric, qrels, run, disc, q); }
    SumWithout(before, after, q => GetOr(run, q, []) != [], f);
    MeanOfFewer(SumOver(before, f), |before|, |after|);
  }

  /** Leaving out queries that score zero keeps the sum. */
  lemma {:induction false} SumWithout(before: seq<string>, after: seq<string>, keep: string -> bool, f: string -> real)
    requires NoRepeats(before) && NoRepeats(after)
    requires forall q :: q in after <==> q in before && keep(q)
    requires forall q :: !keep(q) ==> f(q) == 0.0
    ensures SumOver(after, f) == SumOver(before, f)
    ensures |after| <= |before|
    ensures |after| == |before| <==> forall q :: q in before ==> keep(q)
    ensures after == [] ==> SumOver(before, f) == 0.0
  {
    var kept := Only(before, keep);
    OnlyNoRepeats(before, keep);
    OnlyLength(before, keep);
    SumSameQueries(after, kept, f);
    SameQueriesSameLength(after, kept);
    SumSplit(before, keep, f);
    SumZero(Only(before, q => !keep(q)), f);
  }
}
