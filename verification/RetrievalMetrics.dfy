/** The per-query metrics of rag-bench/scripts/l1_eval.py (`metric_at_single`): hit rate, reciprocal
    rank, recall, nDCG and average precision, over exact reals.  The discount 1 / log2(i + 2) of
    rank i is any strictly decreasing positive function. */
module RetrievalMetrics {
  import opened Common

  datatype Kind = HitRate | Mrr | Recall | Ndcg | Map | Unsupported

  /** `metric.rsplit("@", 1)`: the name and the optional cut. */
  datatype Metric = Metric(kind: Kind, cut: Option<int>)

  type Discount = nat -> real

  ghost predicate Decreasing(disc: Discount) {
    && (forall i: nat :: disc(i) > 0.0)
    && (forall i: nat, j: nat :: i < j ==> disc(i) > disc(j))
  }

  /** Length of `ranked[:k]`: a negative k drops from the end. */
  function CutLength(length: nat, cut: Option<int>): (n: nat)
    ensures n <= length
  {
    match cut
    case None => length
    case Some(k) => if k >= 0 then (if k <= length then k else length) else if length + k >= 0 then length + k else 0
  }

  function Min(a: nat, b: nat): nat { if a < b then a else b }

  // ---------- sums over the first n places ----------

  function Hits(ranked: seq<string>, rel: set<string>, n: nat): nat
    requires n <= |ranked|
  {
    if n == 0 then 0 else Hits(ranked, rel, n - 1) + if ranked[n - 1] in rel then 1 else 0
  }

  /** Place of the first relevant document, or n when there is none. */
  function FirstHit(ranked: seq<string>, rel: set<string>, n: nat): (f: nat)
    requires n <= |ranked|
    ensures f <= n
    ensures f < n ==> ranked[f] in rel
    ensures forall i :: 0 <= i < f ==> ranked[i] !in rel
  {
    if n == 0 then 0
    else
      var f := FirstHit(ranked, rel, n - 1);
      if f < n - 1 || ranked[n - 1] in rel then f else n
  }

  function Dcg(ranked: seq<string>, rel: set<string>, disc: Discount, n: nat): real
    requires n <= |ranked|
  {
    if n == 0 then 0.0
    else Dcg(ranked, rel, disc, n - 1) + if ranked[n - 1] in rel then disc(n - 1) else 0.0
  }

  function Ideal(disc: Discount, m: nat): real {
    if m == 0 then 0.0 else Ideal(disc, m - 1) + disc(m - 1)
  }

  /** Sum of the precisions at the places of the relevant documents. */
  function ApSum(ranked: seq<string>, rel: set<string>, n: nat): real
    requires n <= |ranked|
  {
    if n == 0 then 0.0
    else ApSum(ranked, rel, n - 1)
         + if ranked[n - 1] in rel then Hits(ranked, rel, n) as real / n as real else 0.0
  }

  function Value(kind: Kind, ranked: seq<string>, n: nat, rel: set<string>, disc: Discount): real
    requires n <= |ranked|
  {
    match kind
    case HitRate => if FirstHit(ranked, rel, n) < n then 1.0 else 0.0
    case Mrr => var f := FirstHit(ranked, rel, n); if f < n then 1.0 / (f + 1) as real else 0.0
    case Recall => if rel != {} then Hits(ranked, rel, n) as real / |rel| as real else 0.0
    case Ndcg =>
      var ideal := Ideal(disc, Min(|rel|, n));
      if ideal != 0.0 then Dcg(ranked, rel, disc, n) / ideal else 0.0
    case Map => if Min(|rel|, n) != 0 then ApSum(ranked, rel, n) / Min(|rel|, n) as real else 0.0
    case Unsupported => 0.0
  }

  /** `None` is the NotImplementedError. */
  function MetricValue(metric: Metric, ranked: seq<string>, rel: set<string>, disc: Discount): Option<real> {
    if metric.kind.Unsupported? then None
    else Some(Value(metric.kind, ranked, CutLength(|ranked|, metric.cut), rel, disc))
  }

  method MetricAtSingle(metric: Metric, ranked: seq<string>, rel: set<string>, disc: Discount) returns (r: Option<real>)
    ensures r == MetricValue(metric, ranked, rel, disc)
  {
    var n := CutLength(|ranked|, metric.cut);
    match metric.kind {
      case HitRate =>
        if i :| 0 <= i < n && ranked[i] in rel {
          return Some(1.0);
        }
        return Some(0.0);
      case Mrr =>
        for i := 0 to n
          invariant FirstHit(ranked, rel, n) >= i
        {
          if ranked[i] in rel {
            return Some(1.0 / (i + 1) as real);
          }
        }
        return Some(0.0);
      case Recall =>
        var count := 0;
        for i := 0 to n
          invariant count == Hits(ranked, rel, i)
        {
          if ranked[i] in rel {
            count := count + 1;
          }
        }
        return Some(if rel != {} then count as real / |rel| as real else 0.0);
      case Ndcg =>
        var dcg, ideal := 0.0, 0.0;
        for i := 0 to n
          invariant dcg == Dcg(ranked, rel, disc, i)
        {
          if ranked[i] in rel {
            dcg := dcg + disc(i);
          }
        }
        for i := 0 to Min(|rel|, n)
          invariant ideal == Ideal(disc, i)
        {
          ideal := ideal + disc(i);
        }
        return Some(if ideal != 0.0 then dcg / ideal else 0.0);
      case Map =>
        var ap, hits := 0.0, 0;
        for i := 0 to n
          invariant hits == Hits(ranked, rel, i) && ap == ApSum(ranked, rel, i)
        {
          if ranked[i] in rel {
            hits := hits + 1;
            ap := ap + hits as real / (i + 1) as real;
          }
        }
        var denom := Min(|rel|, n);
        return Some(if denom != 0 then ap / denom as real else 0.0);
      case Unsupported =>
        return None;
    }
  }

  // ---------- at most |rel| hits ----------

  ghost predicate Distinct(ranked: seq<string>) {
    forall i, j :: 0 <= i < j < |ranked| ==> ranked[i] != ranked[j]
  }

  function Found(ranked: seq<string>, rel: set<string>, n: nat): set<string>
    requires n <= |ranked|
  {
    set i | 0 <= i < n && ranked[i] in rel :: ranked[i]
  }

  lemma {:induction false} HitsCountFound(ranked: seq<string>, rel: set<string>, n: nat)
    requires n <= |ranked| && Distinct(ranked)
    ensures Hits(ranked, rel, n) == |Found(ranked, rel, n)|
  {
    if n > 0 {
      HitsCountFound(ranked, rel, n - 1);
      var d := ranked[n - 1];
      assert d !in Found(ranked, rel, n - 1);
      assert Found(ranked, rel, n) == if d in rel then Found(ranked, rel, n - 1) + {d} else Found(ranked, rel, n - 1);
    }
  }

  lemma {:induction false} HitsAtMostPlaces(ranked: seq<string>, rel: set<string>, n: nat)
    requires n <= |ranked|
    ensures Hits(ranked, rel, n) <= n
  {
    if n > 0 { HitsAtMostPlaces(ranked, rel, n - 1); }
  }

  lemma {:induction false} HitsBound(ranked: seq<string>, rel: set<string>, n: nat)
    requires n <= |ranked| && Distinct(ranked)
    ensures Hits(ranked, rel, n) <= Min(|rel|, n)
  {
    HitsCountFound(ranked, rel, n);
    SubsetSize(Found(ranked, rel, n), rel);
    HitsAtMostPlaces(ranked, rel, n);
  }

  // ---------- the best ranking ----------

  /** Relevant documents fill the first m places. */
  ghost predicate Filled(ranked: seq<string>, rel: set<string>, m: nat)
    requires m <= |ranked|
  {
    forall i :: 0 <= i < m ==> ranked[i] in rel
  }

  lemma {:induction false} FilledHits(ranked: seq<string>, rel: set<string>, m: nat, n: nat)
    requires m <= n <= |ranked| && Filled(ranked, rel, m)
    ensures Hits(ranked, rel, n) >= m
  {
    if n > 0 { FilledHits(ranked, rel, if m == n then m - 1 else m, n - 1); }
  }

  lemma {:induction false} IdealIncreases(disc: Discount, a: nat, b: nat)
    requires Decreasing(disc) && a <= b
    ensures Ideal(disc, a) <= Ideal(disc, b) && (a < b ==> Ideal(disc, a) < Ideal(disc, b))
    decreases b
  {
    if a < b { IdealIncreases(disc, a, b - 1); }
  }

  lemma {:induction false} DcgBound(ranked: seq<string>, rel: set<string>, disc: Discount, n: nat)
    requires n <= |ranked| && Decreasing(disc)
    ensures Hits(ranked, rel, n) <= n
    ensures 0.0 <= Dcg(ranked, rel, disc, n) <= Ideal(disc, Hits(ranked, rel, n))
    ensures Dcg(ranked, rel, disc, n) == Ideal(disc, Hits(ranked, rel, n))
            <==> Filled(ranked, rel, Hits(ranked, rel, n))
  {
    if n > 0 {
      DcgBound(ranked, rel, disc, n - 1);
      var h := Hits(ranked, rel, n - 1);
      if ranked[n - 1] in rel {
        assert disc(n - 1) <= disc(h);
        if h < n - 1 && Filled(ranked, rel, h + 1) { FilledHits(ranked, rel, h + 1, n - 1); }
      }
    }
  }

  lemma {:induction false} Fraction(a: nat, b: nat)
    requires a <= b && b > 0
    ensures 0.0 <= a as real / b as real <= 1.0
    ensures a as real / b as real == 1.0 <==> a == b
  {
    Quotient(a as real, b as real);
  }

  lemma {:induction false} Quotient(x: real, y: real)
    requires 0.0 <= x <= y && y > 0.0
    ensures 0.0 <= x / y <= 1.0
    ensures x / y == 1.0 <==> x == y
  {
    assert x / y * y == x;
  }

  lemma {:induction false} ApBound(ranked: seq<string>, rel: set<string>, n: nat)
    requires n <= |ranked|
    ensures Hits(ranked, rel, n) <= n
    ensures 0.0 <= ApSum(ranked, rel, n) <= Hits(ranked, rel, n) as real
    ensures ApSum(ranked, rel, n) == Hits(ranked, rel, n) as real <==> Filled(ranked, rel, Hits(ranked, rel, n))
  {
    if n > 0 {
      ApBound(ranked, rel, n - 1);
      var h := Hits(ranked, rel, n - 1);
      if ranked[n - 1] in rel {
        Fraction(h + 1, n);
        if h < n - 1 && Filled(ranked, rel, h + 1) { FilledHits(ranked, rel, h + 1, n - 1); }
      }
    }
  }

  /** Every metric of every ranking without repetition lies in [0, 1]. */
  lemma {:induction false} MetricsInUnitInterval(kind: Kind, ranked: seq<string>, cut: Option<int>, rel: set<string>,
                                                 disc: Discount)
    requires Distinct(ranked) && Decreasing(disc)
    ensures 0.0 <= Value(kind, ranked, CutLength(|ranked|, cut), rel, disc) <= 1.0
  {
    var n := CutLength(|ranked|, cut);
    var m := Min(|rel|, n);
    HitsBound(ranked, rel, n);
    match kind
    case Mrr => if FirstHit(ranked, rel, n) < n { Fraction(1, FirstHit(ranked, rel, n) + 1); }
    case Recall => if rel != {} { Fraction(Hits(ranked, rel, n), |rel|); }
    case Ndcg =>
      DcgBound(ranked, rel, disc, n);
      IdealIncreases(disc, Hits(ranked, rel, n), m);
      IdealIncreases(disc, 0, m);
      if m > 0 { Quotient(Dcg(ranked, rel, disc, n), Ideal(disc, m)); }
    case Map =>
      ApBound(ranked, rel, n);
      if m > 0 { Quotient(ApSum(ranked, rel, n), m as real); }
    case _ =>
  }

  /** Only a name that is no metric has no value; a metric looks at the cut list alone. */
  lemma {:induction false} MetricLooksAtCut(metric: Metric, ranked: seq<string>, rel: set<string>, disc: Discount)
    ensures MetricValue(metric, ranked, rel, disc) == None <==> metric.kind == Unsupported
    ensures var n := CutLength(|ranked|, metric.cut);
            MetricValue(metric, ranked, rel, disc)
            == MetricValue(Metric(metric.kind, None), ranked[..n], rel, disc)
  {
    SameBelow(ranked, rel, disc, CutLength(|ranked|, metric.cut), CutLength(|ranked|, metric.cut));
  }

  lemma {:induction false} SameBelow(ranked: seq<string>, rel: set<string>, disc: Discount, n: nat, m: nat)
    requires m <= n <= |ranked|
    ensures Hits(ranked[..n], rel, m) == Hits(ranked, rel, m)
    ensures FirstHit(ranked[..n], rel, m) == FirstHit(ranked, rel, m)
    ensures Dcg(ranked[..n], rel, disc, m) == Dcg(ranked, rel, disc, m)
    ensures ApSum(ranked[..n], rel, m) == ApSum(ranked, rel, m)
    decreases m
  {
    if m > 0 { SameBelow(ranked, rel, disc, n, m - 1); }
  }

  /** Hit rate tells whether the cut list has a relevant document. */
  lemma {:induction false} HitRateMeaning(ranked: seq<string>, n: nat, rel: set<string>, disc: Discount)
    requires n <= |ranked|
    ensures Value(HitRate, ranked, n, rel, disc) == if exists i :: 0 <= i < n && ranked[i] in rel then 1.0 else 0.0
  {
    var f := FirstHit(ranked, rel, n);
    if f < n { assert ranked[f] in rel; }
  }

  /** The reciprocal rank is the inverse of the first relevant place, counted from one, or zero. */
  lemma {:induction false} MrrMeaning(ranked: seq<string>, n: nat, rel: set<string>, disc: Discount, first: nat)
    requires n <= |ranked| && first <= n && forall i :: 0 <= i < first ==> ranked[i] !in rel
    ensures first == n ==> Value(Mrr, ranked, n, rel, disc) == 0.0
    ensures first < n && ranked[first] in rel ==> Value(Mrr, ranked, n, rel, disc) == 1.0 / (first + 1) as real
  {
    var f := FirstHit(ranked, rel, n);
    if first < n && ranked[first] in rel { assert f == first; }
  }

  /** Recall is the part of the relevant documents that the cut list has. */
  lemma {:induction false} RecallMeaning(ranked: seq<string>, n: nat, rel: set<string>, disc: Discount)
    requires n <= |ranked| && Distinct(ranked)
    ensures rel != {} ==> Value(Recall, ranked, n, rel, disc) * |rel| as real == |Found(ranked, rel, n)| as real
    ensures rel == {} ==> Value(Recall, ranked, n, rel, disc) == 0.0
  {
    HitsCountFound(ranked, rel, n);
    if rel != {} { Inverse(Hits(ranked, rel, n) as real, |rel| as real); }
  }

  lemma {:induction false} Inverse(x: real, y: real)
    requires y != 0.0
    ensures x / y * y == x
  {
  }

  /** The sum of f over the relevant places below n, last place first. */
  ghost function SumOverFound(ranked: seq<string>, rel: set<string>, n: nat, f: nat -> real): real
    requires n <= |ranked|
  {
    if n == 0 then 0.0
    else (if ranked[n - 1] in rel then f(n - 1) else 0.0) + SumOverFound(ranked, rel, n - 1, f)
  }

  /** nDCG is the sum of the discounts at the relevant places against that of the best list. */
  lemma {:induction false} NdcgMeaning(ranked: seq<string>, n: nat, rel: set<string>, disc: Discount)
    requires n <= |ranked| && Distinct(ranked) && Decreasing(disc) && rel != {} && n > 0
    ensures var m := if |rel| < n then |rel| else n;
            Value(Ndcg, ranked, n, rel, disc) * Ideal(disc, m) == SumOverFound(ranked, rel, n, disc)
  {
    var m := Min(|rel|, n);
    DcgOverFound(ranked, rel, n, disc);
    IdealIncreases(disc, 0, m);
    Inverse(Dcg(ranked, rel, disc, n), Ideal(disc, m));
  }

  /** Average precision is the mean of the precisions at the relevant places. */
  lemma {:induction false} MapMeaning(ranked: seq<string>, n: nat, rel: set<string>, disc: Discount)
    requires n <= |ranked| && Distinct(ranked) && rel != {} && n > 0
    ensures var m := if |rel| < n then |rel| else n;
            Value(Map, ranked, n, rel, disc) * m as real == SumOverFound(ranked, rel, n, Precision(ranked, rel))
  {
    var m := Min(|rel|, n);
    ApOverFound(ranked, rel, n);
    Inverse(ApSum(ranked, rel, n), m as real);
  }

  /** At place i, the part of the first i + 1 documents that is relevant. */
  ghost function Precision(ranked: seq<string>, rel: set<string>): nat -> real {
    (i: nat) => if i < |ranked| then |Found(ranked, rel, i + 1)| as real / (i + 1) as real else 0.0
  }

  lemma {:induction false} DcgOverFound(ranked: seq<string>, rel: set<string>, n: nat, disc: Discount)
    requires n <= |ranked|
    ensures Dcg(ranked, rel, disc, n) == SumOverFound(ranked, rel, n, disc)
  {
    if n > 0 { DcgOverFound(ranked, rel, n - 1, disc); }
  }

  lemma {:induction false} ApOverFound(ranked: seq<string>, rel: set<string>, n: nat)
    requires n <= |ranked| && Distinct(ranked)
    ensures ApSum(ranked, rel, n) == SumOverFound(ranked, rel, n, Precision(ranked, rel))
  {
    if n > 0 {
      ApOverFound(ranked, rel, n - 1);
      HitsCountFound(ranked, rel, n);
      assert Precision(ranked, rel)(n - 1) == |Found(ranked, rel, n)| as real / n as real;
    }
  }

  /** The ideal is the sum of the first discounts, and the cut list is what `ranked[:k]` is. */
  lemma {:induction false} IdealAndCut(disc: Discount, m: nat, length: nat, k: int)
    ensures Ideal(disc, m + 1) - Ideal(disc, m) == disc(m) && Ideal(disc, 0) == 0.0
    ensures CutLength(length, None) == length
    ensures 0 <= k <= length ==> CutLength(length, Some(k)) == k
    ensures k > length ==> CutLength(length, Some(k)) == length
    ensures k < 0 <= length + k ==> CutLength(length, Some(k)) == length + k
    ensures length + k < 0 ==> CutLength(length, Some(k)) == 0
  {
  }

  /** nDCG and average precision are perfect together: exactly when relevant documents fill the
      first min(|rel|, length of the cut list) places. */
  lemma {:induction false} PerfectScoreIff(ranked: seq<string>, cut: Option<int>, rel: set<string>, disc: Discount)
    requires Distinct(ranked) && Decreasing(disc)
    requires rel != {} && CutLength(|ranked|, cut) > 0
    ensures var n := CutLength(|ranked|, cut); var perfect := Filled(ranked, rel, Min(|rel|, n));
            && (Value(Ndcg, ranked, n, rel, disc) == 1.0 <==> perfect)
            && (Value(Map, ranked, n, rel, disc) == 1.0 <==> perfect)
  {
    var n := CutLength(|ranked|, cut);
    var m, h := Min(|rel|, n), Hits(ranked, rel, n);
    HitsBound(ranked, rel, n);
    DcgBound(ranked, rel, disc, n);
    ApBound(ranked, rel, n);
    IdealIncreases(disc, h, m);
    IdealIncreases(disc, 0, m);
    Quotient(Dcg(ranked, rel, disc, n), Ideal(disc, m));
    Quotient(ApSum(ranked, rel, n), m as real);
    if Filled(ranked, rel, m) { FilledHits(ranked, rel, m, n); }
  }

  // ---------- promotion ----------

  function Swapped(ranked: seq<string>, p: nat): seq<string>
    requires p + 1 < |ranked|
  {
    ranked[p := ranked[p + 1]][p + 1 := ranked[p]]
  }

  ghost predicate Promotes(ranked: seq<string>, rel: set<string>, p: nat) {
    p + 1 < |ranked| && ranked[p] !in rel && ranked[p + 1] in rel
  }

  /** Only the cut right between the two places sees one hit more. */
  lemma {:induction false} HitsPromoted(ranked: seq<string>, rel: set<string>, p: nat, n: nat)
    requires Promotes(ranked, rel, p) && n <= |ranked|
    ensures Hits(Swapped(ranked, p), rel, n) == Hits(ranked, rel, n) + if n == p + 1 then 1 else 0
  {
    if n > 0 { HitsPromoted(ranked, rel, p, n - 1); }
  }

  lemma {:induction false} DcgPromoted(ranked: seq<string>, rel: set<string>, disc: Discount, p: nat, n: nat)
    requires Promotes(ranked, rel, p) && n <= |ranked|
    ensures Dcg(Swapped(ranked, p), rel, disc, n)
         == Dcg(ranked, rel, disc, n) + if n <= p then 0.0 else disc(p) - if n == p + 1 then 0.0 else disc(p + 1)
  {
    if n > 0 { DcgPromoted(ranked, rel, disc, p, n - 1); }
  }

  function PrecisionHere(ranked: seq<string>, rel: set<string>, p: nat, place: nat): real
    requires p <= |ranked| && place > 0
  {
    (Hits(ranked, rel, p) + 1) as real / place as real
  }

  lemma {:induction false} ApPromoted(ranked: seq<string>, rel: set<string>, p: nat, n: nat)
    requires Promotes(ranked, rel, p) && n <= |ranked|
    ensures ApSum(Swapped(ranked, p), rel, n)
         == ApSum(ranked, rel, n)
            + if n <= p then 0.0
              else PrecisionHere(ranked, rel, p, p + 1)
                   - if n == p + 1 then 0.0 else PrecisionHere(ranked, rel, p, p + 2)
  {
    if n > 0 {
      ApPromoted(ranked, rel, p, n - 1);
      HitsPromoted(ranked, rel, p, n);
      HitsPromoted(ranked, rel, p, p);
    }
  }

  lemma {:induction false} LargerDenominator(a: nat, b: nat, c: nat)
    requires 0 < b <= c
    ensures a as real / c as real <= a as real / b as real
  {
    var x, y := a as real / b as real, a as real / c as real;
    assert x * b as real == a as real && y * c as real == a as real;
    assert x * c as real >= x * b as real;
  }

  lemma {:induction false} QuotientMonotone(x: real, y: real, d: real)
    requires x <= y && d > 0.0
    ensures x / d <= y / d
  {
    assert x / d * d == x && y / d * d == y;
  }

  /** Swapping an irrelevant document with the relevant one right below it lowers no metric,
      also when the two straddle the cut. */
  lemma {:induction false} PromotionNeverLowers(kind: Kind, ranked: seq<string>, cut: Option<int>, rel: set<string>,
                                                disc: Discount, p: nat)
    requires Promotes(ranked, rel, p) && Decreasing(disc)
    ensures var n := CutLength(|ranked|, cut);
            Value(kind, Swapped(ranked, p), n, rel, disc) >= Value(kind, ranked, n, rel, disc)
  {
    var n := CutLength(|ranked|, cut);
    var m, better := Min(|rel|, n), Swapped(ranked, p);
    match kind
    case HitRate => FirstHitPromoted(ranked, rel, p, n);
    case Mrr =>
      FirstHitPromoted(ranked, rel, p, n);
      EarlierFirstHit(FirstHit(ranked, rel, n), FirstHit(better, rel, n), n);
    case Recall =>
      HitsPromoted(ranked, rel, p, n);
      if rel != {} { QuotientMonotone(Hits(ranked, rel, n) as real, Hits(better, rel, n) as real, |rel| as real); }
    case Ndcg =>
      DcgPromoted(ranked, rel, disc, p, n);
      IdealIncreases(disc, 0, m);
      if m > 0 { QuotientMonotone(Dcg(ranked, rel, disc, n), Dcg(better, rel, disc, n), Ideal(disc, m)); }
    case Map =>
      ApSumPromoted(ranked, rel, p, n);
      if m > 0 { QuotientMonotone(ApSum(ranked, rel, n), ApSum(better, rel, n), m as real); }
    case Unsupported =>
  }

  lemma {:induction false} ApSumPromoted(ranked: seq<string>, rel: set<string>, p: nat, n: nat)
    requires Promotes(ranked, rel, p) && n <= |ranked|
    ensures ApSum(Swapped(ranked, p), rel, n) >= ApSum(ranked, rel, n)
  {
    ApPromoted(ranked, rel, p, n);
    LargerDenominator(Hits(ranked, rel, p) + 1, p + 1, p + 2);
    Fraction(0, p + 1);
    LargerDenominator(0, p + 1, p + 2);
  }

  lemma {:induction false} EarlierFirstHit(before: nat, after: nat, n: nat)
    requires before < n ==> after <= before
    ensures (if after < n then 1.0 / (after + 1) as real else 0.0)
         >= (if before < n then 1.0 / (before + 1) as real else 0.0)
  {
    if before < n { LargerDenominator(1, after + 1, before + 1); }
  }

  lemma {:induction false} FirstHitPromoted(ranked: seq<string>, rel: set<string>, p: nat, n: nat)
    requires Promotes(ranked, rel, p) && n <= |ranked|
    ensures FirstHit(ranked, rel, n) < n ==> FirstHit(Swapped(ranked, p), rel, n) <= FirstHit(ranked, rel, n)
  {
    var f, g := FirstHit(ranked, rel, n), FirstHit(Swapped(ranked, p), rel, n);
    if f < n {
      var there := if f == p + 1 then p else f;
      assert Swapped(ranked, p)[there] in rel;
    }
  }
}
