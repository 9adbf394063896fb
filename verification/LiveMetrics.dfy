/** Live metrics estimated from the latest signals of one (strategy, pair, timeframe), and why the validator
    never drops them. */
module LiveMetrics {
  import opened Arith
  import opened Common
  import opened MetricsValidator
  import opened SignalRows
  import opened Statistics
  import PM = PairMetrics

  /** The two columns that are fetched, newest first. */
  datatype LiveRow = LiveRow(direction: Direction, confidence: Option<real>)

  /** LIMIT 200 */
  const FETCH_LIMIT := 200

  /** A null confidence counts as zero. */
  function Score(r: LiveRow): real {
    if r.confidence.Some? then r.confidence.value else 0.0
  }

  function Scores(rows: seq<LiveRow>): seq<real> { seq(|rows|, i requires 0 <= i < |rows| => Score(rows[i])) }

  function Directions(rows: seq<LiveRow>): seq<Direction> {
    seq(|rows|, i requires 0 <= i < |rows| => rows[i].direction)
  }

  function SumFor(rows: seq<LiveRow>, d: Direction): real {
    if rows == [] then 0.0
    else
      var r := rows[|rows| - 1];
      SumFor(rows[..|rows| - 1], d) + if r.direction == d then Score(r) else 0.0
  }

  /** The sum over the rows of one direction. */
  function ScoresFor(rows: seq<LiveRow>, d: Direction): seq<real> {
    seq(|rows|, i requires 0 <= i < |rows| => if rows[i].direction == d then Score(rows[i]) else 0.0)
  }

  /** A buy counts for its score, a sell against it, a hold not at all. */
  function SignedScores(rows: seq<LiveRow>): seq<real> {
    seq(|rows|, i requires 0 <= i < |rows| =>
        match rows[i].direction case Buy => Score(rows[i]) case Sell => -Score(rows[i]) case Hold => 0.0)
  }

  lemma {:induction false} SumsFor(rows: seq<LiveRow>, d: Direction)
    ensures SumFor(rows, d) == Sum(ScoresFor(rows, d))
    ensures SumFor(rows, Buy) - SumFor(rows, Sell) == Sum(SignedScores(rows))
  {
    if rows != [] {
      var n := |rows| - 1;
      SumsFor(rows[..n], d);
      assert ScoresFor(rows, d)[..n] == ScoresFor(rows[..n], d);
      assert SignedScores(rows)[..n] == SignedScores(rows[..n]);
    }
  }

  function Count(ds: seq<Direction>, d: Direction): (n: nat)
    ensures n <= |ds|
    ensures n > 0 <==> d in ds
  {
    if ds == [] then 0 else Count(ds[..|ds| - 1], d) + if ds[|ds| - 1] == d then 1 else 0
  }

  lemma {:induction false} CountIsMultiplicity(ds: seq<Direction>, d: Direction)
    ensures Count(ds, d) == multiset(ds)[d]
  {
    if ds != [] {
      CountIsMultiplicity(ds[..|ds| - 1], d);
      assert ds == ds[..|ds| - 1] + [ds[|ds| - 1]];
    }
  }

  // ---------- Drawdown of the direction sequence ----------

  /** Buys minus sells. */
  function Balance(ds: seq<Direction>): int { Count(ds, Buy) - Count(ds, Sell) }

  /** The highest balance of any prefix. */
  function Peak(ds: seq<Direction>): int {
    if ds == [] then 0
    else
      var p := Peak(ds[..|ds| - 1]);
      if Balance(ds) > p then Balance(ds) else p
  }

  lemma {:induction false} PeakIsHighest(ds: seq<Direction>)
    ensures forall i | 0 <= i <= |ds| :: Balance(ds[..i]) <= Peak(ds)
    ensures exists i | 0 <= i <= |ds| :: Balance(ds[..i]) == Peak(ds)
  {
    hide Balance;
    assert ds[..|ds|] == ds;
    if ds == [] {
      EmptyBalance(ds);
    } else {
      var n := |ds| - 1;
      PeakIsHighest(ds[..n]);
      assert forall i | 0 <= i <= n :: ds[..n][..i] == ds[..i];
    }
  }

  lemma EmptyBalance(ds: seq<Direction>)
    ensures Balance(ds[..0]) == 0
  {
  }

  function Ratio(x: int, y: int): real
    requires y > 0
  {
    x as real / y as real
  }

  /** How far the balance lies under its peak, relative to the peak. */
  function Depth(ds: seq<Direction>): real {
    Ratio(Peak(ds) - Balance(ds), if Peak(ds) > 1 then Peak(ds) else 1)
  }

  function DeepestDip(ds: seq<Direction>): real {
    if ds == [] then 0.0
    else
      var d := DeepestDip(ds[..|ds| - 1]);
      if Depth(ds) > d then Depth(ds) else d
  }

  function MaxDrawdown(ds: seq<Direction>): Option<real> {
    if DeepestDip(ds) > 0.0 then Some(DeepestDip(ds)) else None
  }

  method ComputeMaxDrawdown(ds: seq<Direction>) returns (r: Option<real>)
    ensures r == MaxDrawdown(ds)
  {
    if ds == [] {
      return None;
    }
    hide Ratio;
    var cumulative, peak, maxDd := 0, 0, 0.0;
    for i := 0 to |ds|
      invariant cumulative == Balance(ds[..i])
      invariant peak == Peak(ds[..i]) >= 0
      invariant maxDd == DeepestDip(ds[..i])
    {
      assert ds[..i + 1][..i] == ds[..i];
      if ds[i].Buy? {
        cumulative := cumulative + 1;
      } else if ds[i].Sell? {
        cumulative := cumulative - 1;
      }
      if cumulative > peak {
        peak := cumulative;
      }
      var drawdown := Ratio(peak - cumulative, if peak > 1 then peak else 1);
      if drawdown > maxDd {
        maxDd := drawdown;
      }
    }
    assert ds[..|ds|] == ds;
    r := if maxDd > 0.0 then Some(maxDd) else None;
  }

  lemma RatioBounds(x: int, y: int)
    requires y > 0 && x >= 0
    ensures 0.0 <= Ratio(x, y) <= x as real
    ensures Ratio(x, y) <= 1.0 <==> x <= y
    ensures Ratio(x, y) > 0.0 <==> x > 0
    ensures y == 1 ==> Ratio(x, y) == x as real
  {
    var r := Ratio(x, y);
    SignOfQuotient(x as real, y as real);
    QuotientVsOne(x as real, y as real);
    assert r * y as real == x as real;
    MulNonNegative(r, (y - 1) as real);
  }

  lemma DepthBounds(ds: seq<Direction>)
    ensures Peak(ds) >= Balance(ds) && Peak(ds) >= 0
    ensures 0.0 <= Depth(ds) <= (Peak(ds) - Balance(ds)) as real
    ensures Depth(ds) <= 1.0 <==> Balance(ds) >= 0 || (Balance(ds) == -1 && Peak(ds) == 0)
    ensures Depth(ds) > 0.0 <==> Peak(ds) > Balance(ds)
    ensures Peak(ds) == 0 ==> Depth(ds) == -Balance(ds) as real
  {
    hide Ratio, Balance, Peak;
    PeakIsHighest(ds);
    EmptyBalance(ds);
    assert ds[..|ds|] == ds;
    RatioBounds(Peak(ds) - Balance(ds), if Peak(ds) > 1 then Peak(ds) else 1);
  }

  lemma {:induction false} PeakWithinSells(ds: seq<Direction>)
    ensures Peak(ds) - Balance(ds) <= Count(ds, Sell)
  {
    if ds != [] { PeakWithinSells(ds[..|ds| - 1]); }
  }

  lemma {:induction false} DipBounds(ds: seq<Direction>)
    ensures 0.0 <= DeepestDip(ds) <= Count(ds, Sell) as real
    ensures DeepestDip(ds) > 0.0 <==> Sell in ds
  {
    hide Ratio;
    if ds != [] {
      var n := |ds| - 1;
      DipBounds(ds[..n]);
      DepthBounds(ds);
      PeakWithinSells(ds);
    }
  }

  /** The drawdown is missing exactly when nothing was sold, and is at most the number of sells. */
  lemma DrawdownBounds(ds: seq<Direction>)
    ensures MaxDrawdown(ds).None? <==> Sell !in ds
    ensures MaxDrawdown(ds).Some? ==> 0.0 < MaxDrawdown(ds).value <= Count(ds, Sell) as real
  {
    DipBounds(ds);
  }

  /** p is the highest balance of the first j signals or fewer. */
  predicate IsPeakAt(ds: seq<Direction>, j: nat, p: int)
    requires j <= |ds|
  {
    (forall i | 0 <= i <= j :: Balance(ds[..i]) <= p) && (exists i | 0 <= i <= j :: Balance(ds[..i]) == p)
  }

  /** Falling from p to the balance b loses this share of p, or this many signals from a peak below 1. */
  predicate LosesShare(p: int, b: int, share: real) { share * (if p > 1 then p else 1) as real == (p - b) as real }

  predicate LosesAtMost(p: int, b: int, share: real) { share * (if p > 1 then p else 1) as real >= (p - b) as real }

  /** No dip below a peak of the balance so far is deeper, and one is as deep. */
  ghost predicate IsDeepestDip(ds: seq<Direction>, share: real) {
    && (forall j, p: int | 0 <= j <= |ds| && IsPeakAt(ds, j, p) :: LosesAtMost(p, Balance(ds[..j]), share))
    && (exists j, p: int | 0 <= j <= |ds| && IsPeakAt(ds, j, p) :: LosesShare(p, Balance(ds[..j]), share))
  }

  lemma PeakAt(ds: seq<Direction>, j: nat, p: int)
    requires j <= |ds|
    ensures IsPeakAt(ds, j, Peak(ds[..j]))
    ensures IsPeakAt(ds, j, p) ==> p == Peak(ds[..j])
  {
    PeakIsHighest(ds[..j]);
    assert forall i | 0 <= i <= j :: ds[..j][..i] == ds[..i];
    hide Balance, Peak;
  }

  lemma DepthIsShare(ds: seq<Direction>, share: real)
    ensures LosesShare(Peak(ds), Balance(ds), Depth(ds))
    ensures share >= Depth(ds) ==> LosesAtMost(Peak(ds), Balance(ds), share)
  {
    hide Balance, Peak, LosesShare, LosesAtMost, Ratio;
    RatioIsShare(Peak(ds), Balance(ds), share);
  }

  lemma RatioIsShare(p: int, b: int, share: real)
    ensures var r := Ratio(p - b, if p > 1 then p else 1);
            LosesShare(p, b, r) && (share >= r ==> LosesAtMost(p, b, share))
  {
    var unit, r := (if p > 1 then p else 1) as real, Ratio(p - b, if p > 1 then p else 1);
    assert r * unit == (p - b) as real;
    if share >= r { MulNonNegative(share - r, unit); }
  }

  lemma {:induction false} DipIsDeepest(ds: seq<Direction>)
    ensures forall j | 0 <= j <= |ds| :: Depth(ds[..j]) <= DeepestDip(ds)
    ensures exists j | 0 <= j <= |ds| :: Depth(ds[..j]) == DeepestDip(ds)
  {
    assert ds[..|ds|] == ds;
    if ds == [] {
      DepthBounds(ds);
    } else {
      var n := |ds| - 1;
      DipIsDeepest(ds[..n]);
      assert forall j | 0 <= j <= n :: ds[..n][..j] == ds[..j];
      hide Depth;
    }
  }

  /** The loop's result is the deepest dip of the balance below its running peak. */
  lemma DrawdownIsDeepestDip(ds: seq<Direction>)
    ensures IsDeepestDip(ds, DeepestDip(ds))
  {
    var d := DeepestDip(ds);
    DipIsDeepest(ds);
    hide Balance, Peak, Depth, DeepestDip, LosesShare, LosesAtMost, IsPeakAt;
    forall j, p: int | 0 <= j <= |ds| && IsPeakAt(ds, j, p) ensures LosesAtMost(p, Balance(ds[..j]), d) {
      PeakAt(ds, j, p);
      DepthIsShare(ds[..j], d);
    }
    var j :| 0 <= j <= |ds| && Depth(ds[..j]) == d;
    PeakAt(ds, j, 0);
    DepthIsShare(ds[..j], d);
    assert LosesShare(Peak(ds[..j]), Balance(ds[..j]), d);
  }

  /** No prefix sells more than it buys, save by one before anything was bought on balance. */
  predicate NeverOversold(ds: seq<Direction>) { forall j | 0 <= j <= |ds| :: FineAt(ds, j) }

  predicate FineAt(ds: seq<Direction>, j: nat)
    requires j <= |ds|
  {
    Balance(ds[..j]) >= 0 || (Balance(ds[..j]) == -1 && forall i | 0 <= i <= j :: Balance(ds[..i]) <= 0)
  }

  /** The estimate is meant to be normalised to [0, 1]. It is so exactly when the sequence is never oversold. */
  lemma {:induction false} NormalisedIffNeverOversold(ds: seq<Direction>)
    ensures DeepestDip(ds) <= 1.0 <==> NeverOversold(ds)
  {
    hide Depth, Balance, Peak;
    assert ds[..|ds|] == ds && Balance(ds[..0]) == 0 by { EmptyBalance(ds); }
    if ds != [] {
      var n := |ds| - 1;
      assert forall j | 0 <= j <= n :: ds[..n][..j] == ds[..j];
      NormalisedIffNeverOversold(ds[..n]);
      DepthBounds(ds);
      PeakIsHighest(ds);
      assert NeverOversold(ds) <==> NeverOversold(ds[..n]) && FineAt(ds, |ds|) by {
        assert forall j | 0 <= j <= n :: FineAt(ds[..n], j) == FineAt(ds, j);
      }
      assert FineAt(ds, |ds|) <==> Balance(ds) >= 0 || (Balance(ds) == -1 && Peak(ds) == 0);
    }
  }

  /** Selling only: the "normalised" drawdown is the number of signals. */
  lemma {:induction false} AllSellsGiveTheirNumber(ds: seq<Direction>)
    requires forall d :: d in ds ==> d.Sell?
    ensures Balance(ds) == -|ds| && Peak(ds) == 0 && DeepestDip(ds) == |ds| as real
  {
    hide Depth;
    if ds != [] {
      AllSellsGiveTheirNumber(ds[..|ds| - 1]);
      DepthBounds(ds);
    }
  }

  // ---------- The five metrics ----------

  /** What is left of statistics.stdev: a non-negative number whose square is the sample variance. */
  ghost predicate IsStdev(stdev: seq<real> -> real) {
    forall xs: seq<real> :: |xs| > 1 ==> stdev(xs) >= 0.0 && stdev(xs) * stdev(xs) == Variance(xs)
  }

  function SharpeRatio(rows: seq<LiveRow>, stdev: seq<real> -> real): Option<real> {
    var xs := Scores(rows);
    if |xs| > 1 && stdev(xs) > 0.0 then Some(Mean(xs) / stdev(xs)) else None
  }

  function LiveEstimate(rows: seq<LiveRow>, stdev: seq<real> -> real): Metrics {
    if |rows| < 5 then NO_METRICS
    else
      var (buys, sells) := (SumFor(rows, Buy), SumFor(rows, Sell));
      Metrics(Some(buys - sells), if sells > 0.0 then Some(buys / sells) else None, MaxDrawdown(Directions(rows)),
              SharpeRatio(rows, stdev), Some(|rows| - Count(Directions(rows), Hold)))
  }

  /** The ratio is mean over deviation: its square times the variance is the squared mean, its sign the mean's. It is
      missing exactly when the scores do not vary. */
  predicate IsScoreRatio(r: Option<real>, xs: seq<real>) {
    && (r.Some? <==> |xs| > 1 && Variance(xs) > 0.0)
    && (r.Some? ==>
          && Square(r.value) * Variance(xs) == Square(Mean(xs))
          && (r.value > 0.0 <==> Mean(xs) > 0.0) && (r.value < 0.0 <==> Mean(xs) < 0.0))
  }

  lemma SharpeIsScoreRatio(rows: seq<LiveRow>, stdev: seq<real> -> real)
    requires IsStdev(stdev)
    ensures IsScoreRatio(SharpeRatio(rows, stdev), Scores(rows))
  {
    hide Mean, Variance, Square, Scores;
    var xs := Scores(rows);
    if |xs| > 1 {
      DeviationOf(stdev(xs), Variance(xs));
      if stdev(xs) > 0.0 {
        RatioOverDeviation(Mean(xs), stdev(xs), Variance(xs));
      }
    }
  }

  lemma DeviationOf(dev: real, variance: real)
    requires dev >= 0.0 && dev * dev == variance
    ensures dev > 0.0 <==> variance > 0.0
  {
    if dev > 0.0 { SquareIsPositive(dev); }
  }

  lemma RatioOverDeviation(mean: real, dev: real, variance: real)
    requires dev > 0.0 && dev * dev == variance
    ensures Square(mean / dev) * variance == Square(mean)
    ensures (mean / dev > 0.0 <==> mean > 0.0) && (mean / dev < 0.0 <==> mean < 0.0)
  {
    SignOfQuotient(mean, dev);
    var r := mean / dev;
    assert r * dev == mean;
    MulAssoc(r, r, dev * dev);
    MulAssoc(r, dev, dev);
    assert r * mean == mean * r;
    MulAssoc(mean, r, dev);
  }

  /** This times the loss is the gain; so it exceeds 1 exactly when there is more gain than loss. */
  predicate IsFactor(factor: real, gain: real, loss: real) {
    factor * loss == gain && (factor > 1.0 <==> gain - loss > 0.0)
  }

  /** What the estimates are, said of the rows: the return is the sum of the signed scores and the difference of the two
      sums, the profit factor what the sells' sum must be multiplied by to give the buys' sum. */
  ghost predicate IsEstimate(m: Metrics, rows: seq<LiveRow>) {
    var (gain, loss) := (Sum(ScoresFor(rows, Buy)), Sum(ScoresFor(rows, Sell)));
    && m.totalReturn == Some(Sum(SignedScores(rows))) && m.totalReturn == Some(gain - loss)
    && (m.profitFactor.Some? <==> loss > 0.0)
    && (m.profitFactor.Some? ==> IsFactor(m.profitFactor.value, gain, loss))
    && (m.maxDrawdown.Some? <==> Sell in Directions(rows))
    && (m.maxDrawdown.Some? ==> IsDeepestDip(Directions(rows), m.maxDrawdown.value))
    && m.tradeCount == Some(multiset(Directions(rows))[Buy] + multiset(Directions(rows))[Sell])
  }

  lemma EstimateMeans(rows: seq<LiveRow>, stdev: seq<real> -> real)
    requires |rows| >= 5
    ensures IsEstimate(LiveEstimate(rows, stdev), rows)
  {
    hide *;
    SumsFor(rows, Buy);
    SumsFor(rows, Sell);
    NonHoldKeepsSums(rows, Buy);
    CountIsMultiplicity(Directions(rows), Buy);
    CountIsMultiplicity(Directions(rows), Sell);
    DrawdownBounds(Directions(rows));
    DrawdownIsDeepestDip(Directions(rows));
    FactorOfSums(SumFor(rows, Buy), SumFor(rows, Sell));
    EstimateUnfolds(rows, stdev);
    EstimateFolds(LiveEstimate(rows, stdev), rows);
  }

  lemma EstimateUnfolds(rows: seq<LiveRow>, stdev: seq<real> -> real)
    requires |rows| >= 5
    ensures var m, gain, loss, ds := LiveEstimate(rows, stdev), SumFor(rows, Buy), SumFor(rows, Sell), Directions(rows);
            && m.totalReturn == Some(gain - loss)
            && (m.profitFactor.Some? <==> loss > 0.0)
            && (loss > 0.0 ==> m.profitFactor.value == gain / loss)
            && m.maxDrawdown == MaxDrawdown(ds)
            && (m.maxDrawdown.Some? ==> m.maxDrawdown.value == DeepestDip(ds))
            && m.tradeCount == Some(|rows| - Count(ds, Hold))
  {
    hide SumFor, Directions, SharpeRatio, DeepestDip, Count;
  }

  lemma EstimateFolds(m: Metrics, rows: seq<LiveRow>)
    requires m.totalReturn == Some(Sum(SignedScores(rows)))
    requires m.totalReturn == Some(Sum(ScoresFor(rows, Buy)) - Sum(ScoresFor(rows, Sell)))
    requires m.profitFactor.Some? <==> Sum(ScoresFor(rows, Sell)) > 0.0
    requires m.profitFactor.Some? ==>
               IsFactor(m.profitFactor.value, Sum(ScoresFor(rows, Buy)), Sum(ScoresFor(rows, Sell)))
    requires m.maxDrawdown.Some? <==> Sell in Directions(rows)
    requires m.maxDrawdown.Some? ==> IsDeepestDip(Directions(rows), m.maxDrawdown.value)
    requires m.tradeCount == Some(multiset(Directions(rows))[Buy] + multiset(Directions(rows))[Sell])
    ensures IsEstimate(m, rows)
  {
    hide Sum, SignedScores, ScoresFor, Directions, IsFactor, IsDeepestDip;
  }

  lemma FactorOfSums(gain: real, loss: real)
    ensures loss > 0.0 ==> IsFactor(gain / loss, gain, loss)
  {
    if loss > 0.0 {
      QuotientVsOne(gain, loss);
      assert (gain / loss) * loss == gain;
    }
  }

  /** One more buy raises the return by its confidence, one more sell lowers it by that, and a hold, or a row without
      a confidence, leaves it. */
  lemma OneMoreRow(rows: seq<LiveRow>, r: LiveRow, stdev: seq<real> -> real)
    requires |rows| >= 5
    ensures LiveEstimate(rows, stdev).totalReturn.Some? && LiveEstimate(rows + [r], stdev).totalReturn.Some?
    ensures LiveEstimate(rows + [r], stdev).totalReturn.value
            == LiveEstimate(rows, stdev).totalReturn.value
               + match r
                 case LiveRow(Buy, Some(x)) => x
                 case LiveRow(Sell, Some(x)) => -x
                 case LiveRow(_, _) => 0.0
  {
    SumForAppend(rows, r, Buy);
    SumForAppend(rows, r, Sell);
    hide SumFor;
  }

  /** Without a sell the return is the sum of the scores of all rows that are not hold. */
  lemma ReturnWithoutSells(rows: seq<LiveRow>, stdev: seq<real> -> real)
    requires |rows| >= 5 && Sell !in Directions(rows)
    ensures LiveEstimate(rows, stdev).totalReturn == Some(Sum(Scores(NonHold(rows))))
  {
    NothingSold(rows);
    hide SumFor, Sum;
  }

  lemma {:induction false} NothingSold(rows: seq<LiveRow>)
    requires Sell !in Directions(rows)
    ensures SumFor(rows, Buy) == Sum(Scores(NonHold(rows))) && SumFor(rows, Sell) == 0.0
  {
    if rows != [] {
      var n := |rows| - 1;
      assert Directions(rows) == Directions(rows[..n]) + [rows[n].direction];
      assert rows[n].direction in Directions(rows);
      NothingSold(rows[..n]);
      var before := NonHold(rows[..n]);
      ScoresAppend(before, rows[n]);
      assert before + [] == before;
      hide Directions, Scores, Sum;
    }
  }

  lemma ScoresAppend(rows: seq<LiveRow>, r: LiveRow)
    ensures Sum(Scores(rows + [r])) == Sum(Scores(rows)) + Score(r)
  {
    assert Scores(rows + [r]) == Scores(rows) + [Score(r)];
    SumAppend(Scores(rows), Score(r));
  }

  /** The rows that are not hold, in order. */
  function NonHold(rows: seq<LiveRow>): seq<LiveRow> {
    if rows == [] then []
    else NonHold(rows[..|rows| - 1]) + if rows[|rows| - 1].direction.Hold? then [] else [rows[|rows| - 1]]
  }

  lemma SumForAppend(rows: seq<LiveRow>, r: LiveRow, d: Direction)
    ensures SumFor(rows + [r], d) == SumFor(rows, d) + if r.direction == d then Score(r) else 0.0
  {
    assert (rows + [r])[..|rows|] == rows;
  }

  /** Leaving the hold rows out changes neither of the two sums, and leaves as many rows as there are buys and sells. */
  lemma {:induction false} NonHoldKeepsSums(rows: seq<LiveRow>, d: Direction)
    requires !d.Hold?
    ensures SumFor(NonHold(rows), d) == SumFor(rows, d)
    ensures |NonHold(rows)| == |rows| - Count(Directions(rows), Hold)
    ensures |NonHold(rows)| == Count(Directions(rows), Buy) + Count(Directions(rows), Sell)
  {
    if rows != [] {
      var n := |rows| - 1;
      NonHoldKeepsSums(rows[..n], d);
      SumForAppend(NonHold(rows[..n]), rows[n], d);
      assert Directions(rows)[..n] == Directions(rows[..n]);
      assert NonHold(rows[..n]) + [] == NonHold(rows[..n]);
    }
  }

  /** The passes over the fetched rows: the non-hold rows first, and over them the two sums. */
  method ComputeLiveMetrics(rows: seq<LiveRow>, stdev: seq<real> -> real) returns (m: Metrics)
    ensures m == LiveEstimate(rows, stdev)
    ensures |rows| < 5 ==> m == Metrics(None, None, None, None, None)
    ensures |rows| >= 5 ==> IsEstimate(m, rows)
    ensures |rows| >= 5 && IsStdev(stdev) ==> IsScoreRatio(m.sharpeRatio, Scores(rows))
  {
    hide IsEstimate, IsScoreRatio, IsStdev;
    hide SumFor, Count, NonHold, SharpeRatio, MaxDrawdown, Directions, Scores;
    if |rows| < 5 {
      return NO_METRICS;
    }
    EstimateMeans(rows, stdev);
    if IsStdev(stdev) { SharpeIsScoreRatio(rows, stdev); }
    var directions := Directions(rows);
    var nonHold := CollectNonHold(rows);
    NonHoldKeepsSums(rows, Buy);
    NonHoldKeepsSums(rows, Sell);
    var buys := SumScores(nonHold, Buy);
    var sells := SumScores(nonHold, Sell);
    var maxDrawdown := ComputeMaxDrawdown(directions);
    m := Metrics(Some(buys - sells), if sells > 0.0 then Some(buys / sells) else None, maxDrawdown,
                 SharpeRatio(rows, stdev), Some(|nonHold|));
  }

  method CollectNonHold(rows: seq<LiveRow>) returns (nonHold: seq<LiveRow>)
    ensures nonHold == NonHold(rows)
  {
    nonHold := [];
    for i := 0 to |rows|
      invariant nonHold == NonHold(rows[..i])
    {
      assert rows[..i + 1][..i] == rows[..i];
      if !rows[i].direction.Hold? { nonHold := nonHold + [rows[i]]; }
    }
    assert rows[..|rows|] == rows;
  }

  method SumScores(rows: seq<LiveRow>, d: Direction) returns (sum: real)
    ensures sum == SumFor(rows, d)
  {
    sum := 0.0;
    for i := 0 to |rows|
      invariant sum == SumFor(rows[..i], d)
    {
      assert rows[..i + 1][..i] == rows[..i];
      if rows[i].direction == d { sum := sum + Score(rows[i]); }
    }
    assert rows[..|rows|] == rows;
  }

  // ---------- Rows written by this repository's producers ----------

  /** The confidence in twentieths, if it is a whole number of them. */
  function Grid(r: LiveRow): int { (Score(r) * 20.0).Floor }

  /** The row comes from one of the producers: a whole number of twentieths, 0 for hold, 10 to 19 otherwise. */
  predicate Produced(r: LiveRow) {
    r.confidence.Some? && Score(r) * 20.0 == Grid(r) as real && ProducedConfidence(r.direction, Grid(r))
  }

  predicate AllProduced(rows: seq<LiveRow>) { forall r :: r in rows ==> Produced(r) }

  /** What the history extraction writes is such a row. */
  lemma ExtractedIsProduced(r: BarRow)
    requires Priced(r)
    ensures Produced(LiveRow(SignalOf(r).direction, Some(SignalOf(r).confidence)))
  {
    hide Round2;
    assert (Twentieths(r) as real / 20.0) * 20.0 == Twentieths(r) as real;
  }

  function GridSum(rows: seq<LiveRow>): int {
    if rows == [] then 0 else GridSum(rows[..|rows| - 1]) + Grid(rows[|rows| - 1])
  }

  function GridSquares(rows: seq<LiveRow>): int {
    if rows == [] then 0
    else GridSquares(rows[..|rows| - 1]) + Grid(rows[|rows| - 1]) * Grid(rows[|rows| - 1])
  }

  lemma SquareOnGrid(x: real, k: int)
    requires x * 20.0 == k as real
    ensures x * x * 400.0 == (k * k) as real
  {
    assert x * x * 400.0 == (x * 20.0) * (x * 20.0);
  }

  lemma {:induction false} SumsOnGrid(rows: seq<LiveRow>)
    requires AllProduced(rows)
    ensures Sum(Scores(rows)) * 20.0 == GridSum(rows) as real
    ensures SumOfSquares(Scores(rows)) * 400.0 == GridSquares(rows) as real
    ensures 0 <= GridSum(rows) <= 19 * |rows|
  {
    if rows != [] {
      var n := |rows| - 1;
      SumsOnGrid(rows[..n]);
      assert Scores(rows)[..n] == Scores(rows[..n]);
      assert rows[n] in rows;
      SquareOnGrid(Score(rows[n]), Grid(rows[n]));
    }
  }

  /** Scores of one direction lie between 1/2 and 19/20 each. */
  lemma {:induction false} SumForBounds(rows: seq<LiveRow>, d: Direction)
    requires AllProduced(rows) && !d.Hold?
    ensures var n := Count(Directions(rows), d) as real; 0.5 * n <= SumFor(rows, d) <= 0.95 * n
  {
    if rows != [] {
      var n := |rows| - 1;
      SumForBounds(rows[..n], d);
      assert Directions(rows)[..n] == Directions(rows[..n]);
      assert rows[n] in rows;
    }
  }

  lemma SquareBelowOne(u: real)
    requires 0.0 <= u < 1.0
    ensures u * u < 1.0
  {
    MulNonNegative(u, 1.0 - u);
    assert u * (1.0 - u) == u - u * u;
  }

  lemma AtLeastOne(u: real)
    requires u >= 0.0 && u * u >= 1.0
    ensures u >= 1.0
  {
    if u < 1.0 { SquareBelowOne(u); }
  }

  /** The integer gap n*q - s*s is positive, and dev is the deviation it stands for. */
  predicate IsIntegerGap(n: real, s: int, q: int, mean: real, dev: real) {
    && mean * (20.0 * n) == s as real
    && n * q as real - (s * s) as real >= 1.0
    && 400.0 * (n * ((n - 1.0) * (dev * dev))) == n * q as real - (s * s) as real
  }

  /** A positive integer gap keeps the deviation away from zero, so the ratio stays bounded. */
  lemma RatioBounded(n: real, s: int, q: int, mean: real, dev: real)
    requires 2.0 <= n <= 200.0 && 0 <= s <= 3800 && dev > 0.0
    requires IsIntegerGap(n, s, q, mean, dev)
    ensures 0.0 <= mean / dev <= 3800.0
  {
    var u := 20.0 * n * dev;
    assert u * u >= 1.0 by {
      assert u * u == 400.0 * (n * (n * (dev * dev)));
      assert n * (dev * dev) >= (n - 1.0) * (dev * dev) by { assert dev * dev >= 0.0; }
    }
    AtLeastOne(u);
    var r := mean / dev;
    assert r * dev == mean;
    assert r * u == s as real;
    SignOfProduct(r, u);
    assert r > 3800.0 ==> r * u > 3800.0;
  }

  lemma SharpeBounded(rows: seq<LiveRow>, stdev: seq<real> -> real)
    requires AllProduced(rows) && |rows| <= FETCH_LIMIT && IsStdev(stdev)
    ensures SharpeRatio(rows, stdev).Some? ==> 0.0 <= SharpeRatio(rows, stdev).value <= 3800.0
  {
    hide Sum, SumOfSquares, Variance, GridSum, GridSquares, IsGap, IsIntegerGap;
    var xs := Scores(rows);
    if |xs| > 1 && stdev(xs) > 0.0 {
      var dev, s, q := stdev(xs), GridSum(rows), GridSquares(rows);
      SumsOnGrid(rows);
      VarianceIsGap(xs);
      GapOnGrid(|rows|, Sum(xs), SumOfSquares(xs), Variance(xs), s, q, Mean(xs), dev);
      RatioBounded(|rows| as real, s, q, Mean(xs), dev);
    }
  }

  lemma GapOnGrid(n: int, sum: real, squares: real, variance: real, s: int, q: int, mean: real, dev: real)
    requires n >= 2 && dev > 0.0 && dev * dev == variance && mean == sum / n as real
    requires IsGap(n as real, variance, sum, squares)
    requires sum * 20.0 == s as real && squares * 400.0 == q as real
    ensures IsIntegerGap(n as real, s, q, mean, dev)
  {
    var t := (n as real - 1.0) * variance;
    SquarePositive(dev, variance);
    ProductPositive(n as real, n as real - 1.0, variance);
    SquareOnGrid(sum, s);
    assert n as real * (squares * 400.0) == n as real * q as real;
    assert (n * q) as real == n as real * q as real;
    var gap := n * q - s * s;
    assert gap as real == 400.0 * (n as real * t);
    assert gap > 0;
    assert mean * n as real == sum;
  }

  lemma SquarePositive(dev: real, variance: real)
    requires dev > 0.0 && dev * dev == variance
    ensures variance > 0.0
  {
    assert variance / dev == dev;
  }

  lemma ProductPositive(x: real, y: real, z: real)
    requires x > 0.0 && y > 0.0 && z > 0.0
    ensures x * (y * z) > 0.0
  {
    MulNonNegative(y, z);
    MulNonNegative(x, y * z);
  }

  lemma BoundedIsValid(m: Metrics)
    requires m.totalReturn.Some? ==> -190.0 <= m.totalReturn.value <= 190.0
    requires m.profitFactor.Some? ==> 0.0 <= m.profitFactor.value <= 380.0
    requires m.maxDrawdown.Some? ==> 0.0 < m.maxDrawdown.value <= 200.0
    requires m.sharpeRatio.Some? ==> 0.0 <= m.sharpeRatio.value <= 3800.0
    requires m.tradeCount.Some? ==> 0 <= m.tradeCount.value
    ensures Valid(m)
  {
  }

  lemma ProfitFactorBounded(buys: real, sells: real)
    requires 0.0 <= buys <= 190.0 && sells >= 0.5
    ensures 0.0 <= buys / sells <= 380.0
  {
    SignOfQuotient(buys, sells);
    var r := buys / sells;
    assert r * sells == buys;
    assert r > 380.0 ==> r * sells > 190.0;
  }

  /** Every value computed from produced rows is missing or far inside the validator's range. */
  lemma LiveMetricsAlwaysValid(rows: seq<LiveRow>, stdev: seq<real> -> real)
    requires AllProduced(rows) && |rows| <= FETCH_LIMIT && IsStdev(stdev)
    ensures var m := LiveEstimate(rows, stdev);
            && Valid(m)
            && (m.totalReturn.Some? ==> -190.0 <= m.totalReturn.value <= 190.0)
            && (m.profitFactor.Some? ==> 0.0 <= m.profitFactor.value <= 380.0)
            && (m.maxDrawdown.Some? ==> 0.0 < m.maxDrawdown.value <= 200.0)
            && (m.sharpeRatio.Some? ==> 0.0 <= m.sharpeRatio.value <= 3800.0)
            && (m.tradeCount.Some? ==> 0 <= m.tradeCount.value <= 200)
            && (|rows| >= 5 ==> (m.profitFactor.None? <==> Sell !in Directions(rows))
                                && (m.maxDrawdown.None? <==> Sell !in Directions(rows)))
  {
    hide SumFor, Count, SharpeRatio, DeepestDip;
    SumForBounds(rows, Buy);
    SumForBounds(rows, Sell);
    DrawdownBounds(Directions(rows));
    SharpeBounded(rows, stdev);
    var buys, sells := SumFor(rows, Buy), SumFor(rows, Sell);
    if sells > 0.0 {
      ProfitFactorBounded(buys, sells);
    }
    BoundedIsValid(LiveEstimate(rows, stdev));
  }

  // ---------- Storing them ----------

  /** The fetch works, one of the three attempts does, and so does the commit. */
  predicate Goes(fetchFails: bool, outage: nat -> bool, commitFails: bool) {
    !fetchFails && PM.SomeAttemptWorks(outage, PM.MAX_RETRIES) && !commitFails
  }

  /** The non-blocking update: every error, in the fetch, in the upsert or in the commit, is swallowed and leaves the
      table as it was; rows from the producers are never rejected. With fewer than five rows it still stamps the stored
      row as LIVE and moves its timestamp. */
  method TryUpsertLiveMetrics(store: PM.MetricsStore, k: PM.Key, rows: seq<LiveRow>, stdev: seq<real> -> real,
                              now: int, fetchFails: bool, outage: nat -> bool, commitFails: bool)
    requires |rows| <= FETCH_LIMIT && IsStdev(stdev)
    modifies store
    ensures Goes(fetchFails, outage, commitFails) ==>
              store.Lookup(k) == PM.Apply(old(store.Lookup(k)), PM.Write(LiveEstimate(rows, stdev), PM.Live, now))
    ensures AllProduced(rows) && Goes(fetchFails, outage, commitFails) ==>
              store.Lookup(k).Some? && store.Lookup(k).value.updatedAt >= now
    ensures !Goes(fetchFails, outage, commitFails) ==> store.Lookup(k) == old(store.Lookup(k))
    ensures forall k' :: k' != k ==> store.Lookup(k') == old(store.Lookup(k'))
    ensures |rows| < 5 && Goes(fetchFails, outage, commitFails)
            && old(store.Lookup(k).Some? && store.Lookup(k).value.updatedAt < now) ==>
              store.Lookup(k) == Some(PM.Row(old(store.Lookup(k)).value.metrics, PM.Live, now))
  {
    if fetchFails {
      return;
    }
    var committed := store.rows;
    var m := ComputeLiveMetrics(rows, stdev);
    var outcome := store.UpsertPairMetrics(k, PM.Write(m, PM.Live, now), outage);
    if outcome.Raised? || commitFails {
      // The session is closed without a commit.
      store.rows := committed;
      return;
    }
    if AllProduced(rows) {
      LiveMetricsAlwaysValid(rows, stdev);
    }
  }
}
