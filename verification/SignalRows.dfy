/** From strategy rows to signals: the direction rule, the confidence score, and the edge-triggered extraction
    over a whole history. */
module SignalRows {
  import opened Arith
  import opened Common

  /** One row of a strategy's output. Missing or NaN indicator values are None. */
  datatype BarRow = BarRow(
    at: int, close: real, volume: real,
    enterLong: bool, exitLong: bool, enterShort: bool, exitShort: bool,
    atr: Option<real>, volumeMean: Option<real>)

  datatype Signal = Signal(at: int, direction: Direction, confidence: real, entryPrice: real)

  /** Entries win over exits; a long entry wins over everything. */
  function DirectionOf(enterLong: bool, exitLong: bool, enterShort: bool, exitShort: bool): Direction {
    if enterLong then Buy
    else if enterShort || exitLong then Sell
    else if exitShort then Buy
    else Hold
  }

  /** Buy: a long entry, or the exit of a short one with no sell beside it. Sell: a short entry or a long exit, without
      a long entry. */
  function RowDirection(r: BarRow): (d: Direction)
    ensures d.Buy? <==> r.enterLong || (r.exitShort && !r.enterShort && !r.exitLong)
    ensures d.Sell? <==> (r.enterShort || r.exitLong) && !r.enterLong
  {
    DirectionOf(r.enterLong, r.exitLong, r.enterShort, r.exitShort)
  }

  // ---------- Confidence ----------

  /** The division by the close in the volatility term is the one thing the rule demands, of rows with a direction. */
  predicate Priced(r: BarRow) { !RowDirection(r).Hold? && r.atr.Some? ==> r.close != 0.0 }

  function VolumePoints(r: BarRow): int {
    if r.volumeMean.None? || r.volumeMean.value <= 0.0 then 0
    else if r.volume / r.volumeMean.value > 1.5 then 4
    else if r.volume / r.volumeMean.value > 1.0 then 2 else 0
  }

  function VolatilityPoints(r: BarRow): int
    requires r.atr.Some? ==> r.close != 0.0
  {
    if r.atr.None? then 0
    else if r.atr.value / r.close < 0.02 then 2
    else if r.atr.value / r.close < 0.04 then 1 else 0
  }

  /** Confidence in twentieths. */
  function Twentieths(r: BarRow): int
    requires Priced(r)
  {
    if RowDirection(r).Hold? then 0
    else 10 + VolumePoints(r) + (if r.enterLong || r.enterShort then 2 else 0) + VolatilityPoints(r)
  }

  lemma QuotientAgainst(x: real, y: real, bound: real)
    requires y > 0.0
    ensures (x / y > bound <==> x > bound * y) && (x / y < bound <==> x < bound * y)
  {
    var q := x / y;
    assert q * y == x;
    MulNonNegative(if q > bound then q - bound else bound - q, y);
  }

  /** x is less than this share of y; with a negative y the comparison turns around. */
  predicate IsUnder(x: real, share: real, y: real) {
    if y > 0.0 then x < share * y else x > share * y
  }

  lemma ShareUnder(x: real, share: real, y: real)
    requires y != 0.0
    ensures x / y < share <==> IsUnder(x, share, y)
  {
    if y > 0.0 {
      QuotientAgainst(x, y, share);
    } else {
      QuotientAgainst(-x, -y, share);
      assert (-x) / (-y) == x / y by {
        assert (x / y) * y == x;
        Cancel((-x) / (-y), x / y, -y);
      }
    }
  }

  /** What earns confidence, in twentieths, over the base of 10: 4 for a volume above one and a half times its mean, or
      2 for one above the mean; 2 for an entry; 2 for a true range under 2% of the close, or 1 for one under 4%. */
  lemma ConfidenceTerms(r: BarRow)
    requires Priced(r) && !RowDirection(r).Hold?
    ensures var volume := if r.volumeMean.None? || r.volumeMean.value <= 0.0 then 0
                          else if r.volume > 1.5 * r.volumeMean.value then 4
                          else if r.volume > r.volumeMean.value then 2 else 0;
            var volatility := if r.atr.None? then 0
                              else if IsUnder(r.atr.value, 0.02, r.close) then 2
                              else if IsUnder(r.atr.value, 0.04, r.close) then 1 else 0;
            Twentieths(r) == 10 + volume + (if r.enterLong || r.enterShort then 2 else 0) + volatility
  {
    if r.volumeMean.Some? && r.volumeMean.value > 0.0 {
      QuotientAgainst(r.volume, r.volumeMean.value, 1.5);
      QuotientAgainst(r.volume, r.volumeMean.value, 1.0);
    }
    if r.atr.Some? {
      ShareUnder(r.atr.value, 0.02, r.close);
      ShareUnder(r.atr.value, 0.04, r.close);
    }
  }

  /** A producer writes 0 for hold and otherwise between 10 and 19 twentieths. */
  predicate ProducedConfidence(d: Direction, twentieths: int) {
    if d.Hold? then twentieths == 0 else 10 <= twentieths <= 19
  }

  /** The score built up by successive additions. It is a whole number of twentieths, 0 exactly for hold and
      otherwise between 1/2 and 9/10, so that the cap at 0.95 never bites. */
  method Confidence(r: BarRow) returns (score: real)
    requires Priced(r)
    ensures score == Twentieths(r) as real / 20.0
    ensures ProducedConfidence(RowDirection(r), Twentieths(r)) && Twentieths(r) <= 18
  {
    if RowDirection(r).Hold? {
      return 0.0;
    }
    score := 0.50;
    if r.volumeMean.Some? && r.volumeMean.value > 0.0 {
      var ratio := r.volume / r.volumeMean.value;
      if ratio > 1.5 {
        score := score + 0.20;
      } else if ratio > 1.0 {
        score := score + 0.10;
      }
    }
    if r.enterLong || r.enterShort {
      score := score + 0.10;
    }
    if r.atr.Some? {
      var pct := r.atr.value / r.close;
      if pct < 0.02 {
        score := score + 0.10;
      } else if pct < 0.04 {
        score := score + 0.05;
      }
    }
    score := if score < 0.95 then score else 0.95;
  }

  // ---------- Edge-triggered extraction ----------

  function SignalOf(r: BarRow): Signal
    requires Priced(r)
  {
    Signal(r.at, RowDirection(r), Twentieths(r) as real / 20.0, Round2(r.close))
  }

  predicate AllPriced(rows: seq<BarRow>) { forall r :: r in rows ==> Priced(r) }

  /** One signal for every row that has a direction. */
  function EverySignal(rows: seq<BarRow>): seq<Signal>
    requires AllPriced(rows)
  {
    if rows == [] then []
    else
      var n := |rows| - 1;
      EverySignal(rows[..n]) + if RowDirection(rows[n]).Hold? then [] else [SignalOf(rows[n])]
  }

  /** Row i starts a new run: it has a direction, and the row before it does not have the same one. */
  predicate IsEdge(rows: seq<BarRow>, i: nat)
    requires i < |rows|
  {
    !RowDirection(rows[i]).Hold? && (i == 0 || RowDirection(rows[i - 1]) != RowDirection(rows[i]))
  }

  /** One signal for every row that starts a run of equal directions. */
  function EdgeSignals(rows: seq<BarRow>): seq<Signal>
    requires AllPriced(rows)
  {
    if rows == [] then []
    else
      var n := |rows| - 1;
      EdgeSignals(rows[..n]) + if IsEdge(rows, n) then [SignalOf(rows[n])] else []
  }

  /** The signal carries the row's time and direction, its confidence, and its close rounded to two decimals. */
  predicate Becomes(r: BarRow, s: Signal)
    requires Priced(r)
  {
    && s.at == r.at && s.direction == RowDirection(r) && s.confidence * 20.0 == Twentieths(r) as real
    && IsRounded(s.entryPrice, r.close, 100.0)
  }

  lemma SignalBecomes(r: BarRow)
    requires Priced(r)
    ensures Becomes(r, SignalOf(r))
  {
    RoundIsNearest(r.close);
    hide Twentieths, Round2, DirectionOf, IsRounded;
  }

  lemma {:induction false} EdgeRows(rows: seq<BarRow>) returns (ks: seq<nat>)
    requires AllPriced(rows)
    ensures Picks(ks, |rows|) && |ks| == |EdgeSignals(rows)|
    ensures forall i: nat | i < |rows| :: i in ks <==> IsEdge(rows, i)
    ensures forall j | 0 <= j < |ks| :: Becomes(rows[ks[j]], EdgeSignals(rows)[j])
  {
    hide RowDirection, Becomes, SignalOf, Priced;
    ks := [];
    if rows != [] {
      var n := |rows| - 1;
      ks := EdgeRows(rows[..n]);
      PickNext(ks, n);
      forall i: nat | i < n ensures rows[..n][i] == rows[i] && IsEdge(rows[..n], i) == IsEdge(rows, i) {}
      if IsEdge(rows, n) {
        SignalBecomes(rows[n]);
        ks := ks + [n];
      }
    }
  }

  /** The row loop, with the remembered direction that is reset by a row without one. `ks` are the rows that become
      signals: exactly those that have a direction which the row before does not have. */
  method ExtractAllSignals(rows: seq<BarRow>) returns (signals: seq<Signal>, ghost ks: seq<nat>)
    requires AllPriced(rows)
    ensures signals == EdgeSignals(rows)
    ensures Picks(ks, |rows|) && |ks| == |signals|
    ensures forall i: nat | i < |rows| ::
              i in ks <==> !RowDirection(rows[i]).Hold?
                           && (i == 0 || RowDirection(rows[i - 1]) != RowDirection(rows[i]))
    ensures forall j | 0 <= j < |ks| :: Becomes(rows[ks[j]], signals[j])
  {
    signals := [];
    var prevDirection: Option<Direction> := None;
    for i := 0 to |rows|
      invariant signals == EdgeSignals(rows[..i])
      invariant prevDirection == if i == 0 || RowDirection(rows[i - 1]).Hold? then None
                                 else Some(RowDirection(rows[i - 1]))
    {
      var row := rows[i];
      assert rows[..i + 1][..i] == rows[..i];
      assert IsEdge(rows[..i + 1], i) == IsEdge(rows, i);
      var direction := RowDirection(row);
      if direction.Hold? {
        prevDirection := None;
      } else if prevDirection != Some(direction) {
        prevDirection := Some(direction);
        var confidence := Confidence(row);
        signals := signals + [Signal(row.at, direction, confidence, Round2(row.close))];
      }
    }
    assert rows[..|rows|] == rows;
    ks := EdgeRows(rows);
  }

  /** A row that repeats the direction of the row before adds nothing, as does a row without one; any other row adds
      its signal, also when its direction is that of the last signal and a row without direction lies between. */
  lemma OneMoreRow(rows: seq<BarRow>, r: BarRow)
    requires AllPriced(rows + [r])
    ensures AllPriced(rows)
    ensures var before := EdgeSignals(rows);
            if RowDirection(r).Hold? || (rows != [] && RowDirection(rows[|rows| - 1]) == RowDirection(r))
            then EdgeSignals(rows + [r]) == before
            else
              var after := EdgeSignals(rows + [r]);
              |after| == |before| + 1 && after[..|before|] == before && Becomes(r, after[|before|])
  {
    var all := rows + [r];
    assert all[..|rows|] == rows && all[|rows|] == r && r in all;
    assert forall x :: x in rows ==> x in all;
    SignalBecomes(r);
    hide Twentieths, Round2, DirectionOf, Becomes;
  }

  predicate RowsOrdered(rows: seq<BarRow>) {
    forall i, j | 0 <= i < j < |rows| :: rows[i].at <= rows[j].at
  }

  predicate SignalsOrdered(s: seq<Signal>) {
    forall i, j | 0 <= i < j < |s| :: s[i].at <= s[j].at
  }

  /** Both extractions of a time-ordered history are time-ordered. */
  lemma {:induction false} ExtractionOrdered(rows: seq<BarRow>)
    requires AllPriced(rows) && RowsOrdered(rows)
    ensures SignalsOrdered(EdgeSignals(rows)) && SignalsOrdered(EverySignal(rows))
    ensures forall s :: s in EdgeSignals(rows) || s in EverySignal(rows) ==> s.at <= rows[|rows| - 1].at
  {
    if rows != [] {
      var n := |rows| - 1;
      ExtractionOrdered(rows[..n]);
      assert n > 0 ==> rows[..n][n - 1].at <= rows[n].at;
    }
  }
}
