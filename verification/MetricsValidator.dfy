/** The range checks run on five performance metrics before they are stored. */
module MetricsValidator {
  import opened Common

  const FLOAT_MIN := -10000.0
  const FLOAT_MAX := 10000.0

  datatype Metrics = Metrics(
    totalReturn: Option<real>,
    profitFactor: Option<real>,
    maxDrawdown: Option<real>,
    sharpeRatio: Option<real>,
    tradeCount: Option<int>)

  const NO_METRICS := Metrics(None, None, None, None, None)

  /** The fields in the order in which they are checked. */
  datatype Field = TotalReturn | ProfitFactor | MaxDrawdown | SharpeRatio | TradeCount

  datatype Verdict = Pass | Reject(field: Field)

  predicate FloatOk(value: Option<real>) {
    value.None? || FLOAT_MIN <= value.value <= FLOAT_MAX
  }

  predicate FieldOk(m: Metrics, f: Field) {
    match f
    case TotalReturn => FloatOk(m.totalReturn)
    case ProfitFactor => FloatOk(m.profitFactor)
    case MaxDrawdown => FloatOk(m.maxDrawdown)
    case SharpeRatio => FloatOk(m.sharpeRatio)
    case TradeCount => m.tradeCount.None? || 0 <= m.tradeCount.value
  }

  function Rank(f: Field): nat {
    match f
    case TotalReturn => 0
    case ProfitFactor => 1
    case MaxDrawdown => 2
    case SharpeRatio => 3
    case TradeCount => 4
  }

  function ValidateFloatField(field: Field, value: Option<real>): Verdict {
    match value
    case None => Pass
    case Some(x) => if x < FLOAT_MIN || x > FLOAT_MAX then Reject(field) else Pass
  }

  function ValidateTradeCount(value: Option<int>): Verdict {
    match value
    case None => Pass
    case Some(n) => if n < 0 then Reject(TradeCount) else Pass
  }

  /** Passes exactly when every field is in range; otherwise names the first field that is not. */
  function ValidateMetrics(m: Metrics): (v: Verdict)
    ensures v.Reject? ==> !FieldOk(m, v.field) && forall f :: Rank(f) < Rank(v.field) ==> FieldOk(m, f)
    ensures v.Pass? <==> forall f :: FieldOk(m, f)
  {
    if ValidateFloatField(TotalReturn, m.totalReturn).Reject? then Reject(TotalReturn)
    else if ValidateFloatField(ProfitFactor, m.profitFactor).Reject? then Reject(ProfitFactor)
    else if ValidateFloatField(MaxDrawdown, m.maxDrawdown).Reject? then Reject(MaxDrawdown)
    else if ValidateFloatField(SharpeRatio, m.sharpeRatio).Reject? then Reject(SharpeRatio)
    else if ValidateTradeCount(m.tradeCount).Reject? then Reject(TradeCount)
    else Pass
  }

  predicate Valid(m: Metrics) { ValidateMetrics(m).Pass? }

  predicate WithinTenThousand(value: Option<real>) { value.Some? ==> -10000.0 <= value.value <= 10000.0 }

  lemma ValidIffInRange(m: Metrics)
    ensures Valid(m) <==>
              && WithinTenThousand(m.totalReturn) && WithinTenThousand(m.profitFactor)
              && WithinTenThousand(m.maxDrawdown) && WithinTenThousand(m.sharpeRatio)
              && (m.tradeCount.Some? ==> m.tradeCount.value >= 0)
  {
    var v := ValidateMetrics(m);
    assert v.Pass? ==> FieldOk(m, TotalReturn) && FieldOk(m, ProfitFactor) && FieldOk(m, MaxDrawdown)
                       && FieldOk(m, SharpeRatio) && FieldOk(m, TradeCount);
  }
}
