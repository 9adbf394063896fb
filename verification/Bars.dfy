/** The bars themselves, and the conditions on close and volume that the strategies share. */
module Bars {
  import opened Columns
  import opened Statistics
  import opened Strategies

  function High(bars: Columns, i: nat): Cell { CellAt(bars, "high", i) }
  function Low(bars: Columns, i: nat): Cell { CellAt(bars, "low", i) }
  function Close(bars: Columns, i: nat): Cell { CellAt(bars, "close", i) }

  /** No bar has its low above its high. */
  ghost predicate Ordered(bars: Columns) {
    forall i: nat | High(bars, i).Num? && Low(bars, i).Num? :: Low(bars, i).x <= High(bars, i).x
  }

  predicate Traded(bars: Columns, i: nat) { CellAt(bars, "volume", i).Num? && CellAt(bars, "volume", i).x > 0.0 }

  function VolumeOk(): Expr { Two(Gt, Col("volume"), ZERO) }

  function Over(name: string): Expr { Two(Gt, Col("close"), Col(name)) }
  function Under(name: string): Expr { Two(Lt, Col("close"), Col(name)) }

  /** volume.rolling(20).mean() */
  function VolumeMean(): Expr { Scaled(Rolling(Total, Col("volume"), 20), 0.05) }

  predicate AllVolumes(c: Columns, lo: nat, i: nat) { forall j: nat | lo <= j <= i :: CellAt(c, "volume", j).Num? }

  function Volumes(c: Columns, lo: nat, i: nat): seq<real>
    requires lo <= i + 1 && AllVolumes(c, lo, i)
  {
    seq(i + 1 - lo, k requires 0 <= k < i + 1 - lo => CellAt(c, "volume", lo + k).x)
  }

  lemma {:induction false} TotalOfWindow(c: Columns, lo: nat, i: nat)
    requires lo <= i
    ensures RollAt(Total, Col("volume"), c, lo, i)
            == if AllVolumes(c, lo, i) then Num(Sum(Volumes(c, lo, i))) else NaN
  {
    hide CellAt, Sum;
    if lo == i {
      if CellAt(c, "volume", i).Num? { SumOfOne(c, i); }
    } else {
      TotalOfWindow(c, lo, i - 1);
      if AllVolumes(c, lo, i) {
        assert Volumes(c, lo, i) == Volumes(c, lo, i - 1) + [CellAt(c, "volume", i).x];
        SumAppend(Volumes(c, lo, i - 1), CellAt(c, "volume", i).x);
      }
    }
  }

  lemma SumOfOne(c: Columns, i: nat)
    requires CellAt(c, "volume", i).Num?
    ensures Sum(Volumes(c, i, i)) == CellAt(c, "volume", i).x
  {
    assert Volumes(c, i, i) == [] + [CellAt(c, "volume", i).x];
    SumAppend([], CellAt(c, "volume", i).x);
  }

  /** The mean that the confidence compares the volume with is that of the last twenty rows, and missing before. */
  lemma VolumeMeanOfTwenty(c: Columns, i: nat)
    ensures At(VolumeMean(), c, i).Num? <==> i >= 19 && AllVolumes(c, i - 19, i)
    ensures i >= 19 && AllVolumes(c, i - 19, i) ==> At(VolumeMean(), c, i).x * 20.0 == Sum(Volumes(c, i - 19, i))
  {
    if i >= 19 { TotalOfWindow(c, i - 19, i); }
    assert At(Rolling(Total, Col("volume"), 20), c, i)
        == if i < 19 then NaN else RollAt(Total, Col("volume"), c, i - 19, i);
    hide Sum;
  }

  lemma VolumeColumn(bars: Columns, c: Columns, i: nat)
    requires CellAt(c, "volume", i) == CellAt(bars, "volume", i)
    ensures Holds(VolumeOk(), c, i) <==> Traded(bars, i)
  {
    assert At(Col("volume"), c, i) == CellAt(c, "volume", i) && At(ZERO, c, i) == Num(0.0);
    hide CellAt;
  }

  lemma HoldsConnectives(a: Expr, b: Expr, c: Columns, i: nat)
    ensures Holds(Two(And, a, b), c, i) <==> Holds(a, c, i) && Holds(b, c, i)
    ensures Holds(Two(Or, a, b), c, i) <==> Holds(a, c, i) || Holds(b, c, i)
  {
  }
}
