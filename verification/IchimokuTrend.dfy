/** Ichimoku: midpoint crosses outside the cloud. */
module IchimokuTrend {
  import opened Common
  import opened Columns
  import opened Strategies
  import opened Bars

  /** Halfway between the highest high and the lowest low of the last w bars. */
  function Midpoint(w: nat): Expr {
    Scaled(Two(Plus, Rolling(Highest, Col("high"), w), Rolling(Lowest, Col("low"), w)), 0.5)
  }

  function SpanA(tenkan: nat, kijun: nat): Expr { Scaled(Two(Plus, Midpoint(tenkan), Midpoint(kijun)), 0.5) }

  function Indicators(tenkan: nat, kijun: nat, senkou: nat, disp: nat, atr: seq<Column> -> Cell): seq<Stmt> {
    [Set("tenkan_sen", Midpoint(tenkan)),
     Set("kijun_sen", Midpoint(kijun)),
     Set("span_a", SpanA(tenkan, kijun)),
     Set("span_b", Midpoint(senkou)),
     Set("cloud_top", Two(RowMax, SpanA(tenkan, kijun), Midpoint(senkou))),
     Set("cloud_bottom", Two(RowMin, SpanA(tenkan, kijun), Midpoint(senkou))),
     Set("span_a_plot", Shift(SpanA(tenkan, kijun), disp)),
     Set("span_b_plot", Shift(Midpoint(senkou), disp)),
     Set("atr", Indicator(atr, ["high", "low", "close"])),
     Set("volume_mean", VolumeMean())]
  }

  function CrossUpExpr(): Expr {
    Two(And, Two(Gt, Col("tenkan_sen"), Col("kijun_sen")),
        Two(Le, Shift(Col("tenkan_sen"), 1), Shift(Col("kijun_sen"), 1)))
  }

  function CrossDownExpr(): Expr {
    Two(And, Two(Lt, Col("tenkan_sen"), Col("kijun_sen")),
        Two(Ge, Shift(Col("tenkan_sen"), 1), Shift(Col("kijun_sen"), 1)))
  }

  function Long(): Expr { Two(And, Two(And, Over("cloud_top"), CrossUpExpr()), VolumeOk()) }
  function Short(): Expr { Two(And, Two(And, Under("cloud_bottom"), CrossDownExpr()), VolumeOk()) }
  function ExitLong(): Expr { Two(And, Two(Or, Under("kijun_sen"), CrossDownExpr()), VolumeOk()) }
  function ExitShort(): Expr { Two(And, Two(Or, Over("kijun_sen"), CrossUpExpr()), VolumeOk()) }

  function Ichimoku(tenkan: nat, kijun: nat, senkou: nat, disp: nat, atr: seq<Column> -> Cell): Strategy {
    Strategy(Indicators(tenkan, kijun, senkou, disp, atr), Long(), Short(),
             "ichimoku_cloud_long", "ichimoku_cloud_short", ExitLong(), ExitShort())
  }

  lemma MidpointReads(w: nat)
    ensures Reads(Midpoint(w)) == {"high", "low"}
  {
    assert Reads(Rolling(Highest, Col("high"), w)) == {"high"} && Reads(Rolling(Lowest, Col("low"), w)) == {"low"};
  }

  lemma SpanReads(tenkan: nat, kijun: nat)
    ensures Reads(SpanA(tenkan, kijun)) == {"high", "low"}
  {
    MidpointReads(tenkan);
    MidpointReads(kijun);
    hide Midpoint;
    assert Reads(Two(Plus, Midpoint(tenkan), Midpoint(kijun))) == {"high", "low"};
  }

  lemma IndicatorsIndependent(tenkan: nat, kijun: nat, senkou: nat, disp: nat, atr: seq<Column> -> Cell)
    ensures Independent(Indicators(tenkan, kijun, senkou, disp, atr), OHLCV)
  {
    MidpointReads(tenkan);
    MidpointReads(kijun);
    MidpointReads(senkou);
    SpanReads(tenkan, kijun);
    assert Reads(Rolling(Total, Col("volume"), 20)) == {"volume"};
    assert Reads(Indicator(atr, ["high", "low", "close"])) <= OHLCV;
    hide Midpoint, SpanA;
  }

  lemma IndicatorsSingle(tenkan: nat, kijun: nat, senkou: nat, disp: nat, atr: seq<Column> -> Cell)
    ensures var p := Indicators(tenkan, kijun, senkou, disp, atr);
            SingleAssignment(p, OHLCV) && {"tenkan_sen", "kijun_sen", "cloud_top", "cloud_bottom"} <= WritesOf(p)
  {
    var p := Indicators(tenkan, kijun, senkou, disp, atr);
    IndicatorsIndependent(tenkan, kijun, senkou, disp, atr);
    IndependentIsSingle(p, OHLCV);
    hide WritesOf, SingleAssignment, Independent, Reads;
    assert p[0].name in WritesOf(p) && p[1].name in WritesOf(p) && p[4].name in WritesOf(p) && p[5].name in WritesOf(p);
  }

  // ---------- The bars' midpoints ----------

  function Mid(bars: Columns, w: nat, i: nat): Cell { At(Midpoint(w), bars, i) }

  lemma {:induction false} HighestOfWindow(bars: Columns, lo: nat, i: nat)
    requires lo <= i
    ensures var top := RollAt(Highest, Col("high"), bars, lo, i);
            && (top.Num? <==> forall j: nat | lo <= j <= i :: High(bars, j).Num?)
            && (top.Num? ==> exists j: nat :: lo <= j <= i && High(bars, j) == top)
            && (top.Num? ==> forall j: nat | lo <= j <= i :: High(bars, j).x <= top.x)
  {
    assert At(Col("high"), bars, i) == High(bars, i);
    if lo < i {
      HighestOfWindow(bars, lo, i - 1);
    }
  }

  lemma {:induction false} LowestOfWindow(bars: Columns, lo: nat, i: nat)
    requires lo <= i
    ensures var bottom := RollAt(Lowest, Col("low"), bars, lo, i);
            && (bottom.Num? <==> forall j: nat | lo <= j <= i :: Low(bars, j).Num?)
            && (bottom.Num? ==> exists j: nat :: lo <= j <= i && Low(bars, j) == bottom)
            && (bottom.Num? ==> forall j: nat | lo <= j <= i :: bottom.x <= Low(bars, j).x)
  {
    assert At(Col("low"), bars, i) == Low(bars, i);
    if lo < i {
      LowestOfWindow(bars, lo, i - 1);
    }
  }

  /** All of the last w bars are there. */
  predicate Covered(bars: Columns, w: nat, i: nat) {
    1 <= w <= i + 1 && forall j: nat | i + 1 - w <= j <= i :: High(bars, j).Num? && Low(bars, j).Num?
  }

  /** Bar j has the highest high and bar k the lowest low of the last w bars. */
  predicate Extremes(bars: Columns, w: nat, i: nat, j: nat, k: nat)
    requires Covered(bars, w, i)
  {
    && i + 1 - w <= j <= i && i + 1 - w <= k <= i
    && (forall l: nat | i + 1 - w <= l <= i :: High(bars, l).x <= High(bars, j).x)
    && (forall l: nat | i + 1 - w <= l <= i :: Low(bars, k).x <= Low(bars, l).x)
  }

  lemma MidpointUnfolds(bars: Columns, w: nat, i: nat)
    ensures Mid(bars, w, i)
            == if 1 <= w <= i + 1
               then ScaleCell(Combine(Plus, RollAt(Highest, Col("high"), bars, i + 1 - w, i),
                                      RollAt(Lowest, Col("low"), bars, i + 1 - w, i)), 0.5)
               else NaN
  {
    var high, low := Rolling(Highest, Col("high"), w), Rolling(Lowest, Col("low"), w);
    assert At(Two(Plus, high, low), bars, i) == Combine(Plus, At(high, bars, i), At(low, bars, i));
    hide RollAt;
  }

  /** The midpoint is there when the whole window is, and lies halfway between its highest high and lowest low. */
  lemma MidpointOfWindow(bars: Columns, w: nat, i: nat)
    ensures Mid(bars, w, i).Num? <==> Covered(bars, w, i)
    ensures Covered(bars, w, i) ==>
              exists j: nat, k: nat :: Extremes(bars, w, i, j, k)
                                       && Mid(bars, w, i) == Num((High(bars, j).x + Low(bars, k).x) * 0.5)
  {
    hide Mid, RollAt, High, Low;
    MidpointUnfolds(bars, w, i);
    if 1 <= w <= i + 1 {
      HighestOfWindow(bars, i + 1 - w, i);
      LowestOfWindow(bars, i + 1 - w, i);
      if Covered(bars, w, i) {
        var j: nat :| i + 1 - w <= j <= i && High(bars, j) == RollAt(Highest, Col("high"), bars, i + 1 - w, i);
        var k: nat :| i + 1 - w <= k <= i && Low(bars, k) == RollAt(Lowest, Col("low"), bars, i + 1 - w, i);
        assert Extremes(bars, w, i, j, k);
      }
    }
  }

  function CloudEdge(bars: Columns, tenkan: nat, kijun: nat, i: nat): Cell { At(SpanA(tenkan, kijun), bars, i) }

  predicate CrossUp(bars: Columns, tenkan: nat, kijun: nat, i: nat) {
    && i >= 1
    && Mid(bars, tenkan, i).Num? && Mid(bars, kijun, i).Num? && Mid(bars, tenkan, i).x > Mid(bars, kijun, i).x
    && Mid(bars, tenkan, i - 1).Num? && Mid(bars, kijun, i - 1).Num?
    && Mid(bars, tenkan, i - 1).x <= Mid(bars, kijun, i - 1).x
  }

  predicate CrossDown(bars: Columns, tenkan: nat, kijun: nat, i: nat) {
    && i >= 1
    && Mid(bars, tenkan, i).Num? && Mid(bars, kijun, i).Num? && Mid(bars, tenkan, i).x < Mid(bars, kijun, i).x
    && Mid(bars, tenkan, i - 1).Num? && Mid(bars, kijun, i - 1).Num?
    && Mid(bars, tenkan, i - 1).x >= Mid(bars, kijun, i - 1).x
  }

  /** Missing numbers compare as false. */
  predicate Exceeds(a: Cell, b: Cell) { a.Num? && b.Num? && a.x > b.x }

  predicate LongEntry(bars: Columns, tenkan: nat, kijun: nat, senkou: nat, i: nat) {
    && Traded(bars, i) && CrossUp(bars, tenkan, kijun, i)
    && Exceeds(Close(bars, i), CloudEdge(bars, tenkan, kijun, i))
    && (Mid(bars, senkou, i).Num? ==> Exceeds(Close(bars, i), Mid(bars, senkou, i)))
  }

  predicate ShortEntry(bars: Columns, tenkan: nat, kijun: nat, senkou: nat, i: nat) {
    && Traded(bars, i) && CrossDown(bars, tenkan, kijun, i)
    && Exceeds(CloudEdge(bars, tenkan, kijun, i), Close(bars, i))
    && (Mid(bars, senkou, i).Num? ==> Exceeds(Mid(bars, senkou, i), Close(bars, i)))
  }

  predicate LongExit(bars: Columns, tenkan: nat, kijun: nat, i: nat) {
    Traded(bars, i) && (Exceeds(Mid(bars, kijun, i), Close(bars, i)) || CrossDown(bars, tenkan, kijun, i))
  }

  predicate ShortExit(bars: Columns, tenkan: nat, kijun: nat, i: nat) {
    Traded(bars, i) && (Exceeds(Close(bars, i), Mid(bars, kijun, i)) || CrossUp(bars, tenkan, kijun, i))
  }

  lemma EdgeIsBetween(bars: Columns, tenkan: nat, kijun: nat, i: nat)
    requires Mid(bars, tenkan, i).Num? && Mid(bars, kijun, i).Num?
    ensures CloudEdge(bars, tenkan, kijun, i) == Num((Mid(bars, tenkan, i).x + Mid(bars, kijun, i).x) * 0.5)
  {
    hide Midpoint;
    assert At(Two(Plus, Midpoint(tenkan), Midpoint(kijun)), bars, i)
        == Num(Mid(bars, tenkan, i).x + Mid(bars, kijun, i).x);
  }

  /** An entry is never an exit of its own side, and is always an exit of the other. */
  lemma EntryExcludesItsExit(bars: Columns, tenkan: nat, kijun: nat, senkou: nat, i: nat)
    ensures LongEntry(bars, tenkan, kijun, senkou, i) ==>
              !LongExit(bars, tenkan, kijun, i) && ShortExit(bars, tenkan, kijun, i)
    ensures ShortEntry(bars, tenkan, kijun, senkou, i) ==>
              !ShortExit(bars, tenkan, kijun, i) && LongExit(bars, tenkan, kijun, i)
  {
    if Mid(bars, tenkan, i).Num? && Mid(bars, kijun, i).Num? {
      EdgeIsBetween(bars, tenkan, kijun, i);
    }
    hide Mid, CloudEdge;
  }

  // ---------- The strategy's direction ----------

  ghost predicate Finished(bars: Columns, c: Columns, tenkan: nat, kijun: nat, senkou: nat, i: nat) {
    && Close(c, i) == Close(bars, i) && CellAt(c, "volume", i) == CellAt(bars, "volume", i)
    && CellAt(c, "tenkan_sen", i) == Mid(bars, tenkan, i) && CellAt(c, "kijun_sen", i) == Mid(bars, kijun, i)
    && CellAt(c, "cloud_top", i) == Combine(RowMax, CloudEdge(bars, tenkan, kijun, i), Mid(bars, senkou, i))
    && CellAt(c, "cloud_bottom", i) == Combine(RowMin, CloudEdge(bars, tenkan, kijun, i), Mid(bars, senkou, i))
  }

  lemma IndicatorsFinish(bars: Columns, rows: nat, tenkan: nat, kijun: nat, senkou: nat, disp: nat,
                         atr: seq<Column> -> Cell, i: nat)
    requires i < rows
    ensures Finished(bars, Exec(bars, rows, Indicators(tenkan, kijun, senkou, disp, atr)), tenkan, kijun, senkou, i)
  {
    var p := Indicators(tenkan, kijun, senkou, disp, atr);
    IndicatorsIndependent(tenkan, kijun, senkou, disp, atr);
    assert "close" in OHLCV && "volume" in OHLCV && |p| == 10;
    hide Exec, Independent, CellAt, Midpoint, SpanA;
    BaseCellKept(bars, rows, p, OHLCV, "close", i);
    BaseCellKept(bars, rows, p, OHLCV, "volume", i);
    IndependentColumn(bars, rows, p, OHLCV, 0, i);
    IndependentColumn(bars, rows, p, OHLCV, 1, i);
    IndependentColumn(bars, rows, p, OHLCV, 4, i);
    IndependentColumn(bars, rows, p, OHLCV, 5, i);
  }

  lemma Before(c: Columns, name: string, i: nat)
    ensures At(Shift(Col(name), 1), c, i) == if i == 0 then NaN else CellAt(c, name, i - 1)
  {
    if i > 0 { assert At(Shift(Col(name), 1), c, i) == At(Col(name), c, i - 1); }
  }

  lemma ComparisonHolds(l: Expr, r: Expr, c: Columns, i: nat)
    ensures Holds(Two(Gt, l, r), c, i) <==> Exceeds(At(l, c, i), At(r, c, i))
    ensures Holds(Two(Lt, l, r), c, i) <==> Exceeds(At(r, c, i), At(l, c, i))
    ensures Holds(Two(Le, l, r), c, i) <==> At(l, c, i).Num? && At(r, c, i).Num? && At(l, c, i).x <= At(r, c, i).x
    ensures Holds(Two(Ge, l, r), c, i) <==> At(l, c, i).Num? && At(r, c, i).Num? && At(l, c, i).x >= At(r, c, i).x
  {
  }

  lemma CrossColumns(bars: Columns, c: Columns, tenkan: nat, kijun: nat, senkou: nat, i: nat)
    requires Finished(bars, c, tenkan, kijun, senkou, i)
    requires i >= 1 ==> Finished(bars, c, tenkan, kijun, senkou, i - 1)
    ensures Holds(CrossUpExpr(), c, i) <==> CrossUp(bars, tenkan, kijun, i)
    ensures Holds(CrossDownExpr(), c, i) <==> CrossDown(bars, tenkan, kijun, i)
  {
    var t, k := Col("tenkan_sen"), Col("kijun_sen");
    assert At(t, c, i) == CellAt(c, "tenkan_sen", i) && At(k, c, i) == CellAt(c, "kijun_sen", i);
    hide At, Holds, CellAt, Mid;
    Before(c, "tenkan_sen", i);
    Before(c, "kijun_sen", i);
    ComparisonHolds(t, k, c, i);
    ComparisonHolds(Shift(t, 1), Shift(k, 1), c, i);
    HoldsConnectives(Two(Gt, t, k), Two(Le, Shift(t, 1), Shift(k, 1)), c, i);
    HoldsConnectives(Two(Lt, t, k), Two(Ge, Shift(t, 1), Shift(k, 1)), c, i);
  }

  lemma Compared(c: Columns, name: string, i: nat)
    ensures Holds(Over(name), c, i) <==> Exceeds(Close(c, i), CellAt(c, name, i))
    ensures Holds(Under(name), c, i) <==> Exceeds(CellAt(c, name, i), Close(c, i))
  {
    assert At(Col("close"), c, i) == Close(c, i) && At(Col(name), c, i) == CellAt(c, name, i);
    hide CellAt;
  }

  lemma LongMeans(bars: Columns, c: Columns, tenkan: nat, kijun: nat, senkou: nat, i: nat)
    requires Finished(bars, c, tenkan, kijun, senkou, i)
    requires Holds(CrossUpExpr(), c, i) <==> CrossUp(bars, tenkan, kijun, i)
    ensures Holds(Long(), c, i) <==> LongEntry(bars, tenkan, kijun, senkou, i)
  {
    VolumeColumn(bars, c, i);
    Compared(c, "cloud_top", i);
    if Mid(bars, tenkan, i).Num? && Mid(bars, kijun, i).Num? { EdgeIsBetween(bars, tenkan, kijun, i); }
    hide Holds, Over, VolumeOk, CrossUpExpr, Traded, CellAt, Mid, CloudEdge;
    HoldsConnectives(Two(And, Over("cloud_top"), CrossUpExpr()), VolumeOk(), c, i);
    HoldsConnectives(Over("cloud_top"), CrossUpExpr(), c, i);
  }

  lemma ShortMeans(bars: Columns, c: Columns, tenkan: nat, kijun: nat, senkou: nat, i: nat)
    requires Finished(bars, c, tenkan, kijun, senkou, i)
    requires Holds(CrossDownExpr(), c, i) <==> CrossDown(bars, tenkan, kijun, i)
    ensures Holds(Short(), c, i) <==> ShortEntry(bars, tenkan, kijun, senkou, i)
  {
    VolumeColumn(bars, c, i);
    Compared(c, "cloud_bottom", i);
    if Mid(bars, tenkan, i).Num? && Mid(bars, kijun, i).Num? { EdgeIsBetween(bars, tenkan, kijun, i); }
    hide Holds, Under, VolumeOk, CrossDownExpr, Traded, CellAt, Mid, CloudEdge;
    HoldsConnectives(Two(And, Under("cloud_bottom"), CrossDownExpr()), VolumeOk(), c, i);
    HoldsConnectives(Under("cloud_bottom"), CrossDownExpr(), c, i);
  }

  lemma ExitsMean(bars: Columns, c: Columns, tenkan: nat, kijun: nat, senkou: nat, i: nat)
    requires Finished(bars, c, tenkan, kijun, senkou, i)
    requires Holds(CrossUpExpr(), c, i) <==> CrossUp(bars, tenkan, kijun, i)
    requires Holds(CrossDownExpr(), c, i) <==> CrossDown(bars, tenkan, kijun, i)
    ensures Holds(ExitLong(), c, i) <==> LongExit(bars, tenkan, kijun, i)
    ensures Holds(ExitShort(), c, i) <==> ShortExit(bars, tenkan, kijun, i)
  {
    VolumeColumn(bars, c, i);
    Compared(c, "kijun_sen", i);
    hide Holds, Over, Under, VolumeOk, CrossUpExpr, CrossDownExpr, CrossUp, CrossDown, Traded, CellAt, Mid, Exceeds;
    HoldsConnectives(Two(Or, Under("kijun_sen"), CrossDownExpr()), VolumeOk(), c, i);
    HoldsConnectives(Under("kijun_sen"), CrossDownExpr(), c, i);
    HoldsConnectives(Two(Or, Over("kijun_sen"), CrossUpExpr()), VolumeOk(), c, i);
    HoldsConnectives(Over("kijun_sen"), CrossUpExpr(), c, i);
  }

  /** What Ichimoku says of a bar. Neither the cloud nor the displacement has a say: an entry only ever repeats what
      the exits decide. */
  lemma IchimokuDirection(bars: Columns, rows: nat, tenkan: nat, kijun: nat, senkou: nat, disp: nat,
                          atr: seq<Column> -> Cell, i: nat)
    requires i < rows
    ensures DirectionAt(Exec(bars, rows, Chain(Ichimoku(tenkan, kijun, senkou, disp, atr))), i)
            == if LongExit(bars, tenkan, kijun, i) then Sell
               else if ShortExit(bars, tenkan, kijun, i) then Buy
               else Hold
  {
    hide Exec, Holds, Indicators, DirectionAt, Chain, Finished, Long, Short, ExitLong, ExitShort, LongEntry, ShortEntry,
         LongExit, ShortExit, Ichimoku;
    FlagsMean(bars, rows, tenkan, kijun, senkou, disp, atr, i);
    IndicatorsFinish(bars, rows, tenkan, kijun, senkou, disp, atr, i);
    if i >= 1 { IndicatorsFinish(bars, rows, tenkan, kijun, senkou, disp, atr, i - 1); }
    ConditionsMean(bars, Exec(bars, rows, Indicators(tenkan, kijun, senkou, disp, atr)), tenkan, kijun, senkou, i);
    EntryExcludesItsExit(bars, tenkan, kijun, senkou, i);
  }

  lemma ConditionsMean(bars: Columns, c: Columns, tenkan: nat, kijun: nat, senkou: nat, i: nat)
    requires Finished(bars, c, tenkan, kijun, senkou, i)
    requires i >= 1 ==> Finished(bars, c, tenkan, kijun, senkou, i - 1)
    ensures Holds(Long(), c, i) <==> LongEntry(bars, tenkan, kijun, senkou, i)
    ensures Holds(Short(), c, i) <==> ShortEntry(bars, tenkan, kijun, senkou, i)
    ensures Holds(ExitLong(), c, i) <==> LongExit(bars, tenkan, kijun, i)
    ensures Holds(ExitShort(), c, i) <==> ShortExit(bars, tenkan, kijun, i)
  {
    hide *;
    CrossColumns(bars, c, tenkan, kijun, senkou, i);
    LongMeans(bars, c, tenkan, kijun, senkou, i);
    ShortMeans(bars, c, tenkan, kijun, senkou, i);
    ExitsMean(bars, c, tenkan, kijun, senkou, i);
  }

  lemma FlagsMean(bars: Columns, rows: nat, tenkan: nat, kijun: nat, senkou: nat, disp: nat, atr: seq<Column> -> Cell,
                  i: nat)
    requires i < rows
    ensures var c := Exec(bars, rows, Indicators(tenkan, kijun, senkou, disp, atr));
            DirectionAt(Exec(bars, rows, Chain(Ichimoku(tenkan, kijun, senkou, disp, atr))), i)
            == ChainDirection(Holds(Long(), c, i), Holds(Short(), c, i),
                              Holds(ExitLong(), c, i), Holds(ExitShort(), c, i))
  {
    ConditionsClean();
    hide Exec, Holds, Reads, Indicators, DirectionAt, Chain, Long, Short, ExitLong, ExitShort, ChainDirection;
    ChainFlags(bars, rows, Ichimoku(tenkan, kijun, senkou, disp, atr), i);
  }

  lemma ConditionReads()
    ensures Reads(Long()) + Reads(Short())
            == {"close", "volume", "cloud_top", "cloud_bottom", "tenkan_sen", "kijun_sen"}
    ensures Reads(ExitLong()) + Reads(ExitShort()) == {"close", "volume", "tenkan_sen", "kijun_sen"}
  {
    CrossReads();
    assert Reads(VolumeOk()) == {"volume"};
    assert Reads(Over("cloud_top")) == {"close", "cloud_top"};
    assert Reads(Under("cloud_bottom")) == {"close", "cloud_bottom"};
    assert Reads(Over("kijun_sen")) == {"close", "kijun_sen"} && Reads(Under("kijun_sen")) == {"close", "kijun_sen"};
    hide CrossUpExpr, CrossDownExpr, Over, Under, VolumeOk;
    assert Reads(Long()) == Reads(Long().l) + {"volume"} && Reads(Short()) == Reads(Short().l) + {"volume"};
    assert Reads(ExitLong()) == Reads(ExitLong().l) + {"volume"};
    assert Reads(ExitShort()) == Reads(ExitShort().l) + {"volume"};
  }

  lemma ConditionsClean()
    ensures (Reads(Long()) + Reads(Short())) !! ENTRY_COLUMNS
    ensures (Reads(ExitLong()) + Reads(ExitShort())) !! ENTRY_COLUMNS + EXIT_COLUMNS
  {
    ConditionReads();
    hide Long, Short, ExitLong, ExitShort, Reads;
  }

  lemma CrossReads()
    ensures Reads(CrossUpExpr()) == {"tenkan_sen", "kijun_sen"} && Reads(CrossDownExpr()) == {"tenkan_sen", "kijun_sen"}
  {
    var t, k := Col("tenkan_sen"), Col("kijun_sen");
    assert Reads(Shift(t, 1)) == {"tenkan_sen"} && Reads(Shift(k, 1)) == {"kijun_sen"};
    assert Reads(Two(Le, Shift(t, 1), Shift(k, 1))) == {"tenkan_sen", "kijun_sen"};
    assert Reads(Two(Ge, Shift(t, 1), Shift(k, 1))) == {"tenkan_sen", "kijun_sen"};
    assert Reads(Two(Gt, t, k)) == {"tenkan_sen", "kijun_sen"} && Reads(Two(Lt, t, k)) == {"tenkan_sen", "kijun_sen"};
  }

  /** Ichimoku is safe on a shared frame, and sets all four signal columns itself. */
  lemma IchimokuScoped(tenkan: nat, kijun: nat, senkou: nat, disp: nat, atr: seq<Column> -> Cell)
    ensures WellScoped(Chain(Ichimoku(tenkan, kijun, senkou, disp, atr)), OHLCV)
    ensures SIGNAL_COLUMNS <= WritesOf(Chain(Ichimoku(tenkan, kijun, senkou, disp, atr)))
  {
    ConditionReads();
    IndicatorsSingle(tenkan, kijun, senkou, disp, atr);
    hide Reads, WritesOf, SingleAssignment, WellScoped, Indicators, Long, Short, ExitLong, ExitShort;
    ChainScoped(Ichimoku(tenkan, kijun, senkou, disp, atr), OHLCV);
  }
}
