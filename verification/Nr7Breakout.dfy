/** NR7: breakouts of the newest bar whose range is the narrowest of the last n. */
module Nr7Breakout {
  import opened Common
  import opened Columns
  import opened Strategies
  import opened Bars

  function NarrowOnly(name: string): Expr { Where(Col(name), Two(Eq, Col("is_nr"), ONE)) }

  function Indicators(n: nat, atr: seq<Column> -> Cell): seq<Stmt> {
    [Set("range", Two(Minus, Col("high"), Col("low"))),
     Set("nr_lowest_range", Rolling(Lowest, Col("range"), n)),
     Set("is_nr", AsInt(Two(Eq, Col("range"), Col("nr_lowest_range")))),
     Set("nr_high", Ffill(NarrowOnly("high"))),
     Set("nr_low", Ffill(NarrowOnly("low"))),
     Set("nr_high_trigger", Shift(Col("nr_high"), 1)),
     Set("nr_low_trigger", Shift(Col("nr_low"), 1)),
     Set("atr", Indicator(atr, ["high", "low", "close"])),
     Set("volume_mean", VolumeMean())]
  }

  function Up(): Expr { Two(And, Over("nr_high_trigger"), VolumeOk()) }
  function Down(): Expr { Two(And, Under("nr_low_trigger"), VolumeOk()) }

  function Nr7(n: nat, atr: seq<Column> -> Cell): Strategy {
    Strategy(Indicators(n, atr), Up(), Down(), "nr7_breakout_up", "nr7_breakout_down", Down(), Up())
  }

  lemma RangeDefined()
    ensures Defines(Set("range", Two(Minus, Col("high"), Col("low"))), OHLCV)
  {
  }

  lemma LowestDefined(n: nat)
    ensures Defines(Set("nr_lowest_range", Rolling(Lowest, Col("range"), n)), OHLCV + {"range"})
  {
    assert Reads(Rolling(Lowest, Col("range"), n)) == {"range"};
  }

  lemma NarrowDefined()
    ensures Defines(Set("is_nr", AsInt(Two(Eq, Col("range"), Col("nr_lowest_range")))),
                    OHLCV + {"range", "nr_lowest_range"})
  {
    assert Reads(Two(Eq, Col("range"), Col("nr_lowest_range"))) == {"range", "nr_lowest_range"};
  }

  lemma NarrowOnlyReads(name: string)
    ensures Reads(NarrowOnly(name)) == {name, "is_nr"}
  {
    assert Reads(Two(Eq, Col("is_nr"), ONE)) == {"is_nr"};
  }

  const NARROWNESS: set<string> := {"range", "nr_lowest_range", "is_nr"}
  const LEVELS: set<string> := {"nr_high", "nr_low"}
  const TRIGGERS: set<string> := {"nr_high_trigger", "nr_low_trigger"}

  lemma LevelsDefined()
    ensures Defines(Set("nr_high", Ffill(NarrowOnly("high"))), OHLCV + NARROWNESS)
    ensures Defines(Set("nr_low", Ffill(NarrowOnly("low"))), OHLCV + NARROWNESS + {"nr_high"})
  {
    NarrowOnlyReads("high");
    NarrowOnlyReads("low");
  }

  lemma TriggersDefined()
    ensures Defines(Set("nr_high_trigger", Shift(Col("nr_high"), 1)), OHLCV + NARROWNESS + LEVELS)
    ensures Defines(Set("nr_low_trigger", Shift(Col("nr_low"), 1)), OHLCV + NARROWNESS + LEVELS + {"nr_high_trigger"})
  {
  }

  lemma AtrDefined(atr: seq<Column> -> Cell)
    ensures Defines(Set("atr", Indicator(atr, ["high", "low", "close"])), OHLCV + NARROWNESS + LEVELS + TRIGGERS)
  {
  }

  lemma VolumeMeanDefined()
    ensures Defines(Set("volume_mean", VolumeMean()),
                    OHLCV + NARROWNESS + LEVELS + TRIGGERS + {"atr"})
  {
    assert Reads(Rolling(Total, Col("volume"), 20)) == {"volume"};
  }

  lemma NarrownessSingle(n: nat, atr: seq<Column> -> Cell)
    ensures var p := Indicators(n, atr); SingleAssignment(p[..3], OHLCV) && WritesOf(p[..3]) == NARROWNESS
  {
    var p := Indicators(n, atr);
    NothingSingle(OHLCV);
    RangeDefined();
    LowestDefined(n);
    NarrowDefined();
    assert p[..0] == [];
    hide SingleAssignment, WritesOf, Defines;
    GrownPrefix(p, 0, OHLCV, {});
    GrownPrefix(p, 1, OHLCV, {"range"});
    GrownPrefix(p, 2, OHLCV, {"range", "nr_lowest_range"});
  }

  lemma LevelsSingle(n: nat, atr: seq<Column> -> Cell)
    ensures var p := Indicators(n, atr);
            SingleAssignment(p[..7], OHLCV) && WritesOf(p[..7]) == NARROWNESS + LEVELS + TRIGGERS
  {
    var p := Indicators(n, atr);
    NarrownessSingle(n, atr);
    LevelsDefined();
    TriggersDefined();
    hide SingleAssignment, WritesOf, Defines;
    GrownPrefix(p, 3, OHLCV, NARROWNESS);
    GrownPrefix(p, 4, OHLCV, NARROWNESS + {"nr_high"});
    GrownPrefix(p, 5, OHLCV, NARROWNESS + LEVELS);
    GrownPrefix(p, 6, OHLCV, NARROWNESS + LEVELS + {"nr_high_trigger"});
  }

  lemma IndicatorsSingle(n: nat, atr: seq<Column> -> Cell)
    ensures SingleAssignment(Indicators(n, atr), OHLCV)
    ensures WritesOf(Indicators(n, atr)) == NARROWNESS + LEVELS + TRIGGERS + {"atr", "volume_mean"}
  {
    var p := Indicators(n, atr);
    LevelsSingle(n, atr);
    AtrDefined(atr);
    VolumeMeanDefined();
    hide SingleAssignment, WritesOf, Defines;
    GrownPrefix(p, 7, OHLCV, NARROWNESS + LEVELS + TRIGGERS);
    GrownPrefix(p, 8, OHLCV, NARROWNESS + LEVELS + TRIGGERS + {"atr"});
    assert p[..9] == p;
  }

  // ---------- Narrow bars ----------

  /** High minus low, where both are there. */
  function Range(bars: Columns, i: nat): Cell {
    if High(bars, i).Num? && Low(bars, i).Num? then Num(High(bars, i).x - Low(bars, i).x) else NaN
  }

  /** Bar i has the narrowest range of the last n bars, itself included. */
  predicate Narrow(bars: Columns, n: nat, i: nat) {
    && 1 <= n <= i + 1 && Range(bars, i).Num?
    && (forall j: nat | i + 1 - n <= j <= i :: Range(bars, j).Num? && Range(bars, i).x <= Range(bars, j).x)
  }

  /** Bar k is the newest narrow bar before bar i. */
  predicate Newest(bars: Columns, n: nat, k: nat, i: nat) {
    k < i && Narrow(bars, n, k) && forall j: nat | k < j < i :: !Narrow(bars, n, j)
  }

  /** The close is above the high of the newest narrow bar. */
  ghost predicate BreaksUp(bars: Columns, n: nat, i: nat) {
    Close(bars, i).Num? && exists k: nat :: Newest(bars, n, k, i) && Close(bars, i).x > High(bars, k).x
  }

  ghost predicate BreaksDown(bars: Columns, n: nat, i: nat) {
    Close(bars, i).Num? && exists k: nat :: Newest(bars, n, k, i) && Close(bars, i).x < Low(bars, k).x
  }

  lemma NeverBothBreaks(bars: Columns, n: nat, i: nat)
    requires Ordered(bars)
    ensures !(BreaksUp(bars, n, i) && BreaksDown(bars, n, i))
  {
    if BreaksUp(bars, n, i) {
      var k: nat :| Newest(bars, n, k, i) && Close(bars, i).x > High(bars, k).x;
      assert Range(bars, k).Num?;
      forall l: nat | Newest(bars, n, l, i) ensures l == k {
        assert l < k ==> !Narrow(bars, n, k);
        assert k < l ==> !Narrow(bars, n, l);
      }
    }
  }

  // ---------- What the indicator columns hold ----------

  /** Row i of the finished frame: the bar is still there, and every column equals its right-hand side. */
  ghost predicate FinishedAt(bars: Columns, c: Columns, n: nat, i: nat) {
    && High(c, i) == High(bars, i) && Low(c, i) == Low(bars, i) && Close(c, i) == Close(bars, i)
    && CellAt(c, "volume", i) == CellAt(bars, "volume", i)
    && CellAt(c, "range", i) == At(Two(Minus, Col("high"), Col("low")), c, i)
    && CellAt(c, "nr_lowest_range", i) == At(Rolling(Lowest, Col("range"), n), c, i)
    && CellAt(c, "is_nr", i) == At(AsInt(Two(Eq, Col("range"), Col("nr_lowest_range"))), c, i)
    && CellAt(c, "nr_high", i) == At(Ffill(NarrowOnly("high")), c, i)
    && CellAt(c, "nr_low", i) == At(Ffill(NarrowOnly("low")), c, i)
    && CellAt(c, "nr_high_trigger", i) == At(Shift(Col("nr_high"), 1), c, i)
    && CellAt(c, "nr_low_trigger", i) == At(Shift(Col("nr_low"), 1), c, i)
  }

  ghost predicate Finished(bars: Columns, c: Columns, rows: nat, n: nat) {
    forall i: nat | i < rows :: FinishedAt(bars, c, n, i)
  }

  lemma IndicatorsFinishAt(bars: Columns, rows: nat, n: nat, atr: seq<Column> -> Cell, i: nat)
    requires i < rows
    ensures FinishedAt(bars, Exec(bars, rows, Indicators(n, atr)), n, i)
  {
    var p := Indicators(n, atr);
    IndicatorsSingle(n, atr);
    hide Exec, At, SingleAssignment, WritesOf, CellAt, NarrowOnly;
    OthersSame(bars, rows, p, "high", i);
    OthersSame(bars, rows, p, "low", i);
    OthersSame(bars, rows, p, "close", i);
    OthersSame(bars, rows, p, "volume", i);
    DefiningEquation(bars, rows, p, OHLCV, 0, i);
    DefiningEquation(bars, rows, p, OHLCV, 1, i);
    DefiningEquation(bars, rows, p, OHLCV, 2, i);
    DefiningEquation(bars, rows, p, OHLCV, 3, i);
    DefiningEquation(bars, rows, p, OHLCV, 4, i);
    DefiningEquation(bars, rows, p, OHLCV, 5, i);
    DefiningEquation(bars, rows, p, OHLCV, 6, i);
  }

  lemma IndicatorsFinish(bars: Columns, rows: nat, n: nat, atr: seq<Column> -> Cell)
    ensures Finished(bars, Exec(bars, rows, Indicators(n, atr)), rows, n)
  {
    hide FinishedAt, Exec, Indicators;
    forall i: nat | i < rows ensures FinishedAt(bars, Exec(bars, rows, Indicators(n, atr)), n, i) {
      IndicatorsFinishAt(bars, rows, n, atr, i);
    }
  }

  lemma RangeColumn(bars: Columns, c: Columns, rows: nat, n: nat, i: nat)
    requires Finished(bars, c, rows, n) && i < rows
    ensures CellAt(c, "range", i) == Range(bars, i)
  {
    assert FinishedAt(bars, c, n, i);
    assert At(Col("high"), c, i) == High(c, i) && At(Col("low"), c, i) == Low(c, i);
  }

  lemma {:induction false} AtMostLowest(c: Columns, y: real, lo: nat, i: nat)
    requires lo <= i
    ensures var least := RollAt(Lowest, Col("range"), c, lo, i);
            least.Num? && y <= least.x
            <==> forall j: nat | lo <= j <= i :: CellAt(c, "range", j).Num? && y <= CellAt(c, "range", j).x
  {
    assert At(Col("range"), c, i) == CellAt(c, "range", i);
    if lo < i {
      AtMostLowest(c, y, lo, i - 1);
    }
  }

  lemma NarrowColumn(bars: Columns, c: Columns, rows: nat, n: nat, i: nat)
    requires Finished(bars, c, rows, n) && i < rows
    ensures At(Two(Eq, Col("is_nr"), ONE), c, i) == Flag(true) <==> Narrow(bars, n, i)
  {
    assert FinishedAt(bars, c, n, i);
    forall j: nat | j <= i ensures CellAt(c, "range", j) == Range(bars, j) { RangeColumn(bars, c, rows, n, j); }
    var range, least := CellAt(c, "range", i), CellAt(c, "nr_lowest_range", i);
    assert At(Col("range"), c, i) == range && At(Col("nr_lowest_range"), c, i) == least;
    assert At(Col("is_nr"), c, i) == CellAt(c, "is_nr", i) && At(ONE, c, i) == Num(1.0);
    var e := Two(Eq, Col("range"), Col("nr_lowest_range"));
    assert At(e, c, i) == Combine(Eq, range, least);
    assert At(AsInt(e), c, i) == if At(e, c, i) == Flag(true) then Num(1.0) else Num(0.0);
    assert CellAt(c, "is_nr", i) == if range.Num? && least.Num? && range.x == least.x then Num(1.0) else Num(0.0);
    if 1 <= n <= i + 1 && range.Num? {
      assert least == RollAt(Lowest, Col("range"), c, i + 1 - n, i);
      AtMostLowest(c, range.x, i + 1 - n, i);
      if least.Num? { AtMostLowest(c, least.x, i + 1 - n, i); }
    }
  }

  /** The newest narrow bar at or before bar i. */
  function NewestAt(bars: Columns, n: nat, i: nat): (k: Option<nat>)
    ensures k.Some? ==> k.value <= i && Narrow(bars, n, k.value)
                        && forall j: nat | k.value < j <= i :: !Narrow(bars, n, j)
    ensures k.None? ==> forall j: nat | j <= i :: !Narrow(bars, n, j)
  {
    if Narrow(bars, n, i) then Some(i) else if i == 0 then None else NewestAt(bars, n, i - 1)
  }

  lemma {:induction false} FilledColumn(bars: Columns, c: Columns, rows: nat, n: nat, name: string, i: nat)
    requires Finished(bars, c, rows, n) && i < rows && name in {"high", "low"}
    ensures FillAt(NarrowOnly(name), c, i)
            == match NewestAt(bars, n, i) case None => NaN case Some(k) => CellAt(bars, name, k)
  {
    assert FinishedAt(bars, c, n, i);
    NarrowColumn(bars, c, rows, n, i);
    hide Narrow;
    assert At(NarrowOnly(name), c, i)
        == if At(Two(Eq, Col("is_nr"), ONE), c, i) == Flag(true) then At(Col(name), c, i) else NaN;
    assert At(Col(name), c, i) == CellAt(bars, name, i) by { assert CellAt(c, name, i) == CellAt(bars, name, i); }
    NarrowIsPriced(bars, n, i);
    if i > 0 {
      FilledColumn(bars, c, rows, n, name, i - 1);
    }
  }

  lemma NarrowIsPriced(bars: Columns, n: nat, i: nat)
    ensures Narrow(bars, n, i) ==> High(bars, i).Num? && Low(bars, i).Num?
  {
    assert Range(bars, i).Num? ==> High(bars, i).Num? && Low(bars, i).Num?;
  }

  /** The newest narrow bar before bar i is the one the fill finds. */
  lemma NewestIsFound(bars: Columns, n: nat, i: nat)
    requires i > 0
    ensures forall k: nat :: Newest(bars, n, k, i) <==> NewestAt(bars, n, i - 1) == Some(k)
    ensures forall k: nat | Newest(bars, n, k, i) :: High(bars, k).Num? && Low(bars, k).Num?
  {
    forall k: nat | Newest(bars, n, k, i) ensures High(bars, k).Num? && Low(bars, k).Num? {
      NarrowIsPriced(bars, n, k);
    }
    hide Narrow, High, Low;
  }

  lemma ShiftedColumn(c: Columns, name: string, i: nat)
    ensures At(Shift(Col(name), 1), c, i) == if i == 0 then NaN else CellAt(c, name, i - 1)
  {
    if i > 0 { assert At(Shift(Col(name), 1), c, i) == At(Col(name), c, i - 1); }
  }

  lemma TriggerColumns(bars: Columns, c: Columns, rows: nat, n: nat, i: nat)
    requires Finished(bars, c, rows, n) && i < rows
    ensures CellAt(c, "nr_high_trigger", i).Num? <==> exists k: nat :: Newest(bars, n, k, i)
    ensures CellAt(c, "nr_low_trigger", i).Num? <==> exists k: nat :: Newest(bars, n, k, i)
    ensures forall k: nat | Newest(bars, n, k, i) ::
              CellAt(c, "nr_high_trigger", i) == High(bars, k) && CellAt(c, "nr_low_trigger", i) == Low(bars, k)
  {
    assert FinishedAt(bars, c, n, i);
    ShiftedColumn(c, "nr_high", i);
    ShiftedColumn(c, "nr_low", i);
    if i > 0 {
      assert FinishedAt(bars, c, n, i - 1);
      FillOfFinished(bars, c, n, i - 1);
      FilledColumn(bars, c, rows, n, "high", i - 1);
      FilledColumn(bars, c, rows, n, "low", i - 1);
      NewestIsFound(bars, n, i);
      hide At, FillAt, Finished, FinishedAt, Newest, NewestAt, CellAt;
      var newest := NewestAt(bars, n, i - 1);
      if newest.Some? { assert Newest(bars, n, newest.value, i); }
    }
  }

  lemma FillOfFinished(bars: Columns, c: Columns, n: nat, i: nat)
    requires FinishedAt(bars, c, n, i)
    ensures CellAt(c, "nr_high", i) == FillAt(NarrowOnly("high"), c, i)
    ensures CellAt(c, "nr_low", i) == FillAt(NarrowOnly("low"), c, i)
  {
    hide FillAt, NarrowOnly;
  }

  lemma ConditionsMean(bars: Columns, c: Columns, rows: nat, n: nat, i: nat)
    requires Finished(bars, c, rows, n) && i < rows
    ensures Holds(Over("nr_high_trigger"), c, i) <==> BreaksUp(bars, n, i)
    ensures Holds(Under("nr_low_trigger"), c, i) <==> BreaksDown(bars, n, i)
    ensures Holds(VolumeOk(), c, i) <==> Traded(bars, i)
  {
    assert FinishedAt(bars, c, n, i);
    TriggerColumns(bars, c, rows, n, i);
    VolumeColumn(bars, c, i);
    assert At(Col("close"), c, i) == Close(bars, i);
    assert At(Col("nr_high_trigger"), c, i) == CellAt(c, "nr_high_trigger", i);
    assert At(Col("nr_low_trigger"), c, i) == CellAt(c, "nr_low_trigger", i);
    hide Newest, CellAt, Traded, VolumeOk;
  }

  /** What NR7 says of a bar that traded: buy above the newest narrow bar before it, sell below it, hold between. */
  lemma Nr7Direction(bars: Columns, rows: nat, n: nat, atr: seq<Column> -> Cell, i: nat)
    requires Ordered(bars) && i < rows
    ensures DirectionAt(Exec(bars, rows, Chain(Nr7(n, atr))), i)
            == if Traded(bars, i) && BreaksUp(bars, n, i) then Buy
               else if Traded(bars, i) && BreaksDown(bars, n, i) then Sell
               else Hold
  {
    var s := Nr7(n, atr);
    var c := Exec(bars, rows, s.indicators);
    ConditionReads();
    IndicatorsFinish(bars, rows, n, atr);
    NeverBothBreaks(bars, n, i);
    hide Exec, Holds, BreaksUp, BreaksDown, Reads, Indicators, Ordered, DirectionAt, Chain, Traded, Finished, Over,
         Under, VolumeOk;
    ConditionsMean(bars, c, rows, n, i);
    ChainFlags(bars, rows, s, i);
    HoldsConnectives(Over("nr_high_trigger"), VolumeOk(), c, i);
    HoldsConnectives(Under("nr_low_trigger"), VolumeOk(), c, i);
  }

  lemma ConditionReads()
    ensures Reads(Up()) == {"close", "volume", "nr_high_trigger"}
    ensures Reads(Down()) == {"close", "volume", "nr_low_trigger"}
  {
    assert Reads(VolumeOk()) == {"volume"};
    assert Reads(Over("nr_high_trigger")) == {"close", "nr_high_trigger"};
    assert Reads(Under("nr_low_trigger")) == {"close", "nr_low_trigger"};
  }

  /** NR7 is safe on a shared frame, and sets all four signal columns itself. */
  lemma Nr7Scoped(n: nat, atr: seq<Column> -> Cell)
    ensures WellScoped(Chain(Nr7(n, atr)), OHLCV)
    ensures SIGNAL_COLUMNS <= WritesOf(Chain(Nr7(n, atr)))
  {
    ConditionReads();
    IndicatorsSingle(n, atr);
    hide Reads, WritesOf, SingleAssignment, WellScoped, Indicators;
    ChainScoped(Nr7(n, atr), OHLCV);
  }
}
