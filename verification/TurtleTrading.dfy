/** Turtle trading: breakouts of the highest high and lowest low of the bars before. */
module TurtleTrading {
  import opened Common
  import opened SignalRows
  import opened Columns
  import opened Strategies
  import opened Bars

  /** The channel of the w bars before a row. */
  function Channel(roll: Roll, name: string, w: nat): Expr { Shift(Rolling(roll, Col(name), w), 1) }

  function Indicators(fast: nat, slow: nat, ex: nat, atr: seq<Column> -> Cell): seq<Stmt> {
    [Set("donchian_high_fast", Channel(Highest, "high", fast)),
     Set("donchian_low_fast", Channel(Lowest, "low", fast)),
     Set("donchian_high_slow", Channel(Highest, "high", slow)),
     Set("donchian_low_slow", Channel(Lowest, "low", slow)),
     Set("donchian_exit_high", Channel(Highest, "high", ex)),
     Set("donchian_exit_low", Channel(Lowest, "low", ex)),
     Set("atr", Indicator(atr, ["high", "low", "close"])),
     Set("volume_mean", VolumeMean())]
  }

  function Turtle(fast: nat, slow: nat, ex: nat, atr: seq<Column> -> Cell): Strategy {
    Strategy(
      Indicators(fast, slow, ex, atr),
      Two(And, Two(Or, Over("donchian_high_fast"), Over("donchian_high_slow")), VolumeOk()),
      Two(And, Two(Or, Under("donchian_low_fast"), Under("donchian_low_slow")), VolumeOk()),
      "donchian_breakout_long", "donchian_breakout_short",
      Two(And, Under("donchian_exit_low"), VolumeOk()),
      Two(And, Over("donchian_exit_high"), VolumeOk()))
  }

  lemma ChannelReads(roll: Roll, name: string, w: nat)
    ensures Reads(Channel(roll, name, w)) == {name}
  {
    assert Reads(Rolling(roll, Col(name), w)) == Reads(Col(name));
  }

  lemma IndicatorsIndependent(fast: nat, slow: nat, ex: nat, atr: seq<Column> -> Cell)
    ensures Independent(Indicators(fast, slow, ex, atr), OHLCV)
  {
    ChannelReads(Highest, "high", fast);
    ChannelReads(Lowest, "low", fast);
    ChannelReads(Highest, "high", slow);
    ChannelReads(Lowest, "low", slow);
    ChannelReads(Highest, "high", ex);
    ChannelReads(Lowest, "low", ex);
    assert Reads(Rolling(Total, Col("volume"), 20)) == {"volume"};
    assert Reads(Indicator(atr, ["high", "low", "close"])) <= OHLCV;
    hide Channel;
  }

  lemma IndicatorsSingle(fast: nat, slow: nat, ex: nat, atr: seq<Column> -> Cell)
    ensures var p := Indicators(fast, slow, ex, atr);
            && SingleAssignment(p, OHLCV)
            && {"donchian_high_fast", "donchian_low_fast", "donchian_high_slow", "donchian_low_slow",
                "donchian_exit_high", "donchian_exit_low"} <= WritesOf(p)
  {
    var p := Indicators(fast, slow, ex, atr);
    IndicatorsIndependent(fast, slow, ex, atr);
    IndependentIsSingle(p, OHLCV);
    hide WritesOf, SingleAssignment, Independent, Reads;
    assert p[0].name in WritesOf(p) && p[1].name in WritesOf(p) && p[2].name in WritesOf(p);
    assert p[3].name in WritesOf(p) && p[4].name in WritesOf(p) && p[5].name in WritesOf(p);
  }

  // ---------- What the channels mean on the bars ----------

  /** The close is above every high of the w bars before, all of which are there. */
  predicate Above(bars: Columns, w: nat, i: nat) {
    && 1 <= w <= i && Close(bars, i).Num?
    && (forall j: nat | i - w <= j < i :: High(bars, j).Num? && Close(bars, i).x > High(bars, j).x)
  }

  /** The close is below every low of the w bars before. */
  predicate Below(bars: Columns, w: nat, i: nat) {
    && 1 <= w <= i && Close(bars, i).Num?
    && (forall j: nat | i - w <= j < i :: Low(bars, j).Num? && Close(bars, i).x < Low(bars, j).x)
  }

  lemma {:induction false} OverHighest(bars: Columns, y: real, lo: nat, i: nat)
    requires lo <= i
    ensures var top := RollAt(Highest, Col("high"), bars, lo, i);
            top.Num? && y > top.x <==> forall j: nat | lo <= j <= i :: High(bars, j).Num? && y > High(bars, j).x
  {
    assert At(Col("high"), bars, i) == High(bars, i);
    if lo < i {
      OverHighest(bars, y, lo, i - 1);
    }
  }

  lemma {:induction false} UnderLowest(bars: Columns, y: real, lo: nat, i: nat)
    requires lo <= i
    ensures var bottom := RollAt(Lowest, Col("low"), bars, lo, i);
            bottom.Num? && y < bottom.x <==> forall j: nat | lo <= j <= i :: Low(bars, j).Num? && y < Low(bars, j).x
  {
    assert At(Col("low"), bars, i) == Low(bars, i);
    if lo < i {
      UnderLowest(bars, y, lo, i - 1);
    }
  }

  lemma ChannelIsAbove(bars: Columns, w: nat, i: nat)
    ensures var top := At(Channel(Highest, "high", w), bars, i);
            Close(bars, i).Num? && top.Num? && Close(bars, i).x > top.x <==> Above(bars, w, i)
  {
    if 1 <= w <= i && Close(bars, i).Num? {
      assert At(Channel(Highest, "high", w), bars, i) == At(Rolling(Highest, Col("high"), w), bars, i - 1);
      OverHighest(bars, Close(bars, i).x, i - w, i - 1);
    }
  }

  lemma ChannelIsBelow(bars: Columns, w: nat, i: nat)
    ensures var bottom := At(Channel(Lowest, "low", w), bars, i);
            Close(bars, i).Num? && bottom.Num? && Close(bars, i).x < bottom.x <==> Below(bars, w, i)
  {
    if 1 <= w <= i && Close(bars, i).Num? {
      assert At(Channel(Lowest, "low", w), bars, i) == At(Rolling(Lowest, Col("low"), w), bars, i - 1);
      UnderLowest(bars, Close(bars, i).x, i - w, i - 1);
    }
  }

  /** No bar closes above one channel and below another, whatever their lengths. */
  lemma NeverBothBreaks(bars: Columns, w1: nat, w2: nat, i: nat)
    requires Ordered(bars)
    ensures !(Above(bars, w1, i) && Below(bars, w2, i))
  {
    if Above(bars, w1, i) {
      assert High(bars, i - 1).Num? && Close(bars, i).x > High(bars, i - 1).x;
      assert Low(bars, i - 1).Num? ==> Close(bars, i).x > Low(bars, i - 1).x;
    }
  }

  /** With fast <= slow, breaking either channel is breaking the fast one. */
  lemma FastAloneDecides(bars: Columns, fast: nat, slow: nat, i: nat)
    requires 1 <= fast <= slow
    ensures Above(bars, fast, i) || Above(bars, slow, i) <==> Above(bars, fast, i)
    ensures Below(bars, fast, i) || Below(bars, slow, i) <==> Below(bars, fast, i)
  {
  }

  // ---------- The strategy's direction ----------

  lemma OverColumn(bars: Columns, c: Columns, w: nat, name: string, i: nat)
    requires Close(c, i) == Close(bars, i)
    requires CellAt(c, name, i) == At(Channel(Highest, "high", w), bars, i)
    ensures Holds(Over(name), c, i) <==> Above(bars, w, i)
  {
    assert At(Col("close"), c, i) == Close(bars, i) && At(Col(name), c, i) == CellAt(c, name, i);
    ChannelIsAbove(bars, w, i);
  }

  lemma UnderColumn(bars: Columns, c: Columns, w: nat, name: string, i: nat)
    requires Close(c, i) == Close(bars, i)
    requires CellAt(c, name, i) == At(Channel(Lowest, "low", w), bars, i)
    ensures Holds(Under(name), c, i) <==> Below(bars, w, i)
  {
    assert At(Col("close"), c, i) == Close(bars, i) && At(Col(name), c, i) == CellAt(c, name, i);
    ChannelIsBelow(bars, w, i);
  }

  lemma IndicatorsMean(bars: Columns, rows: nat, fast: nat, slow: nat, ex: nat, atr: seq<Column> -> Cell, i: nat)
    requires i < rows
    ensures var c := Exec(bars, rows, Indicators(fast, slow, ex, atr));
            && (Holds(Over("donchian_high_fast"), c, i) <==> Above(bars, fast, i))
            && (Holds(Under("donchian_low_fast"), c, i) <==> Below(bars, fast, i))
            && (Holds(Over("donchian_high_slow"), c, i) <==> Above(bars, slow, i))
            && (Holds(Under("donchian_low_slow"), c, i) <==> Below(bars, slow, i))
            && (Holds(Over("donchian_exit_high"), c, i) <==> Above(bars, ex, i))
            && (Holds(Under("donchian_exit_low"), c, i) <==> Below(bars, ex, i))
            && (Holds(VolumeOk(), c, i) <==> Traded(bars, i))
  {
    var p := Indicators(fast, slow, ex, atr);
    var c := Exec(bars, rows, p);
    IndicatorsIndependent(fast, slow, ex, atr);
    assert "close" in OHLCV && "volume" in OHLCV;
    BaseCellKept(bars, rows, p, OHLCV, "close", i);
    BaseCellKept(bars, rows, p, OHLCV, "volume", i);
    assert |p| == 8;
    IndependentColumn(bars, rows, p, OHLCV, 0, i);
    IndependentColumn(bars, rows, p, OHLCV, 1, i);
    IndependentColumn(bars, rows, p, OHLCV, 2, i);
    IndependentColumn(bars, rows, p, OHLCV, 3, i);
    IndependentColumn(bars, rows, p, OHLCV, 4, i);
    IndependentColumn(bars, rows, p, OHLCV, 5, i);
    VolumeColumn(bars, c, i);
    hide Exec, Holds, Above, Below, CellAt, Channel, Independent;
    OverColumn(bars, c, fast, "donchian_high_fast", i);
    UnderColumn(bars, c, fast, "donchian_low_fast", i);
    OverColumn(bars, c, slow, "donchian_high_slow", i);
    UnderColumn(bars, c, slow, "donchian_low_slow", i);
    OverColumn(bars, c, ex, "donchian_exit_high", i);
    UnderColumn(bars, c, ex, "donchian_exit_low", i);
  }

  lemma ConditionReads(fast: nat, slow: nat, ex: nat, atr: seq<Column> -> Cell)
    ensures var s := Turtle(fast, slow, ex, atr);
            && Reads(s.long) + Reads(s.short) == {"close", "volume", "donchian_high_fast", "donchian_high_slow",
                                                  "donchian_low_fast", "donchian_low_slow"}
            && Reads(s.exitLong) + Reads(s.exitShort) == {"close", "volume", "donchian_exit_low", "donchian_exit_high"}
  {
    assert Reads(VolumeOk()) == {"volume"};
    assert Reads(Over("donchian_high_fast")) == {"close", "donchian_high_fast"};
    assert Reads(Over("donchian_high_slow")) == {"close", "donchian_high_slow"};
    assert Reads(Under("donchian_low_fast")) == {"close", "donchian_low_fast"};
    assert Reads(Under("donchian_low_slow")) == {"close", "donchian_low_slow"};
    assert Reads(Over("donchian_exit_high")) == {"close", "donchian_exit_high"};
    assert Reads(Under("donchian_exit_low")) == {"close", "donchian_exit_low"};
    var s := Turtle(fast, slow, ex, atr);
    assert Reads(s.long) == Reads(s.long.l) + Reads(s.long.r)
        && Reads(s.long.l) == Reads(s.long.l.l) + Reads(s.long.l.r);
    assert Reads(s.short) == Reads(s.short.l) + Reads(s.short.r)
        && Reads(s.short.l) == Reads(s.short.l.l) + Reads(s.short.l.r);
  }

  /** The four conditions on the finished frame, in terms of the bars. */
  lemma ConditionsMean(bars: Columns, rows: nat, fast: nat, slow: nat, ex: nat, atr: seq<Column> -> Cell, i: nat)
    requires i < rows
    ensures var s, c := Turtle(fast, slow, ex, atr), Exec(bars, rows, Indicators(fast, slow, ex, atr));
            && (Holds(s.long, c, i) <==> Traded(bars, i) && (Above(bars, fast, i) || Above(bars, slow, i)))
            && (Holds(s.short, c, i) <==> Traded(bars, i) && (Below(bars, fast, i) || Below(bars, slow, i)))
            && (Holds(s.exitLong, c, i) <==> Traded(bars, i) && Below(bars, ex, i))
            && (Holds(s.exitShort, c, i) <==> Traded(bars, i) && Above(bars, ex, i))
  {
    hide Exec, Holds, Above, Below, Indicators, Traded, VolumeOk, Over, Under;
    var s, c := Turtle(fast, slow, ex, atr), Exec(bars, rows, Indicators(fast, slow, ex, atr));
    IndicatorsMean(bars, rows, fast, slow, ex, atr, i);
    HoldsConnectives(s.long.l, VolumeOk(), c, i);
    HoldsConnectives(Over("donchian_high_fast"), Over("donchian_high_slow"), c, i);
    HoldsConnectives(s.short.l, VolumeOk(), c, i);
    HoldsConnectives(Under("donchian_low_fast"), Under("donchian_low_slow"), c, i);
    HoldsConnectives(Under("donchian_exit_low"), VolumeOk(), c, i);
    HoldsConnectives(Over("donchian_exit_high"), VolumeOk(), c, i);
  }

  /** The whole chain, in one line: what Turtle says of a bar. The entry clash never happens. */
  lemma TurtleDirection(bars: Columns, rows: nat, fast: nat, slow: nat, ex: nat, atr: seq<Column> -> Cell, i: nat)
    requires Ordered(bars) && i < rows
    ensures DirectionAt(Exec(bars, rows, Chain(Turtle(fast, slow, ex, atr))), i)
            == DirectionOf(Traded(bars, i) && (Above(bars, fast, i) || Above(bars, slow, i)),
                           Traded(bars, i) && Below(bars, ex, i),
                           Traded(bars, i) && (Below(bars, fast, i) || Below(bars, slow, i)),
                           Traded(bars, i) && Above(bars, ex, i))
  {
    FlagsMean(bars, rows, fast, slow, ex, atr, i);
    hide Exec, Holds, Above, Below, Indicators, Ordered, DirectionAt, Chain, Traded, Turtle;
    ConditionsMean(bars, rows, fast, slow, ex, atr, i);
    NeverBothBreaks(bars, fast, fast, i);
    NeverBothBreaks(bars, fast, slow, i);
    NeverBothBreaks(bars, slow, fast, i);
    NeverBothBreaks(bars, slow, slow, i);
  }

  lemma FlagsMean(bars: Columns, rows: nat, fast: nat, slow: nat, ex: nat, atr: seq<Column> -> Cell, i: nat)
    requires i < rows
    ensures var s, c := Turtle(fast, slow, ex, atr), Exec(bars, rows, Indicators(fast, slow, ex, atr));
            DirectionAt(Exec(bars, rows, Chain(s)), i)
            == ChainDirection(Holds(s.long, c, i), Holds(s.short, c, i),
                              Holds(s.exitLong, c, i), Holds(s.exitShort, c, i))
  {
    ConditionReads(fast, slow, ex, atr);
    hide Exec, Holds, Reads, Indicators, DirectionAt, Chain, Over, Under, VolumeOk, ChainDirection;
    ChainFlags(bars, rows, Turtle(fast, slow, ex, atr), i);
  }

  /** With the exit channel no longer than the entry channels, as in the defaults 10, 20 and 55, the exit channel alone
      decides the direction: the entries never change it. */
  lemma ExitChannelDecides(bars: Columns, rows: nat, fast: nat, slow: nat, ex: nat, atr: seq<Column> -> Cell, i: nat)
    requires Ordered(bars) && i < rows && 1 <= ex <= fast && ex <= slow
    ensures DirectionAt(Exec(bars, rows, Chain(Turtle(fast, slow, ex, atr))), i)
            == if Traded(bars, i) && Above(bars, ex, i) then Buy
               else if Traded(bars, i) && Below(bars, ex, i) then Sell
               else Hold
  {
    TurtleDirection(bars, rows, fast, slow, ex, atr, i);
    FastAloneDecides(bars, ex, fast, i);
    FastAloneDecides(bars, ex, slow, i);
    NeverBothBreaks(bars, ex, ex, i);
    hide Exec, Above, Below, DirectionAt, Chain, Traded, Ordered, Turtle;
  }

  /** Turtle is safe on a shared frame, and sets all four signal columns itself. */
  lemma TurtleScoped(fast: nat, slow: nat, ex: nat, atr: seq<Column> -> Cell)
    ensures WellScoped(Chain(Turtle(fast, slow, ex, atr)), OHLCV)
    ensures SIGNAL_COLUMNS <= WritesOf(Chain(Turtle(fast, slow, ex, atr)))
  {
    ConditionReads(fast, slow, ex, atr);
    IndicatorsSingle(fast, slow, ex, atr);
    hide Reads, WritesOf, SingleAssignment, WellScoped, Indicators;
    ChainScoped(Turtle(fast, slow, ex, atr), OHLCV);
  }
}
