/** Seed metrics: signals are paired into trades, and the trades are folded into returns, drawdown, profit
    factor and Sharpe ratio per pair, then into an aggregate per strategy. */
module Trades {
  import opened Arith
  import opened Common
  import opened SignalRows
  import opened Statistics

  // ---------- Sorting by time ----------

  /** Where an equal or later signal goes: after every signal that is not later. */
  function InsertAt(s: seq<Signal>, x: Signal): (k: nat)
    ensures k <= |s|
    ensures k < |s| ==> s[k].at > x.at
    ensures k > 0 ==> s[k - 1].at <= x.at
    ensures s == [] || s[|s| - 1].at <= x.at ==> k == |s|
  {
    if s == [] || s[|s| - 1].at <= x.at then |s| else InsertAt(s[..|s| - 1], x)
  }

  function SortByTime(s: seq<Signal>): seq<Signal> {
    if s == [] then []
    else
      var n := |s| - 1;
      var r := SortByTime(s[..n]);
      var k := InsertAt(r, s[n]);
      r[..k] + [s[n]] + r[k..]
  }

  function AtTime(s: seq<Signal>, t: int): seq<Signal> {
    if s == [] then []
    else AtTime(s[..|s| - 1], t) + if s[|s| - 1].at == t then [s[|s| - 1]] else []
  }

  lemma {:induction false} AtTimeSplits(a: seq<Signal>, b: seq<Signal>, t: int)
    ensures AtTime(a + b, t) == AtTime(a, t) + AtTime(b, t)
  {
    if b == [] {
      assert a + b == a;
    } else {
      var n := |b| - 1;
      AtTimeSplits(a, b[..n], t);
      assert (a + b)[..|a + b| - 1] == a + b[..n];
    }
  }

  lemma {:induction false} NoneAtTime(s: seq<Signal>, t: int)
    requires forall x :: x in s ==> x.at != t
    ensures AtTime(s, t) == []
  {
    if s != [] { NoneAtTime(s[..|s| - 1], t); }
  }

  lemma InsertKeepsOrder(a: seq<Signal>, x: Signal, b: seq<Signal>)
    requires SignalsOrdered(a) && SignalsOrdered(b)
    requires forall i | 0 <= i < |a| :: a[i].at <= x.at
    requires forall i | 0 <= i < |b| :: x.at <= b[i].at
    ensures SignalsOrdered(a + [x] + b)
  {
  }

  lemma {:induction false} SortIsOrdered(s: seq<Signal>)
    ensures SignalsOrdered(SortByTime(s)) && |SortByTime(s)| == |s|
  {
    if s != [] {
      var r, x := SortByTime(s[..|s| - 1]), s[|s| - 1];
      SortIsOrdered(s[..|s| - 1]);
      var k := InsertAt(r, x);
      forall i | 0 <= i < k ensures r[..k][i].at <= x.at {
        assert i < k - 1 ==> r[i].at <= r[k - 1].at;
      }
      forall i | 0 <= i < |r| - k ensures x.at <= r[k..][i].at {
        assert i > 0 ==> r[k].at <= r[k + i].at;
      }
      InsertKeepsOrder(r[..k], x, r[k..]);
    }
  }

  /** A stable sort: ordered, and the signals of each instant are the same ones in the same order. */
  lemma {:induction false} SortIsStable(s: seq<Signal>, t: int)
    ensures SignalsOrdered(SortByTime(s))
    ensures AtTime(SortByTime(s), t) == AtTime(s, t)
  {
    SortIsOrdered(s);
    if s != [] {
      var n := |s| - 1;
      SortIsStable(s[..n], t);
      var r := SortByTime(s[..n]);
      var k := InsertAt(r, s[n]);
      InsertIsStable(r, s[n], k, t);
    }
  }

  lemma InsertIsStable(r: seq<Signal>, x: Signal, k: nat, t: int)
    requires SignalsOrdered(r) && k <= |r|
    requires k < |r| ==> r[k].at > x.at
    ensures AtTime(r[..k] + [x] + r[k..], t) == AtTime(r, t) + if x.at == t then [x] else []
  {
    var a, b := r[..k], r[k..];
    assert a + b == r;
    AtTimeSplits(a, b, t);
    AtTimeSplits(a + [x], b, t);
    assert (a + [x])[..|a|] == a;
    if x.at == t {
      forall y | y in b ensures y.at != t {
        var i :| 0 <= i < |b| && b[i] == y;
        assert r[k].at <= r[k + i].at;
      }
      NoneAtTime(b, t);
      assert AtTime(a, t) + [] == AtTime(a, t);
    }
  }

  lemma InsertedLast(s: seq<Signal>)
    requires s != []
    ensures var n := |s| - 1; s[..n][..n] + [s[n]] + s[..n][n..] == s
  {
  }

  lemma {:induction false} SortOfOrdered(s: seq<Signal>)
    requires SignalsOrdered(s)
    ensures SortByTime(s) == s
  {
    if s != [] {
      var n := |s| - 1;
      SortOfOrdered(s[..n]);
      assert n > 0 ==> s[..n][n - 1].at <= s[n].at;
      assert InsertAt(s[..n], s[n]) == n;
      hide InsertAt, SignalsOrdered;
      InsertedLast(s);
    }
  }

  // ---------- Pairing ----------

  datatype Trade = Trade(entry: Signal, exit: Signal)
  datatype Pairing = Pairing(completed: seq<Trade>, pending: Option<Signal>)

  /** A buy opens a trade when none is open; a sell closes the open one. */
  function PairStep(p: Pairing, s: Signal): Pairing {
    if s.direction.Buy? && p.pending.None? then p.(pending := Some(s))
    else if s.direction.Sell? && p.pending.Some? then Pairing(p.completed + [Trade(p.pending.value, s)], None)
    else p
  }

  function Pair(signals: seq<Signal>): Pairing {
    if signals == [] then Pairing([], None) else PairStep(Pair(signals[..|signals| - 1]), signals[|signals| - 1])
  }

  lemma {:induction false} PairExtends(signals: seq<Signal>, i: nat)
    requires i < |signals|
    ensures Pair(signals[..i + 1]) == PairStep(Pair(signals[..i]), signals[i])
  {
    assert signals[..i + 1][..i] == signals[..i];
  }

  lemma PairAppend(signals: seq<Signal>, s: Signal)
    ensures Pair(signals + [s]) == PairStep(Pair(signals), s)
  {
    assert (signals + [s])[..|signals|] == signals;
  }

  predicate NoneOf(s: seq<Signal>, d: Direction, lo: nat, hi: nat)
    requires hi <= |s|
  {
    forall j | lo <= j < hi :: s[j].direction != d
  }

  /** Where the k-th position may be opened: at the start, or after the exit before. */
  function From(exits: seq<nat>, k: nat): nat
    requires k <= |exits|
  {
    if k == 0 then 0 else exits[k - 1] + 1
  }

  /** Entry k is the first buy since the exit before. */
  predicate IsOpened(s: seq<Signal>, entries: seq<nat>, exits: seq<nat>, k: nat)
    requires k < |entries| && k <= |exits|
  {
    && From(exits, k) <= entries[k] < |s| && s[entries[k]].direction.Buy?
    && NoneOf(s, Buy, From(exits, k), entries[k])
  }

  /** Exit k is the first sell after entry k, and the two make trade k. */
  predicate IsClosed(s: seq<Signal>, trades: seq<Trade>, entries: seq<nat>, exits: seq<nat>, k: nat)
    requires k < |entries| && k < |exits| && k < |trades|
  {
    && entries[k] < exits[k] < |s| && s[exits[k]].direction.Sell?
    && NoneOf(s, Sell, entries[k], exits[k])
    && trades[k] == Trade(s[entries[k]], s[exits[k]])
  }

  /** Each position is opened at the first buy after the exit before, and closed at the first sell after its entry;
      what is left over is the pending one. */
  predicate IsPairing(s: seq<Signal>, p: Pairing, entries: seq<nat>, exits: seq<nat>) {
    && |exits| == |p.completed| && |entries| == |exits| + (if p.pending.Some? then 1 else 0)
    && (forall k | 0 <= k < |entries| :: IsOpened(s, entries, exits, k))
    && (forall k | 0 <= k < |exits| :: IsClosed(s, p.completed, entries, exits, k))
    && IsRest(s, p.pending, entries, exits)
  }

  predicate IsRest(s: seq<Signal>, pending: Option<Signal>, entries: seq<nat>, exits: seq<nat>)
    requires |entries| == |exits| + if pending.Some? then 1 else 0
  {
    match pending
    case Some(entry) =>
      var e := entries[|exits|];
      e < |s| && entry == s[e] && NoneOf(s, Sell, e, |s|)
    case None => NoneOf(s, Buy, From(exits, |exits|), |s|)
  }

  /** The pairing so far, over one more signal that does nothing. */
  lemma PairingSkips(s: seq<Signal>, p: Pairing, entries: seq<nat>, exits: seq<nat>)
    requires s != [] && IsPairing(s[..|s| - 1], p, entries, exits)
    requires s[|s| - 1].direction != if p.pending.Some? then Sell else Buy
    ensures IsPairing(s, p, entries, exits)
  {
    PairingOfPrefix(s, p, entries, exits);
  }

  lemma PairingOfPrefix(s: seq<Signal>, p: Pairing, entries: seq<nat>, exits: seq<nat>)
    requires s != [] && IsPairing(s[..|s| - 1], p, entries, exits)
    ensures forall k | 0 <= k < |entries| :: IsOpened(s, entries, exits, k)
    ensures forall k | 0 <= k < |exits| :: IsClosed(s, p.completed, entries, exits, k)
  {
    var before := s[..|s| - 1];
    assert forall j | 0 <= j < |before| :: before[j] == s[j];
    forall k | 0 <= k < |entries| ensures IsOpened(s, entries, exits, k) {
      assert IsOpened(before, entries, exits, k);
    }
    forall k | 0 <= k < |exits| ensures IsClosed(s, p.completed, entries, exits, k) {
      assert IsClosed(before, p.completed, entries, exits, k);
    }
  }

  lemma PairingOpens(s: seq<Signal>, p: Pairing, entries: seq<nat>, exits: seq<nat>)
    requires s != [] && IsPairing(s[..|s| - 1], p, entries, exits)
    requires p.pending.None? && s[|s| - 1].direction.Buy?
    ensures IsPairing(s, p.(pending := Some(s[|s| - 1])), entries + [|s| - 1], exits)
  {
    var n := |s| - 1;
    var entries' := entries + [n];
    PairingOfPrefix(s, p, entries, exits);
    FromInside(s, p, entries, exits);
    forall k | 0 <= k < |entries'| ensures IsOpened(s, entries', exits, k) {
      if k < |entries| { assert IsOpened(s, entries, exits, k); }
    }
    forall k | 0 <= k < |exits| ensures IsClosed(s, p.completed, entries', exits, k) {
      assert IsClosed(s, p.completed, entries, exits, k);
    }
  }

  lemma FromInside(s: seq<Signal>, p: Pairing, entries: seq<nat>, exits: seq<nat>)
    requires s != [] && IsPairing(s[..|s| - 1], p, entries, exits)
    ensures From(exits, |exits|) <= |s| - 1
  {
    if exits != [] { assert IsClosed(s[..|s| - 1], p.completed, entries, exits, |exits| - 1); }
  }

  lemma PairingCloses(s: seq<Signal>, p: Pairing, entries: seq<nat>, exits: seq<nat>)
    requires s != [] && IsPairing(s[..|s| - 1], p, entries, exits)
    requires p.pending.Some? && s[|s| - 1].direction.Sell?
    ensures IsPairing(s, Pairing(p.completed + [Trade(p.pending.value, s[|s| - 1])], None), entries, exits + [|s| - 1])
  {
    var n := |s| - 1;
    var exits', trades' := exits + [n], p.completed + [Trade(p.pending.value, s[n])];
    PairingOfPrefix(s, p, entries, exits);
    forall k | 0 <= k < |entries| ensures IsOpened(s, entries, exits', k) {
      assert IsOpened(s, entries, exits, k);
      assert From(exits', k) == From(exits, k);
    }
    forall k | 0 <= k < |exits'| ensures IsClosed(s, trades', entries, exits', k) {
      if k < |exits| { assert IsClosed(s, p.completed, entries, exits, k); }
    }
  }

  /** The loop's pairs are these, for any signals. */
  lemma {:induction false} PairingIsGreedy(s: seq<Signal>) returns (entries: seq<nat>, exits: seq<nat>)
    ensures IsPairing(s, Pair(s), entries, exits)
  {
    entries, exits := [], [];
    if s != [] {
      var n := |s| - 1;
      var p := Pair(s[..n]);
      entries, exits := PairingIsGreedy(s[..n]);
      assert Pair(s) == PairStep(p, s[n]);
      hide Pair, IsPairing;
      if s[n].direction.Buy? && p.pending.None? {
        PairingOpens(s, p, entries, exits);
        entries := entries + [n];
      } else if s[n].direction.Sell? && p.pending.Some? {
        PairingCloses(s, p, entries, exits);
        exits := exits + [n];
      } else {
        PairingSkips(s, p, entries, exits);
      }
    }
  }

  /** A direction repeated does nothing: a run of equal directions pairs like its first signal. */
  lemma {:induction false} EdgePairing(rows: seq<BarRow>)
    requires AllPriced(rows)
    ensures Pair(EdgeSignals(rows)) == Pair(EverySignal(rows))
    ensures rows != [] && RowDirection(rows[|rows| - 1]).Buy? ==> Pair(EverySignal(rows)).pending.Some?
    ensures rows != [] && RowDirection(rows[|rows| - 1]).Sell? ==> Pair(EverySignal(rows)).pending.None?
  {
    hide Twentieths, Round2, Pair, DirectionOf;
    if rows != [] {
      var n := |rows| - 1;
      EdgePairing(rows[..n]);
      var edge, every, s := EdgeSignals(rows[..n]), EverySignal(rows[..n]), SignalOf(rows[n]);
      PairAppend(edge, s);
      PairAppend(every, s);
      assert edge + [] == edge && every + [] == every;
    }
  }

  /** Pairing the edge-triggered signals gives exactly the trades, and the open position, of pairing one signal
      per signalling row, both sorted by time as the metrics do. */
  lemma EdgeTriggerPreservesTrades(rows: seq<BarRow>)
    requires AllPriced(rows) && RowsOrdered(rows)
    ensures Pair(SortByTime(EdgeSignals(rows))) == Pair(SortByTime(EverySignal(rows)))
  {
    ExtractionOrdered(rows);
    SortOfOrdered(EdgeSignals(rows));
    SortOfOrdered(EverySignal(rows));
    EdgePairing(rows);
  }

  // ---------- The fold over returns ----------

  /** The return of a trade; the metrics record a trade only when its entry price is positive. */
  function Pnl(t: Trade): real
    requires t.entry.entryPrice > 0.0
  {
    (t.exit.entryPrice - t.entry.entryPrice) / t.entry.entryPrice
  }

  function Returns(trades: seq<Trade>): seq<real> {
    if trades == [] then []
    else
      var n := |trades| - 1;
      Returns(trades[..n]) + if trades[n].entry.entryPrice > 0.0 then [Pnl(trades[n])] else []
  }

  /** r takes the entry price to the exit price. */
  predicate IsReturnOf(r: real, t: Trade) { t.entry.entryPrice * (1.0 + r) == t.exit.entryPrice }

  lemma PnlIsReturn(t: Trade)
    requires t.entry.entryPrice > 0.0
    ensures IsReturnOf(Pnl(t), t)
  {
    var entry, exit := t.entry.entryPrice, t.exit.entryPrice;
    assert entry * ((exit - entry) / entry) == exit - entry;
  }

  /** There is one return for each trade with a positive entry price, in the order of the trades. */
  lemma {:induction false} ReturnsOfTrades(trades: seq<Trade>) returns (ks: seq<nat>)
    ensures Picks(ks, |trades|) && |ks| == |Returns(trades)|
    ensures forall k: nat | k < |trades| :: k in ks <==> trades[k].entry.entryPrice > 0.0
    ensures forall j | 0 <= j < |ks| :: IsReturnOf(Returns(trades)[j], trades[ks[j]])
  {
    hide Pnl, IsReturnOf;
    ks := [];
    if trades != [] {
      var n := |trades| - 1;
      ks := ReturnsOfTrades(trades[..n]);
      assert forall k | 0 <= k < n :: trades[..n][k] == trades[k];
      PickNext(ks, n);
      if trades[n].entry.entryPrice > 0.0 {
        PnlIsReturn(trades[n]);
        ks := ks + [n];
      }
    }
  }

  function Grow(x: real, pnl: real): real { x * (1.0 + pnl) }

  function Scale(x: real, y: real): real { x * y }

  /** The relative fall from a peak. */
  function Fall(peak: real, x: real): real
    requires peak != 0.0
  {
    (peak - x) / peak
  }

  predicate ExitsNonNegative(trades: seq<Trade>) {
    forall k | 0 <= k < |trades| && trades[k].entry.entryPrice > 0.0 :: trades[k].exit.entryPrice >= 0.0
  }

  lemma SolventAppend(pnls: seq<real>, x: real)
    ensures Solvent(pnls + [x]) <==> Solvent(pnls) && x >= -1.0
  {
    var all := pnls + [x];
    assert all[|pnls|] == x && forall k | 0 <= k < |pnls| :: all[k] == pnls[k];
  }

  lemma ExitsAppend(trades: seq<Trade>)
    requires trades != []
    ensures var n := |trades| - 1;
            ExitsNonNegative(trades)
            <==> ExitsNonNegative(trades[..n])
                 && (trades[n].entry.entryPrice > 0.0 ==> trades[n].exit.entryPrice >= 0.0)
  {
    var n := |trades| - 1;
    assert forall k | 0 <= k < n :: trades[..n][k] == trades[k];
  }

  /** A recorded trade never loses more than its stake exactly when no recorded exit price is negative. */
  lemma {:induction false} SolventIffExitsNonNegative(trades: seq<Trade>)
    ensures Solvent(Returns(trades)) <==> ExitsNonNegative(trades)
  {
    if trades != [] {
      var n := |trades| - 1;
      SolventIffExitsNonNegative(trades[..n]);
      ExitsAppend(trades);
      var t, rest := trades[n], Returns(trades[..n]);
      hide Solvent, ExitsNonNegative, Pnl;
      if t.entry.entryPrice > 0.0 {
        SolventAppend(rest, Pnl(t));
        PnlAboveMinusOne(t);
      } else {
        assert Returns(trades) == rest;
      }
    }
  }

  lemma PnlAboveMinusOne(t: Trade)
    requires t.entry.entryPrice > 0.0
    ensures Pnl(t) >= -1.0 <==> t.exit.entryPrice >= 0.0
  {
    ReturnAboveMinusOne(t.entry.entryPrice, t.exit.entryPrice);
  }

  datatype Walk = Walk(cumulative: real, peak: real, maxDd: real, profit: real, loss: real)

  function WalkStep(w: Walk, pnl: real): Walk
    requires w.peak > 0.0
  {
    var cumulative := Grow(w.cumulative, pnl);
    var peak := if cumulative > w.peak then cumulative else w.peak;
    var dd := Fall(peak, cumulative);
    Walk(cumulative, peak, if dd > w.maxDd then dd else w.maxDd,
         if pnl > 0.0 then w.profit + pnl else w.profit,
         if pnl > 0.0 then w.loss else w.loss - pnl)
  }

  function WalkAll(pnls: seq<real>): (w: Walk)
    ensures w.peak >= 1.0
  {
    if pnls == [] then Walk(1.0, 1.0, 0.0, 0.0, 0.0) else WalkStep(WalkAll(pnls[..|pnls| - 1]), pnls[|pnls| - 1])
  }

  /** The equity curve, starting at 1. */
  function Equity(pnls: seq<real>, j: nat): real
    requires j <= |pnls|
  {
    if j == 0 then 1.0 else Grow(Equity(pnls, j - 1), pnls[j - 1])
  }

  /** The growth over the contiguous, possibly empty run of trades i..j. */
  function Growth(pnls: seq<real>, i: nat, j: nat): real
    requires i <= j <= |pnls|
  {
    if i == j then 1.0 else Grow(Growth(pnls, i, j - 1), pnls[j - 1])
  }

  /** No trade loses more than its stake, as with prices that are not negative. */
  predicate Solvent(pnls: seq<real>) { forall k | 0 <= k < |pnls| :: pnls[k] >= -1.0 }

  lemma {:induction false} EquityOfPrefix(pnls: seq<real>, n: nat, j: nat)
    requires j <= n <= |pnls|
    ensures Equity(pnls[..n], j) == Equity(pnls, j)
  {
    hide Grow;
    if j > 0 { EquityOfPrefix(pnls, n, j - 1); }
  }

  lemma {:induction false} GrowthOfPrefix(pnls: seq<real>, n: nat, i: nat, j: nat)
    requires i <= j <= n <= |pnls|
    ensures Growth(pnls[..n], i, j) == Growth(pnls, i, j)
  {
    hide Grow;
    if i < j { GrowthOfPrefix(pnls, n, i, j - 1); }
  }

  lemma GrowAssociates(e: real, g: real, pnl: real)
    ensures Grow(Scale(e, g), pnl) == Scale(e, Grow(g, pnl))
  {
    MulAssoc(e, g, 1.0 + pnl);
  }

  lemma ScaleByOne(x: real)
    ensures Scale(x, 1.0) == x && Scale(1.0, x) == x
  {
  }

  lemma GrowSign(x: real, pnl: real)
    requires x >= 0.0 && pnl >= -1.0
    ensures Grow(x, pnl) >= 0.0
    ensures x > 0.0 && pnl > -1.0 ==> Grow(x, pnl) > 0.0
    ensures pnl == -1.0 ==> Grow(x, pnl) == 0.0
  {
    MulNonNegative(x, 1.0 + pnl);
  }

  lemma {:induction false} EquitySplits(pnls: seq<real>, i: nat, j: nat)
    requires i <= j <= |pnls|
    ensures Equity(pnls, j) == Scale(Equity(pnls, i), Growth(pnls, i, j))
  {
    hide Grow, Scale;
    if i < j {
      EquitySplits(pnls, i, j - 1);
      GrowAssociates(Equity(pnls, i), Growth(pnls, i, j - 1), pnls[j - 1]);
    } else {
      ScaleByOne(Equity(pnls, i));
    }
  }

  lemma {:induction false} GrowthNonNegative(pnls: seq<real>, i: nat, j: nat)
    requires Solvent(pnls) && i <= j <= |pnls|
    ensures Growth(pnls, i, j) >= 0.0
    ensures (forall k | i <= k < j :: pnls[k] > -1.0) ==> Growth(pnls, i, j) > 0.0
  {
    hide Grow;
    if i < j {
      GrowthNonNegative(pnls, i, j - 1);
      GrowSign(Growth(pnls, i, j - 1), pnls[j - 1]);
    }
  }

  lemma EquityIsGrowth(pnls: seq<real>, j: nat)
    requires j <= |pnls|
    ensures Equity(pnls, j) == Growth(pnls, 0, j)
  {
    hide Grow, Scale;
    EquitySplits(pnls, 0, j);
    ScaleByOne(Growth(pnls, 0, j));
  }

  lemma EquityNonNegative(pnls: seq<real>, j: nat)
    requires Solvent(pnls) && j <= |pnls|
    ensures Equity(pnls, j) >= 0.0
  {
    EquityIsGrowth(pnls, j);
    GrowthNonNegative(pnls, 0, j);
  }

  /** The walk's equity is the curve's last point and its peak is the curve's maximum. */
  lemma {:induction false} WalkTracksCurve(pnls: seq<real>)
    ensures WalkAll(pnls).cumulative == Equity(pnls, |pnls|)
    ensures forall i | 0 <= i <= |pnls| :: Equity(pnls, i) <= WalkAll(pnls).peak
    ensures exists i | 0 <= i <= |pnls| :: Equity(pnls, i) == WalkAll(pnls).peak
  {
    hide Grow, Fall;
    var n := |pnls|;
    if n == 0 {
      assert Equity(pnls, 0) == 1.0;
    } else {
      var before := pnls[..n - 1];
      WalkTracksCurve(before);
      forall i | 0 <= i < n ensures Equity(before, i) == Equity(pnls, i) {
        EquityOfPrefix(pnls, n - 1, i);
      }
      var i :| 0 <= i <= n - 1 && Equity(before, i) == WalkAll(before).peak;
      assert Equity(pnls, i) == WalkAll(before).peak;
      assert Equity(pnls, n) == WalkAll(pnls).cumulative;
    }
  }

  /** `d` is one minus the least growth over any contiguous run of trades. */
  predicate IsWorstRun(pnls: seq<real>, d: real) {
    && (forall i, j | 0 <= i <= j <= |pnls| :: Growth(pnls, i, j) >= 1.0 - d)
    && (exists i, j | 0 <= i <= j <= |pnls| :: Growth(pnls, i, j) == 1.0 - d)
  }

  /** The relative fall of the equity curve from point i to the later point j. */
  function CurveFall(pnls: seq<real>, i: nat, j: nat): real
    requires i <= j <= |pnls| && Equity(pnls, i) != 0.0
  {
    Fall(Equity(pnls, i), Equity(pnls, j))
  }

  /** `d` is the greatest relative fall between a positive point of the curve and a later one. */
  predicate IsMaxDrawdown(pnls: seq<real>, d: real) {
    && (forall i, j | 0 <= i <= j <= |pnls| && Equity(pnls, i) > 0.0 :: CurveFall(pnls, i, j) <= d)
    && (exists i, j | 0 <= i <= j <= |pnls| && Equity(pnls, i) > 0.0 :: CurveFall(pnls, i, j) == d)
  }

  lemma CurveFallIsLostGrowth(pnls: seq<real>, i: nat, j: nat)
    requires i <= j <= |pnls| && Equity(pnls, i) > 0.0
    ensures CurveFall(pnls, i, j) == 1.0 - Growth(pnls, i, j)
  {
    hide Grow, Fall, Scale;
    EquitySplits(pnls, i, j);
    FallOfProduct(Equity(pnls, i), Growth(pnls, i, j));
  }

  lemma FallOfProduct(e: real, g: real)
    requires e > 0.0
    ensures Fall(e, Scale(e, g)) == 1.0 - g
  {
    FallOfMultiple(e, g);
  }

  lemma ScaledFallFromPeak(x: real, y: real, peak: real)
    requires 0.0 < x <= peak && y >= 0.0
    ensures 1.0 - Fall(peak, Scale(x, y)) <= y
  {
    FallFromPeakIsWorst(x, y, peak);
  }

  /** No run that ends at the last point loses more than the fall from the peak. */
  lemma LastFallFromPeak(pnls: seq<real>, i: nat)
    requires Solvent(pnls) && i <= |pnls| && Equity(pnls, i) != 0.0
    ensures Growth(pnls, i, |pnls|) >= 1.0 - Fall(WalkAll(pnls).peak, WalkAll(pnls).cumulative)
  {
    hide Grow, Fall, Scale;
    WalkTracksCurve(pnls);
    EquityNonNegative(pnls, i);
    EquitySplits(pnls, i, |pnls|);
    GrowthNonNegative(pnls, i, |pnls|);
    ScaledFallFromPeak(Equity(pnls, i), Growth(pnls, i, |pnls|), WalkAll(pnls).peak);
  }

  lemma LastFallInUnit(pnls: seq<real>)
    requires Solvent(pnls)
    ensures 0.0 <= Fall(WalkAll(pnls).peak, WalkAll(pnls).cumulative) <= 1.0
    ensures Equity(pnls, |pnls|) == 0.0 ==> Fall(WalkAll(pnls).peak, WalkAll(pnls).cumulative) == 1.0
  {
    hide Grow;
    WalkTracksCurve(pnls);
    EquityNonNegative(pnls, |pnls|);
    FallInUnit(WalkAll(pnls).peak, WalkAll(pnls).cumulative);
  }

  /** Once the curve has hit zero, the recorded drawdown is total. */
  lemma {:induction false} ZeroMeansTotalLoss(pnls: seq<real>, i: nat)
    requires Solvent(pnls) && i <= |pnls| && Equity(pnls, i) == 0.0
    ensures WalkAll(pnls).maxDd >= 1.0
  {
    hide Grow, Fall;
    var n := |pnls|;
    assert Equity(pnls, 0) == 1.0;
    var before := pnls[..n - 1];
    if i < n {
      EquityOfPrefix(pnls, n - 1, i);
      ZeroMeansTotalLoss(before, i);
    } else {
      LastFallInUnit(pnls);
    }
  }

  /** The one-pass drawdown is one minus the least growth over a contiguous run of trades. */
  lemma {:induction false} OnePassIsWorstRun(pnls: seq<real>)
    requires Solvent(pnls)
    ensures IsWorstRun(pnls, WalkAll(pnls).maxDd)
    ensures 0.0 <= WalkAll(pnls).maxDd <= 1.0
  {
    hide Grow, Fall;
    var n := |pnls|;
    var w := WalkAll(pnls);
    if n == 0 {
      assert Growth(pnls, 0, 0) == 1.0 - w.maxDd;
    } else {
      var before := pnls[..n - 1];
      OnePassIsWorstRun(before);
      LastFallInUnit(pnls);
      forall i, j | 0 <= i <= j <= n ensures Growth(pnls, i, j) >= 1.0 - w.maxDd {
        if j < n {
          GrowthOfPrefix(pnls, n - 1, i, j);
        } else if Equity(pnls, i) == 0.0 {
          GrowthNonNegative(pnls, i, n);
          ZeroMeansTotalLoss(pnls, i);
        } else {
          LastFallFromPeak(pnls, i);
        }
      }
      WorstRunAttained(pnls);
    }
  }

  lemma WorstRunAttained(pnls: seq<real>)
    requires pnls != [] && Solvent(pnls) && IsWorstRun(pnls[..|pnls| - 1], WalkAll(pnls[..|pnls| - 1]).maxDd)
    ensures exists i, j | 0 <= i <= j <= |pnls| :: Growth(pnls, i, j) == 1.0 - WalkAll(pnls).maxDd
  {
    hide Grow, Fall;
    var n, w := |pnls|, WalkAll(pnls);
    var before := pnls[..n - 1];
    if w.maxDd == WalkAll(before).maxDd {
      var i, j :| 0 <= i <= j <= n - 1 && Growth(before, i, j) == 1.0 - w.maxDd;
      GrowthOfPrefix(pnls, n - 1, i, j);
      assert Growth(pnls, i, j) == 1.0 - w.maxDd;
    } else {
      WalkTracksCurve(pnls);
      var i :| 0 <= i <= n && Equity(pnls, i) == w.peak;
      CurveFallIsLostGrowth(pnls, i, n);
      assert Growth(pnls, i, n) == 1.0 - w.maxDd;
    }
  }

  /** The one-pass drawdown is the real drawdown of the equity curve. It is 1 exactly when some trade lost its
      whole stake, and the total return is never below minus the drawdown. */
  lemma OnePassIsRealDrawdown(pnls: seq<real>)
    requires Solvent(pnls)
    ensures IsMaxDrawdown(pnls, WalkAll(pnls).maxDd)
    ensures 0.0 <= WalkAll(pnls).maxDd <= 1.0
    ensures WalkAll(pnls).maxDd == 1.0 <==> exists k | 0 <= k < |pnls| :: pnls[k] == -1.0
    ensures WalkAll(pnls).cumulative - 1.0 >= -WalkAll(pnls).maxDd
  {
    hide Grow, Fall, CurveFall;
    OnePassIsWorstRun(pnls);
    WalkTracksCurve(pnls);
    EquityIsGrowth(pnls, |pnls|);
    var d := WalkAll(pnls).maxDd;
    forall i, j | 0 <= i <= j <= |pnls| && Equity(pnls, i) > 0.0 ensures CurveFall(pnls, i, j) <= d {
      CurveFallIsLostGrowth(pnls, i, j);
    }
    DrawdownAttained(pnls);
    TotalLossIff(pnls);
  }

  lemma TotalLossIff(pnls: seq<real>)
    requires Solvent(pnls) && IsWorstRun(pnls, WalkAll(pnls).maxDd) && WalkAll(pnls).maxDd <= 1.0
    ensures WalkAll(pnls).maxDd == 1.0 <==> exists k | 0 <= k < |pnls| :: pnls[k] == -1.0
  {
    hide Grow, Fall;
    var d := WalkAll(pnls).maxDd;
    if k :| 0 <= k < |pnls| && pnls[k] == -1.0 {
      EquityNonNegative(pnls, k);
      GrowSign(Equity(pnls, k), pnls[k]);
      assert Equity(pnls, k + 1) == 0.0;
      ZeroMeansTotalLoss(pnls, k + 1);
    } else {
      var i, j :| 0 <= i <= j <= |pnls| && Growth(pnls, i, j) == 1.0 - d;
      GrowthNonNegative(pnls, i, j);
    }
  }

  lemma {:induction false} DrawdownAttained(pnls: seq<real>)
    requires Solvent(pnls)
    ensures exists i, j | 0 <= i <= j <= |pnls| && Equity(pnls, i) > 0.0 ::
              CurveFall(pnls, i, j) == WalkAll(pnls).maxDd
  {
    hide Grow, Fall;
    var n := |pnls|;
    if n == 0 {
      assert Equity(pnls, 0) == 1.0;
      CurveFallIsLostGrowth(pnls, 0, 0);
    } else {
      var before := pnls[..n - 1];
      DrawdownAttained(before);
      WalkTracksCurve(pnls);
      var w := WalkAll(pnls);
      if w.maxDd == WalkAll(before).maxDd {
        var i, j :| 0 <= i <= j <= n - 1 && Equity(before, i) > 0.0 && CurveFall(before, i, j) == w.maxDd;
        EquityOfPrefix(pnls, n - 1, i);
        EquityOfPrefix(pnls, n - 1, j);
        assert CurveFall(pnls, i, j) == w.maxDd;
      } else {
        var i :| 0 <= i <= n && Equity(pnls, i) == w.peak;
        assert CurveFall(pnls, i, n) == w.maxDd;
      }
    }
  }

  // ---------- Profit factor and Sharpe ratio ----------

  /** What is left of a square root: it is positive on positive numbers. */
  ghost predicate PositiveRoot(root: real -> real) {
    forall x :: x > 0.0 ==> root(x) > 0.0
  }

  function ProfitFactor(w: Walk): real {
    if w.loss > 0.0 then w.profit / w.loss else if w.profit > 0.0 then 10.0 else 1.0
  }

  function Annualised(mean: real, std: real, year: real): real
    requires std != 0.0
  {
    (mean / std) * year
  }

  /** The guard on the deviation is for abstract roots only: PositiveRoot excludes it. */
  function Sharpe(xs: seq<real>, root: real -> real): real {
    if |xs| > 1 then
      var std := if Variance(xs) > 0.0 then root(Variance(xs)) else 0.001;
      if std == 0.0 then 0.0 else Annualised(Mean(xs), std, root((if |xs| < 252 then |xs| else 252) as real))
    else 0.0
  }

  /** The square root of the source. */
  ghost predicate SquareRoot(root: real -> real) {
    forall x :: x >= 0.0 ==> root(x) >= 0.0 && root(x) * root(x) == x
  }

  /** At most 252 periods count as a year. */
  function Periods(xs: seq<real>): real { if |xs| < 252 then |xs| as real else 252.0 }

  lemma RootOfPositive(root: real -> real, x: real)
    requires SquareRoot(root) && x > 0.0
    ensures root(x) > 0.0 && root(x) * root(x) == x
  {
    assert root(x) == 0.0 ==> root(x) * root(x) == 0.0;
  }

  lemma RootsArePositive(root: real -> real)
    requires SquareRoot(root)
    ensures PositiveRoot(root)
  {
    forall x | x > 0.0 ensures root(x) > 0.0 { RootOfPositive(root, x); }
  }

  lemma SquareOfProduct(x: real, y: real)
    ensures Square(x * y) == Square(x) * Square(y)
  {
    MulAssoc(x, y, x * y);
    MulAssoc(y, x, y);
    MulAssoc(x, x, y * y);
  }

  lemma RatioSquared(mean: real, std: real, variance: real, year: real, periods: real)
    requires std > 0.0 && std * std == variance && year * year == periods
    ensures Square(Annualised(mean, std, year)) * variance == Square(mean) * periods
  {
    var q := mean / std;
    assert q * std == mean;
    SquareOfProduct(q, year);
    SquareOfProduct(q, std);
    assert Square(q * year) == Square(q) * periods;
    MulAssoc(Square(q), periods, variance);
    MulAssoc(Square(q), variance, periods);
    assert periods * variance == variance * periods;
  }

  lemma RatioOverThousandth(mean: real, year: real)
    ensures 0.001 * Annualised(mean, 0.001, year) == mean * year
  {
    MulAssoc(0.001, mean / 0.001, year);
    assert 0.001 * (mean / 0.001) == mean;
  }

  /** How large the Sharpe ratio is: the squared mean over the variance, times the periods; for returns that do not
      vary the mean over a thousandth, times the root of the periods; and nothing for fewer than two returns. */
  lemma SharpeMagnitude(xs: seq<real>, root: real -> real)
    requires SquareRoot(root)
    ensures |xs| < 2 ==> Sharpe(xs, root) == 0.0
    ensures |xs| >= 2 && Variance(xs) > 0.0 ==>
              Square(Sharpe(xs, root)) * Variance(xs) == Square(Mean(xs)) * Periods(xs)
    ensures |xs| >= 2 && Variance(xs) <= 0.0 ==> 0.001 * Sharpe(xs, root) == Mean(xs) * root(Periods(xs))
  {
    hide Variance, Mean, Square, Annualised;
    if |xs| >= 2 {
      assert Periods(xs) == (if |xs| < 252 then |xs| else 252) as real;
      RootOfPositive(root, Periods(xs));
      if Variance(xs) > 0.0 {
        RootOfPositive(root, Variance(xs));
        RatioSquared(Mean(xs), root(Variance(xs)), Variance(xs), root(Periods(xs)), Periods(xs));
      } else {
        RatioOverThousandth(Mean(xs), root(Periods(xs)));
      }
    }
  }

  function Times(c: real, xs: seq<real>): seq<real> { seq(|xs|, i requires 0 <= i < |xs| => Scale(c, xs[i])) }

  lemma Distribute(c: real, x: real, y: real)
    ensures Scale(c, x + y) == Scale(c, x) + Scale(c, y)
  {
  }

  lemma {:induction false} SumOfMultiple(c: real, xs: seq<real>)
    ensures Sum(Times(c, xs)) == Scale(c, Sum(xs))
  {
    hide Scale;
    if xs == [] {
      ScaleNothing(c);
    } else {
      var rest, x := xs[..|xs| - 1], xs[|xs| - 1];
      SumOfMultiple(c, rest);
      assert Times(c, xs)[..|xs| - 1] == Times(c, rest);
      Distribute(c, Sum(rest), x);
    }
  }

  lemma ScaleNothing(c: real)
    ensures Scale(c, 0.0) == 0.0
  {
  }

  lemma {:induction false} DeviationsOfMultiple(c: real, xs: seq<real>, center: real)
    ensures SquaredDeviations(Times(c, xs), Scale(c, center)) == Scale(Square(c), SquaredDeviations(xs, center))
  {
    hide Scale, Square;
    if xs == [] {
      ScaleNothing(Square(c));
    } else {
      var rest, x := xs[..|xs| - 1], xs[|xs| - 1];
      DeviationsOfMultiple(c, rest, center);
      assert Times(c, xs)[..|xs| - 1] == Times(c, rest);
      var d, e := Times(c, xs)[|xs| - 1] - Scale(c, center), x - center;
      assert SquaredDeviations(Times(c, xs), Scale(c, center))
          == SquaredDeviations(Times(c, rest), Scale(c, center)) + d * d;
      assert SquaredDeviations(xs, center) == SquaredDeviations(rest, center) + e * e;
      DeviationOfMultiple(c, x, center, d, e);
      Distribute(Square(c), SquaredDeviations(rest, center), e * e);
    }
  }

  lemma DeviationOfMultiple(c: real, x: real, center: real, d: real, e: real)
    requires d == Scale(c, x) - Scale(c, center) && e == x - center
    ensures d * d == Scale(Square(c), e * e)
  {
    assert d == c * e;
    SquareOfProduct(c, e);
  }

  lemma QuotientOfMultiple(c: real, x: real, y: real)
    requires y != 0.0
    ensures Scale(c, x) / y == Scale(c, x / y)
  {
    assert ((c * x) / y) * y == c * x;
    assert (x / y) * y == x;
    MulAssoc(c, x / y, y);
    Cancel((c * x) / y, c * (x / y), y);
  }

  lemma ScaleSign(c: real, x: real)
    requires c > 0.0
    ensures (Scale(c, x) > 0.0 <==> x > 0.0) && (Scale(c, x) < 0.0 <==> x < 0.0)
    ensures Square(c) > 0.0
  {
    SignOfProduct(x, c);
    SquareIsPositive(c);
  }

  lemma VarianceOfMultiple(c: real, xs: seq<real>)
    requires |xs| >= 2
    ensures Sum(Times(c, xs)) == Scale(c, Sum(xs)) && Mean(Times(c, xs)) == Scale(c, Mean(xs))
    ensures Variance(Times(c, xs)) == Scale(Square(c), Variance(xs))
  {
    hide Square, Sum, SquaredDeviations, Scale;
    SumOfMultiple(c, xs);
    QuotientOfMultiple(c, Sum(xs), |xs| as real);
    DeviationsOfMultiple(c, xs, Mean(xs));
    QuotientOfMultiple(Square(c), SquaredDeviations(xs, Mean(xs)), |xs| as real - 1.0);
  }

  lemma SameSquareSameSign(x: real, y: real)
    requires Square(x) == Square(y) && (x > 0.0 <==> y > 0.0) && (x < 0.0 <==> y < 0.0)
    ensures x == y
  {
    assert (x - y) * (x + y) == 0.0;
  }

  lemma SameRatio(s: real, t: real, variance: real, mean: real, c: real, periods: real)
    requires c > 0.0 && variance > 0.0
    requires Square(s) * variance == Square(mean) * periods
    requires Square(t) * Scale(Square(c), variance) == Square(Scale(c, mean)) * periods
    ensures Square(s) == Square(t)
  {
    ScaleSign(c, c);
    SquareOfProduct(c, mean);
    CancelFactor(Square(s), Square(t), variance, Square(mean), Square(c), periods);
  }

  lemma CancelFactor(s: real, t: real, v: real, m: real, k: real, n: real)
    requires k > 0.0 && v > 0.0 && s * v == m * n && t * (k * v) == (k * m) * n
    ensures s == t
  {
    MulAssoc(k, m, n);
    MulAssoc(t, k, v);
    MulAssoc(k, t, v);
    assert k * (t * v) == k * (m * n);
    Cancel(t * v, m * n, k);
    Cancel(s, t, v);
  }

  /** The unit in which returns are measured does not matter: multiplying all of them leaves the ratio as it is, as
      long as they vary. */
  lemma SharpeIgnoresScale(xs: seq<real>, c: real, root: real -> real)
    requires SquareRoot(root) && c > 0.0 && |xs| >= 2 && Variance(xs) > 0.0
    ensures Sharpe(Times(c, xs), root) == Sharpe(xs, root)
  {
    VarianceOfMultiple(c, xs);
    ScaleSign(c, Variance(xs));
    ScaleSign(c, Sum(xs));
    ScaleSign(Square(c), Variance(xs));
    hide Sharpe, Variance, Sum, Mean, Square, Scale;
    SharpeMagnitude(xs, root);
    SharpeMagnitude(Times(c, xs), root);
    SameRatio(Sharpe(xs, root), Sharpe(Times(c, xs), root), Variance(xs), Mean(xs), c, Periods(xs));
    RootsArePositive(root);
    SharpeSign(xs, root);
    SharpeSign(Times(c, xs), root);
    SameSquareSameSign(Sharpe(xs, root), Sharpe(Times(c, xs), root));
  }

  function Min(x: real, y: real): real { if x < y then x else y }
  function Max(x: real, y: real): real { if x > y then x else y }

  function Abs(x: real): real { if x < 0.0 then -x else x }

  function Magnitudes(xs: seq<real>): seq<real> { seq(|xs|, i requires 0 <= i < |xs| => Abs(xs[i])) }

  /** Gross profit and gross loss: their difference is the sum of the returns, their sum that of the magnitudes. */
  lemma {:induction false} GrossSplit(pnls: seq<real>)
    ensures var w := WalkAll(pnls); w.profit - w.loss == Sum(pnls) && w.profit + w.loss == Sum(Magnitudes(pnls))
    ensures WalkAll(pnls).profit >= 0.0 && WalkAll(pnls).loss >= 0.0
  {
    hide Grow, Fall;
    if pnls != [] {
      GrossSplit(pnls[..|pnls| - 1]);
      assert Magnitudes(pnls)[..|pnls| - 1] == Magnitudes(pnls[..|pnls| - 1]);
    }
  }

  /** The Sharpe ratio has the sign of the sum of the returns, also when they do not vary. */
  lemma SharpeSign(xs: seq<real>, root: real -> real)
    requires |xs| > 1 && PositiveRoot(root)
    ensures (Sharpe(xs, root) > 0.0 <==> Sum(xs) > 0.0) && (Sharpe(xs, root) < 0.0 <==> Sum(xs) < 0.0)
  {
    hide Sum, Variance;
    var std := if Variance(xs) > 0.0 then root(Variance(xs)) else 0.001;
    SignOfQuotient(Sum(xs), |xs| as real);
    SignOfQuotient(Mean(xs), std);
    SignOfProduct(Mean(xs) / std, root((if |xs| < 252 then |xs| else 252) as real));
  }

  /** For two or more trades the profit factor is above, at or below 1 exactly as the Sharpe ratio is above, at or
      below 0; the caps applied before rounding do not change that. */
  lemma ProfitFactorAgreesWithSharpe(pnls: seq<real>, root: real -> real)
    requires |pnls| > 1 && PositiveRoot(root)
    ensures var pf, sharpe := Min(ProfitFactor(WalkAll(pnls)), 9999.0), Max(Min(Sharpe(pnls, root), 9999.0), -9999.0);
            && (pf > 1.0 <==> sharpe > 0.0)
            && (pf < 1.0 <==> sharpe < 0.0)
            && (pf > 1.0 <==> Sum(pnls) > 0.0)
  {
    hide WalkAll, Sharpe, Sum;
    GrossSplit(pnls);
    SharpeSign(pnls, root);
    var w := WalkAll(pnls);
    if w.loss > 0.0 {
      QuotientVsOne(w.profit, w.loss);
    }
  }

  // ---------- The two functions of the seed script ----------

  datatype PairMetrics = PairMetrics(totalReturn: real, profitFactor: real, maxDrawdown: real,
                                     sharpeRatio: real, tradeCount: nat)

  const FLAT := PairMetrics(0.0, 1.0, 0.0, 0.0, 0)

  /** The returns of the trades that the metrics of one pair are computed from. */
  function PairReturns(signals: seq<Signal>): seq<real> {
    Returns(Pair(SortByTime(signals)).completed)
  }

  function MetricsOf(pnls: seq<real>, root: real -> real): PairMetrics {
    if pnls == [] then FLAT
    else
      var w := WalkAll(pnls);
      PairMetrics(Round6(w.cumulative - 1.0), Round4(Min(ProfitFactor(w), 9999.0)),
                  Round6(w.maxDd),
                  Round4(Max(Min(Sharpe(pnls, root), 9999.0), -9999.0)), |pnls|)
  }

  lemma FewSignalsNoTrades(signals: seq<Signal>)
    requires |signals| < 2
    ensures Pair(SortByTime(signals)).completed == []
  {
    if |signals| == 1 {
      assert signals[..0] == [];
      assert SortByTime(signals) == signals;
      assert Pair([]) == Pairing([], None);
    }
  }

  /** The pairing loop: the return of each trade whose entry price is positive. */
  method CollectReturns(sorted: seq<Signal>) returns (pnls: seq<real>)
    ensures pnls == Returns(Pair(sorted).completed)
  {
    pnls := [];
    var pendingBuy: Option<Signal> := None;
    for i := 0 to |sorted|
      invariant pendingBuy == Pair(sorted[..i]).pending
      invariant pnls == Returns(Pair(sorted[..i]).completed)
    {
      var sig := sorted[i];
      PairExtends(sorted, i);
      if sig.direction.Buy? && pendingBuy.None? {
        pendingBuy := Some(sig);
      } else if sig.direction.Sell? && pendingBuy.Some? {
        ghost var done, t := Pair(sorted[..i]).completed, Trade(pendingBuy.value, sig);
        assert (done + [t])[..|done|] == done;
        var entryPrice, exitPrice := pendingBuy.value.entryPrice, sig.entryPrice;
        if entryPrice > 0.0 {
          pnls := pnls + [(exitPrice - entryPrice) / entryPrice];
        }
        pendingBuy := None;
      }
    }
    assert sorted[..|sorted|] == sorted;
  }

  /** The loop over the returns: equity, peak, drawdown, gross profit and gross loss in one pass. */
  method FoldReturns(pnls: seq<real>) returns (cumulative: real, maxDd: real, grossProfit: real, grossLoss: real)
    ensures var w := WalkAll(pnls);
            cumulative == w.cumulative && maxDd == w.maxDd && grossProfit == w.profit && grossLoss == w.loss
  {
    hide Grow, Fall;
    var peak := 1.0;
    cumulative, maxDd, grossProfit, grossLoss := 1.0, 0.0, 0.0, 0.0;
    for i := 0 to |pnls|
      invariant WalkAll(pnls[..i]) == Walk(cumulative, peak, maxDd, grossProfit, grossLoss)
    {
      assert pnls[..i + 1][..i] == pnls[..i];
      var pnl := pnls[i];
      cumulative := Grow(cumulative, pnl);
      if pnl > 0.0 {
        grossProfit := grossProfit + pnl;
      } else {
        grossLoss := grossLoss + (-pnl);
      }
      if cumulative > peak {
        peak := cumulative;
      }
      var dd := if peak > 0.0 then Fall(peak, cumulative) else 0.0;
      if dd > maxDd {
        maxDd := dd;
      }
    }
    assert pnls[..|pnls|] == pnls;
  }

  /** Gains over losses, 10 without a loss and 1 without either. */
  predicate IsProfitFactor(pf: real, pnls: seq<real>) {
    var twiceLoss, twiceGain := Sum(Magnitudes(pnls)) - Sum(pnls), Sum(Magnitudes(pnls)) + Sum(pnls);
    if twiceLoss > 0.0 then pf * twiceLoss == twiceGain else pf == if twiceGain > 0.0 then 10.0 else 1.0
  }

  /** With the sign of the sum, and as large as SharpeMagnitude says. */
  predicate IsSharpe(sharpe: real, pnls: seq<real>, root: real -> real) {
    if |pnls| < 2 then sharpe == 0.0
    else
      && (sharpe > 0.0 <==> Sum(pnls) > 0.0) && (sharpe < 0.0 <==> Sum(pnls) < 0.0)
      && if Variance(pnls) > 0.0 then Square(sharpe) * Variance(pnls) == Square(Mean(pnls)) * Periods(pnls)
         else 0.001 * sharpe == Mean(pnls) * root(Periods(pnls))
  }

  /** The report on any returns: the end of the equity curve, the real drawdown, the profit factor and the Sharpe
      ratio; all rounded, the last two capped. */
  predicate IsReport(m: PairMetrics, pnls: seq<real>, root: real -> real, d: real, pf: real, sharpe: real) {
    && m.tradeCount == |pnls| && m.totalReturn == Round6(Equity(pnls, |pnls|) - 1.0)
    && m.maxDrawdown == Round6(d) && m.profitFactor == Round4(if pf > 9999.0 then 9999.0 else pf)
    && m.sharpeRatio == Round4(if sharpe > 9999.0 then 9999.0 else if sharpe < -9999.0 then -9999.0 else sharpe)
    && IsProfitFactor(pf, pnls) && IsSharpe(sharpe, pnls, root)
  }

  lemma ReportedMetrics(pnls: seq<real>, root: real -> real) returns (d: real, pf: real, sharpe: real)
    requires pnls != [] && SquareRoot(root)
    ensures IsReport(MetricsOf(pnls, root), pnls, root, d, pf, sharpe)
    ensures Solvent(pnls) ==> IsMaxDrawdown(pnls, d)
  {
    hide *;
    d, pf, sharpe := WalkAll(pnls).maxDd, ProfitFactor(WalkAll(pnls)), Sharpe(pnls, root);
    WalkTracksCurve(pnls);
    if Solvent(pnls) { OnePassIsRealDrawdown(pnls); }
    ReportedProfitFactor(pnls);
    ReportedSharpe(pnls, root);
    MetricsUnfold(pnls, root);
    ReportUnfolds(MetricsOf(pnls, root), pnls, root, d, pf, sharpe);
  }

  lemma ReportUnfolds(m: PairMetrics, pnls: seq<real>, root: real -> real, d: real, pf: real, sharpe: real)
    requires m.tradeCount == |pnls| && m.totalReturn == Round6(Equity(pnls, |pnls|) - 1.0)
    requires m.maxDrawdown == Round6(d) && m.profitFactor == Round4(if pf > 9999.0 then 9999.0 else pf)
    requires m.sharpeRatio
             == Round4(if sharpe > 9999.0 then 9999.0 else if sharpe < -9999.0 then -9999.0 else sharpe)
    requires IsProfitFactor(pf, pnls) && IsSharpe(sharpe, pnls, root)
    ensures IsReport(m, pnls, root, d, pf, sharpe)
  {
    hide Round4, Round6, Equity, IsProfitFactor, IsSharpe;
  }

  lemma MetricsUnfold(pnls: seq<real>, root: real -> real)
    requires pnls != []
    ensures var m, w := MetricsOf(pnls, root), WalkAll(pnls);
            var pf, sharpe := ProfitFactor(w), Sharpe(pnls, root);
            && m.tradeCount == |pnls| && m.totalReturn == Round6(w.cumulative - 1.0) && m.maxDrawdown == Round6(w.maxDd)
            && m.profitFactor == Round4(if pf > 9999.0 then 9999.0 else pf)
            && m.sharpeRatio == Round4(if sharpe > 9999.0 then 9999.0 else if sharpe < -9999.0 then -9999.0 else sharpe)
  {
    hide Round4, Round6, WalkAll, Sharpe, ProfitFactor;
  }

  lemma ReportedProfitFactor(pnls: seq<real>)
    ensures IsProfitFactor(ProfitFactor(WalkAll(pnls)), pnls)
  {
    hide WalkAll, Sum, Magnitudes;
    GrossSplit(pnls);
    var w := WalkAll(pnls);
    if w.loss > 0.0 { TwiceOver(w.profit, w.loss); }
  }

  lemma ReportedSharpe(pnls: seq<real>, root: real -> real)
    requires SquareRoot(root)
    ensures IsSharpe(Sharpe(pnls, root), pnls, root)
  {
    hide Sharpe, Sum, Variance, Mean, Square;
    SharpeMagnitude(pnls, root);
    RootsArePositive(root);
    if |pnls| > 1 { SharpeSign(pnls, root); }
  }

  lemma TwiceOver(profit: real, loss: real)
    requires loss > 0.0
    ensures (profit / loss) * (2.0 * loss) == 2.0 * profit
  {
    var q := profit / loss;
    assert q * loss == profit;
    assert q * (2.0 * loss) == 2.0 * (q * loss);
  }

  /** Pair, then fold: the metrics of one trading pair. */
  method ComputePairMetrics(signals: seq<Signal>, root: real -> real) returns (m: PairMetrics)
    ensures m == MetricsOf(PairReturns(signals), root)
    ensures PairReturns(signals) == [] ==> m == PairMetrics(0.0, 1.0, 0.0, 0.0, 0)
    ensures PairReturns(signals) != [] && SquareRoot(root) ==>
              exists d, pf, sharpe :: IsReport(m, PairReturns(signals), root, d, pf, sharpe)
                                      && (Solvent(PairReturns(signals)) ==> IsMaxDrawdown(PairReturns(signals), d))
  {
    hide Sharpe, Round4, Round6, Solvent, IsMaxDrawdown, IsReport;
    if PairReturns(signals) != [] && SquareRoot(root) {
      var d, pf, sharpe := ReportedMetrics(PairReturns(signals), root);
    }
    if |signals| < 2 {
      FewSignalsNoTrades(signals);
      return FLAT;
    }
    var pnls := CollectReturns(SortByTime(signals));
    if pnls == [] {
      return FLAT;
    }
    var cumulative, maxDd, grossProfit, grossLoss := FoldReturns(pnls);
    var profitFactor := if grossLoss > 0.0 then grossProfit / grossLoss else if grossProfit > 0.0 then 10.0 else 1.0;
    m := PairMetrics(Round6(cumulative - 1.0), Round4(Min(profitFactor, 9999.0)), Round6(maxDd),
                     Round4(Max(Min(Sharpe(pnls, root), 9999.0), -9999.0)), |pnls|);
  }

  lemma {:induction false} SortKeepsSignals(s: seq<Signal>)
    ensures forall x :: x in SortByTime(s) ==> x in s
  {
    if s != [] {
      var n := |s| - 1;
      var r := SortByTime(s[..n]);
      SortKeepsSignals(s[..n]);
      forall x | x in SortByTime(s) ensures x in s {
        var k := InsertAt(r, s[n]);
        assert x in r[..k] || x == s[n] || x in r[k..];
        assert x in r ==> x in s[..n];
      }
    }
  }

  lemma {:induction false} TradesAreSignals(s: seq<Signal>)
    ensures forall t :: t in Pair(s).completed ==> t.entry in s && t.exit in s
    ensures Pair(s).pending.Some? ==> Pair(s).pending.value in s
  {
    if s != [] { TradesAreSignals(s[..|s| - 1]); }
  }

  lemma PairReturnsSolvent(signals: seq<Signal>)
    requires forall x :: x in signals ==> x.entryPrice >= 0.0
    ensures Solvent(PairReturns(signals))
  {
    hide SortByTime, Pair, Returns, Solvent;
    var sorted := SortByTime(signals);
    SortKeepsSignals(signals);
    TradesAreSignals(sorted);
    SolventIffExitsNonNegative(Pair(sorted).completed);
  }

  lemma NoTradesFlat()
    ensures WalkAll([]).maxDd == 0.0 && Equity([], 0) == 1.0 && Round6(0.0) == 0.0
  {
  }

  predicate PositivePrices(signals: seq<Signal>) { forall x :: x in signals ==> x.entryPrice > 0.0 }

  lemma {:induction false} PositivePricesKeepSomething(trades: seq<Trade>)
    requires forall t :: t in trades ==> t.exit.entryPrice > 0.0
    ensures forall k | 0 <= k < |Returns(trades)| :: Returns(trades)[k] > -1.0
  {
    hide Pnl;
    if trades != [] {
      var t := trades[|trades| - 1];
      assert t in trades;
      PositivePricesKeepSomething(trades[..|trades| - 1]);
      if t.entry.entryPrice > 0.0 { PositivePnl(t); }
    }
  }

  lemma PositivePnl(t: Trade)
    requires t.entry.entryPrice > 0.0 && t.exit.entryPrice > 0.0
    ensures Pnl(t) > -1.0
  {
    var entry, exit := t.entry.entryPrice, t.exit.entryPrice;
    SignOfQuotient(exit, entry);
    FallIsLostFraction(entry, exit);
    assert (exit - entry) / entry == -((entry - exit) / entry);
  }

  /** With prices that are not negative, the drawdown the metrics report for a pair is the rounded real drawdown
      of its equity curve, and its total return is the rounded end of that curve minus one. With positive prices that
      drawdown is below 1. */
  lemma PairDrawdownIsReal(signals: seq<Signal>, root: real -> real)
    requires forall x :: x in signals ==> x.entryPrice >= 0.0
    ensures var pnls, m := PairReturns(signals), MetricsOf(PairReturns(signals), root);
            && m.totalReturn == Round6(Equity(pnls, |pnls|) - 1.0)
            && exists d :: IsMaxDrawdown(pnls, d) && 0.0 <= d <= 1.0 && m.maxDrawdown == Round6(d)
                           && (PositivePrices(signals) ==> d < 1.0)
  {
    PositiveDrawdown(signals);
    hide Grow, Fall, Sharpe, Round4, Round6, IsMaxDrawdown, PairReturns, Equity, WalkAll, Solvent;
    var pnls := PairReturns(signals);
    PairReturnsSolvent(signals);
    OnePassIsRealDrawdown(pnls);
    WalkTracksCurve(pnls);
    NoTradesFlat();
    assert IsMaxDrawdown(pnls, WalkAll(pnls).maxDd);
  }

  lemma PositiveDrawdown(signals: seq<Signal>)
    requires forall x :: x in signals ==> x.entryPrice >= 0.0
    ensures PositivePrices(signals) ==> WalkAll(PairReturns(signals)).maxDd < 1.0
  {
    var sorted := SortByTime(signals);
    SortKeepsSignals(signals);
    TradesAreSignals(sorted);
    PairReturnsSolvent(signals);
    hide Pair, WalkAll, Solvent, SortByTime;
    OnePassIsRealDrawdown(PairReturns(signals));
    if PositivePrices(signals) {
      PositivePricesKeepSomething(Pair(sorted).completed);
    }
  }

  function EntryProduct(trades: seq<Trade>): real {
    if trades == [] then 1.0
    else Scale(EntryProduct(trades[..|trades| - 1]), trades[|trades| - 1].entry.entryPrice)
  }

  function ExitProduct(trades: seq<Trade>): real {
    if trades == [] then 1.0
    else Scale(ExitProduct(trades[..|trades| - 1]), trades[|trades| - 1].exit.entryPrice)
  }

  lemma GrowByTrade(entries: real, equity: real, t: Trade)
    requires t.entry.entryPrice > 0.0
    ensures Scale(Scale(entries, t.entry.entryPrice), Grow(equity, Pnl(t)))
            == Scale(Scale(entries, equity), t.exit.entryPrice)
  {
    PnlIsReturn(t);
    var entry, growth := t.entry.entryPrice, 1.0 + Pnl(t);
    hide Pnl;
    MulAssoc(entries, entry, equity * growth);
    MulAssoc(equity, growth, entry);
    MulAssoc(entries, equity, entry * growth);
  }

  /** The end of the equity curve is what the prices say: the product of the exit prices over that of the entries. */
  lemma {:induction false} EquityIsPriceRatio(trades: seq<Trade>)
    requires PositiveEntries(trades)
    ensures |Returns(trades)| == |trades|
    ensures Scale(EntryProduct(trades), Equity(Returns(trades), |trades|)) == ExitProduct(trades)
  {
    hide Scale, Grow, Pnl;
    if trades == [] {
      ScaleByOne(1.0);
    } else {
      var n := |trades| - 1;
      assert forall k | 0 <= k < n :: trades[..n][k] == trades[k];
      EquityIsPriceRatio(trades[..n]);
      assert Returns(trades)[..n] == Returns(trades[..n]);
      EquityOfPrefix(Returns(trades), n, n);
      GrowByTrade(EntryProduct(trades[..n]), Equity(Returns(trades), n), trades[n]);
    }
  }

  datatype Aggregate = Aggregate(tradeCount: nat, maxDrawdown: real, sharpeRatio: real, winRate: real)

  function IsWin(t: Trade): bool { t.exit.entryPrice > t.entry.entryPrice }

  function CountWins(trades: seq<Trade>): (n: nat)
    ensures n <= |trades|
  {
    if trades == [] then 0
    else CountWins(trades[..|trades| - 1]) + if IsWin(trades[|trades| - 1]) then 1 else 0
  }

  /** Every completed trade of every pair, in order. */
  function AllTrades(pairs: seq<seq<Signal>>): seq<Trade> {
    if pairs == [] then []
    else AllTrades(pairs[..|pairs| - 1]) + Pair(SortByTime(pairs[|pairs| - 1])).completed
  }

  function TotalTrades(ms: seq<PairMetrics>): nat {
    if ms == [] then 0 else TotalTrades(ms[..|ms| - 1]) + ms[|ms| - 1].tradeCount
  }

  function WeightedSharpe(ms: seq<PairMetrics>): real {
    if ms == [] then 0.0
    else WeightedSharpe(ms[..|ms| - 1]) + ms[|ms| - 1].sharpeRatio * ms[|ms| - 1].tradeCount as real
  }

  /** The Sharpe ratios averaged with the trade counts as weights. */
  function MeanSharpe(ms: seq<PairMetrics>): real {
    if TotalTrades(ms) > 0 then WeightedSharpe(ms) / TotalTrades(ms) as real else 0.0
  }

  function Counts(ms: seq<PairMetrics>): seq<real> {
    seq(|ms|, i requires 0 <= i < |ms| => ms[i].tradeCount as real)
  }

  function WeightedRatios(ms: seq<PairMetrics>): seq<real> {
    seq(|ms|, i requires 0 <= i < |ms| => Scale(ms[i].sharpeRatio, ms[i].tradeCount as real))
  }

  lemma {:induction false} WeightsAreCounts(ms: seq<PairMetrics>)
    ensures TotalTrades(ms) as real == Sum(Counts(ms))
    ensures WeightedSharpe(ms) == Sum(WeightedRatios(ms))
  {
    if ms != [] {
      var n := |ms| - 1;
      WeightsAreCounts(ms[..n]);
      assert Counts(ms)[..n] == Counts(ms[..n]) && WeightedRatios(ms)[..n] == WeightedRatios(ms[..n]);
    }
  }

  lemma {:induction false} WeightedBetween(ms: seq<PairMetrics>, lo: real, hi: real)
    requires forall k | 0 <= k < |ms| :: lo <= ms[k].sharpeRatio <= hi
    ensures Scale(lo, TotalTrades(ms) as real) <= WeightedSharpe(ms) <= Scale(hi, TotalTrades(ms) as real)
  {
    if ms != [] {
      var n := |ms| - 1;
      WeightedBetween(ms[..n], lo, hi);
      WeightBetween(ms[n].sharpeRatio, lo, hi, ms[n].tradeCount as real);
      Distribute(lo, TotalTrades(ms[..n]) as real, ms[n].tradeCount as real);
      Distribute(hi, TotalTrades(ms[..n]) as real, ms[n].tradeCount as real);
      assert WeightedSharpe(ms) == WeightedSharpe(ms[..n]) + Scale(ms[n].sharpeRatio, ms[n].tradeCount as real);
      hide Scale;
    }
  }

  lemma WeightBetween(x: real, lo: real, hi: real, weight: real)
    requires lo <= x <= hi && weight >= 0.0
    ensures Scale(lo, weight) <= Scale(x, weight) <= Scale(hi, weight)
  {
    MulNonNegative(x - lo, weight);
    MulNonNegative(hi - x, weight);
  }

  lemma MeanBetween(lo: real, hi: real, mean: real, total: real, weighted: real)
    requires total > 0.0 && mean == weighted / total && Scale(lo, total) <= weighted <= Scale(hi, total)
    ensures lo <= mean <= hi
  {
    assert mean * total == weighted;
    CancelOrder(lo, mean, total);
    CancelOrder(mean, hi, total);
  }

  /** The aggregated ratio is the mean of the pairs' ratios with their trade counts as weights: times the number of all
      trades it is the weighted sum, so it lies between the least and the greatest ratio. */
  lemma MeanSharpeIsWeighted(ms: seq<PairMetrics>, lo: real, hi: real)
    ensures TotalTrades(ms) as real == Sum(Counts(ms))
    ensures Sum(Counts(ms)) > 0.0 ==> Scale(MeanSharpe(ms), Sum(Counts(ms))) == Sum(WeightedRatios(ms))
    ensures Sum(Counts(ms)) > 0.0 && (forall k | 0 <= k < |ms| :: lo <= ms[k].sharpeRatio <= hi) ==>
              lo <= MeanSharpe(ms) <= hi
    ensures Sum(Counts(ms)) <= 0.0 ==> MeanSharpe(ms) == 0.0
  {
    WeightsAreCounts(ms);
    var total, mean := TotalTrades(ms) as real, MeanSharpe(ms);
    hide TotalTrades, WeightedSharpe, Sum, Counts, WeightedRatios;
    if total > 0.0 {
      assert mean * total == WeightedSharpe(ms);
      if forall k | 0 <= k < |ms| :: lo <= ms[k].sharpeRatio <= hi {
        WeightedBetween(ms, lo, hi);
        MeanBetween(lo, hi, mean, total, WeightedSharpe(ms));
      }
    }
  }

  function WorstDrawdown(ms: seq<PairMetrics>): (d: real)
    requires ms != []
    ensures forall k | 0 <= k < |ms| :: ms[k].maxDrawdown <= d
    ensures exists k | 0 <= k < |ms| :: ms[k].maxDrawdown == d
  {
    var last := ms[|ms| - 1].maxDrawdown;
    if |ms| == 1 then last
    else
      var rest := WorstDrawdown(ms[..|ms| - 1]);
      assert forall k | 0 <= k < |ms| - 1 :: ms[..|ms| - 1][k] == ms[k];
      if last > rest then last else rest
  }

  lemma {:induction false} CountWinsSplits(a: seq<Trade>, b: seq<Trade>)
    ensures CountWins(a + b) == CountWins(a) + CountWins(b)
  {
    if b == [] {
      assert a + b == a;
    } else {
      CountWinsSplits(a, b[..|b| - 1]);
      assert (a + b)[..|a + b| - 1] == a + b[..|b| - 1];
    }
  }

  /** The second pairing loop, over one pair: it counts every completed trade, and the ones that gained. */
  method CountTrades(sorted: seq<Signal>) returns (wins: nat, completed: nat)
    ensures completed == |Pair(sorted).completed| && wins == CountWins(Pair(sorted).completed)
  {
    wins, completed := 0, 0;
    var pendingBuy: Option<Signal> := None;
    for i := 0 to |sorted|
      invariant pendingBuy == Pair(sorted[..i]).pending
      invariant completed == |Pair(sorted[..i]).completed|
      invariant wins == CountWins(Pair(sorted[..i]).completed)
    {
      var sig := sorted[i];
      PairExtends(sorted, i);
      if sig.direction.Buy? && pendingBuy.None? {
        pendingBuy := Some(sig);
      } else if sig.direction.Sell? && pendingBuy.Some? {
        ghost var done, t := Pair(sorted[..i]).completed, Trade(pendingBuy.value, sig);
        assert (done + [t])[..|done|] == done;
        if sig.entryPrice > pendingBuy.value.entryPrice {
          wins := wins + 1;
        }
        completed := completed + 1;
        pendingBuy := None;
      }
    }
    assert sorted[..|sorted|] == sorted;
  }

  function WinRate(trades: seq<Trade>): (r: real)
    ensures 0.0 <= r <= 1.0
  {
    if trades == [] then 0.0
    else
      QuotientInUnit(CountWins(trades) as real, |trades| as real);
      CountWins(trades) as real / |trades| as real
  }

  /** The positions of the trades that closed higher. */
  function Winners(trades: seq<Trade>): set<nat> {
    set k: nat | k < |trades| && trades[k].exit.entryPrice > trades[k].entry.entryPrice
  }

  lemma {:induction false} WinsAreWinners(trades: seq<Trade>)
    ensures CountWins(trades) == |Winners(trades)|
  {
    if trades != [] {
      var n := |trades| - 1;
      WinsAreWinners(trades[..n]);
      assert Winners(trades) == Winners(trades[..n]) + (if IsWin(trades[n]) then {n} else {});
    }
  }

  lemma WinRateIsShare(trades: seq<Trade>)
    ensures WinRate(trades) * |trades| as real == |Winners(trades)| as real
    ensures trades == [] ==> WinRate(trades) == 0.0
  {
    WinsAreWinners(trades);
  }

  /** All trades: those of each pair, one pair after the other. */
  lemma {:induction false} AllTradesSplit(pairs: seq<seq<Signal>>, more: seq<seq<Signal>>, one: seq<Signal>)
    ensures AllTrades(pairs + more) == AllTrades(pairs) + AllTrades(more)
    ensures AllTrades([one]) == Pair(SortByTime(one)).completed && AllTrades([]) == []
  {
    hide Pair, SortByTime;
    assert [one][..0] == [] && [] + Pair(SortByTime(one)).completed == Pair(SortByTime(one)).completed;
    if more == [] {
      assert pairs + more == pairs;
    } else {
      AllTradesSplit(pairs, more[..|more| - 1], one);
      assert (pairs + more)[..|pairs + more| - 1] == pairs + more[..|more| - 1];
    }
  }

  method SumWeightedSharpe(ms: seq<PairMetrics>) returns (weighted: real)
    ensures weighted == WeightedSharpe(ms)
  {
    weighted := 0.0;
    for i := 0 to |ms|
      invariant weighted == WeightedSharpe(ms[..i])
    {
      assert ms[..i + 1][..i] == ms[..i];
      weighted := weighted + ms[i].sharpeRatio * ms[i].tradeCount as real;
    }
    assert ms[..|ms|] == ms;
  }

  /** The aggregate of a strategy over its pairs. */
  method ComputeStrategyAggregate(ms: seq<PairMetrics>, pairs: seq<seq<Signal>>) returns (a: Aggregate)
    ensures ms == [] ==> a == Aggregate(0, 0.0, 0.0, 0.0)
    ensures ms != [] ==>
              && a.tradeCount == TotalTrades(ms)
              && a.maxDrawdown == Round6(WorstDrawdown(ms))
              && a.sharpeRatio == Round4(MeanSharpe(ms))
              && a.winRate == Round4(WinRate(AllTrades(pairs)))
    ensures 0.0 <= a.winRate <= 1.0
  {
    if ms == [] {
      return Aggregate(0, 0.0, 0.0, 0.0);
    }
    hide Round4, Round6, WeightedSharpe, TotalTrades;
    var totalTrades := TotalTrades(ms);
    var weighted := 0.0;
    if totalTrades > 0 {
      weighted := SumWeightedSharpe(ms);
      weighted := weighted / totalTrades as real;
    }
    var totalWins, totalCompleted := 0, 0;
    for p := 0 to |pairs|
      invariant totalCompleted == |AllTrades(pairs[..p])|
      invariant totalWins == CountWins(AllTrades(pairs[..p]))
    {
      assert pairs[..p + 1][..p] == pairs[..p];
      var sorted := SortByTime(pairs[p]);
      var wins, completed := CountTrades(sorted);
      CountWinsSplits(AllTrades(pairs[..p]), Pair(sorted).completed);
      totalWins, totalCompleted := totalWins + wins, totalCompleted + completed;
    }
    assert pairs[..|pairs|] == pairs;
    var winRate := if totalCompleted > 0 then totalWins as real / totalCompleted as real else 0.0;
    assert winRate == WinRate(AllTrades(pairs));
    RoundInUnit(winRate);
    a := Aggregate(totalTrades, Round6(WorstDrawdown(ms)), Round4(weighted), Round4(winRate));
  }

  // ---------- The two folds agree ----------

  function CountPositive(xs: seq<real>): nat {
    if xs == [] then 0 else CountPositive(xs[..|xs| - 1]) + if xs[|xs| - 1] > 0.0 then 1 else 0
  }

  predicate PositiveEntries(trades: seq<Trade>) {
    forall k | 0 <= k < |trades| :: trades[k].entry.entryPrice > 0.0
  }

  /** Each completed trade is recorded exactly when every entry price is positive; then wins are the gains. */
  lemma {:induction false} RecordedIffPositive(trades: seq<Trade>)
    ensures |Returns(trades)| <= |trades|
    ensures |Returns(trades)| == |trades| <==> PositiveEntries(trades)
    ensures PositiveEntries(trades) ==> CountPositive(Returns(trades)) == CountWins(trades)
  {
    if trades != [] {
      var n := |trades| - 1;
      RecordedIffPositive(trades[..n]);
      var t, rest := trades[n], Returns(trades[..n]);
      assert PositiveEntries(trades) <==> PositiveEntries(trades[..n]) && t.entry.entryPrice > 0.0 by {
        assert forall k | 0 <= k < n :: trades[..n][k] == trades[k];
      }
      if t.entry.entryPrice > 0.0 {
        assert (rest + [Pnl(t)])[..|rest|] == rest;
        SignOfQuotient(t.exit.entryPrice - t.entry.entryPrice, t.entry.entryPrice);
      }
    }
  }

  /** The gains among the recorded trades of every pair. */
  function TotalGains(pairs: seq<seq<Signal>>): nat {
    if pairs == [] then 0 else TotalGains(pairs[..|pairs| - 1]) + CountPositive(PairReturns(pairs[|pairs| - 1]))
  }

  /** The second loop counts the trades that the first one recorded exactly when every entry price is positive,
      and then its wins are the trades with a positive return. */
  lemma {:induction false} TwoFoldsAgree(ms: seq<PairMetrics>, pairs: seq<seq<Signal>>, root: real -> real)
    requires |ms| == |pairs|
    requires forall k | 0 <= k < |ms| :: ms[k] == MetricsOf(PairReturns(pairs[k]), root)
    ensures TotalTrades(ms) <= |AllTrades(pairs)|
    ensures TotalTrades(ms) == |AllTrades(pairs)| <==> PositiveEntries(AllTrades(pairs))
    ensures PositiveEntries(AllTrades(pairs)) ==> CountWins(AllTrades(pairs)) == TotalGains(pairs)
  {
    hide MetricsOf, Returns, Pair, SortByTime, PositiveEntries, CountWins, CountPositive;
    if ms == [] {
      NothingTraded();
    } else {
      var n := |ms| - 1;
      assert forall k | 0 <= k < n :: ms[..n][k] == ms[k] && pairs[..n][k] == pairs[k];
      TwoFoldsAgree(ms[..n], pairs[..n], root);
      var earlier, last := AllTrades(pairs[..n]), Pair(SortByTime(pairs[n])).completed;
      RecordedIffPositive(last);
      CountWinsSplits(earlier, last);
      PositiveEntriesSplit(earlier, last);
      MetricsCountTrades(PairReturns(pairs[n]), root);
    }
  }

  lemma NothingTraded()
    ensures PositiveEntries([]) && CountWins([]) == 0
  {
  }

  lemma MetricsCountTrades(pnls: seq<real>, root: real -> real)
    ensures MetricsOf(pnls, root).tradeCount == |pnls|
  {
    hide Round4, Round6, Sharpe, WalkAll, ProfitFactor;
  }

  lemma PositiveEntriesSplit(a: seq<Trade>, b: seq<Trade>)
    ensures PositiveEntries(a + b) <==> PositiveEntries(a) && PositiveEntries(b)
  {
    assert forall k | 0 <= k < |a| :: (a + b)[k] == a[k];
    assert forall k | 0 <= k < |b| :: (a + b)[|a| + k] == b[k];
  }
}
