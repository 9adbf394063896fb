/** The timestamp-guarded upsert of strategy_pair_metrics, its retry loop, and what a whole history of
    writes to one key amounts to. */
module PairMetrics {
  import opened Common
  import opened MetricsValidator

  datatype Source = Backtest | Live
  datatype Key = Key(strategyId: int, pair: string, timeframe: string)
  datatype Write = Write(metrics: Metrics, source: Source, at: int)
  datatype Row = Row(metrics: Metrics, source: Source, updatedAt: int)

  // ---------- One statement ----------

  function Coalesce<T>(x: Option<T>, y: Option<T>): Option<T> {
    if x.Some? then x else y
  }

  /** SET list of the BACKTEST branch: a given value is taken as it is, a missing one is coalesced. */
  function BacktestSet(w: Write, row: Row): Row {
    var (e, t) := (w.metrics, row.metrics);
    Row(Metrics(
          if e.totalReturn.Some? then e.totalReturn else Coalesce(e.totalReturn, t.totalReturn),
          if e.profitFactor.Some? then e.profitFactor else Coalesce(e.profitFactor, t.profitFactor),
          if e.maxDrawdown.Some? then e.maxDrawdown else Coalesce(e.maxDrawdown, t.maxDrawdown),
          if e.sharpeRatio.Some? then e.sharpeRatio else Coalesce(e.sharpeRatio, t.sharpeRatio),
          if e.tradeCount.Some? then e.tradeCount else Coalesce(e.tradeCount, t.tradeCount)),
        w.source, w.at)
  }

  /** SET list of the LIVE branch: every field is coalesced. */
  function LiveSet(w: Write, row: Row): Row {
    var (e, t) := (w.metrics, row.metrics);
    Row(Metrics(
          Coalesce(e.totalReturn, t.totalReturn),
          Coalesce(e.profitFactor, t.profitFactor),
          Coalesce(e.maxDrawdown, t.maxDrawdown),
          Coalesce(e.sharpeRatio, t.sharpeRatio),
          Coalesce(e.tradeCount, t.tradeCount)),
        w.source, w.at)
  }

  function RowOf(w: Write): Row { Row(w.metrics, w.source, w.at) }

  /** INSERT ... ON CONFLICT DO UPDATE ... WHERE table.last_updated_at < excluded.last_updated_at. */
  function Execute(row: Option<Row>, w: Write): Option<Row> {
    if row.None? then Some(RowOf(w))
    else if row.value.updatedAt < w.at then
      Some(if w.source.Backtest? then BacktestSet(w, row.value) else LiveSet(w, row.value))
    else row
  }

  /** One successful call for one key: a write the validator rejects is dropped. */
  function Apply(row: Option<Row>, w: Write): Option<Row> {
    if Valid(w.metrics) then Execute(row, w) else row
  }

  /** The two branches differ in nothing but the stored source. */
  lemma BranchesAgree(w: Write, row: Row)
    ensures BacktestSet(w, row) == LiveSet(w, row)
  {
  }

  /** The LIVE branch is meant not to overwrite better backtest data. It keeps every stored metric exactly when
      the write is stale or each value it carries is null or already stored. */
  lemma LiveKeepsStoredMetrics(row: Row, w: Write)
    requires w.source.Live? && Valid(w.metrics)
    ensures Apply(Some(row), w).value.metrics == row.metrics <==>
            (w.at <= row.updatedAt
             || (w.metrics.totalReturn in {None, row.metrics.totalReturn}
                && w.metrics.profitFactor in {None, row.metrics.profitFactor}
                && w.metrics.maxDrawdown in {None, row.metrics.maxDrawdown}
                && w.metrics.sharpeRatio in {None, row.metrics.sharpeRatio}
                && w.metrics.tradeCount in {None, row.metrics.tradeCount}))
  {
  }

  // ---------- The service call ----------

  const MAX_RETRIES := 3

  datatype Outcome = Stored | Rejected | Raised

  /** Whether one of the first `n` attempts meets no connection error. */
  predicate SomeAttemptWorks(outage: nat -> bool, n: nat) {
    exists i | 1 <= i <= n :: !outage(i)
  }

  class MetricsStore {
    var rows: map<Key, Row>

    function Lookup(k: Key): Option<Row>
      reads this
    {
      if k in rows then Some(rows[k]) else None
    }

    /** The statement reaches the table. */
    method Run(k: Key, w: Write)
      modifies this
      ensures Lookup(k) == Execute(old(Lookup(k)), w)
      ensures forall k' :: k' != k ==> Lookup(k') == old(Lookup(k'))
    {
      var row := Execute(Lookup(k), w);
      rows := rows[k := row.value];
    }

    /** Up to three attempts with a growing pause between them; `outage(i)` says that attempt i meets a
        connection error. The statement runs at most once. */
    method ExecuteWithRetry(k: Key, w: Write, outage: nat -> bool) returns (ok: bool, slept: int)
      modifies this
      ensures ok <==> SomeAttemptWorks(outage, MAX_RETRIES)
      ensures Lookup(k) == if ok then Execute(old(Lookup(k)), w) else old(Lookup(k))
      ensures forall k' :: k' != k ==> Lookup(k') == old(Lookup(k'))
      ensures slept == if !outage(1) then 0 else if !outage(2) then 1 else 3
    {
      slept := 0;
      var attempt, delay := 1, 1;
      while attempt <= MAX_RETRIES
        invariant 1 <= attempt <= MAX_RETRIES + 1
        invariant !SomeAttemptWorks(outage, attempt - 1)
        invariant delay == [1, 2, 4, 8][attempt - 1]
        invariant slept == [0, 1, 3, 3][attempt - 1]
        invariant unchanged(this)
      {
        if !outage(attempt) {
          Run(k, w);
          assert outage(1) <==> attempt != 1;
          assert attempt == 3 ==> outage(2);
          return true, slept;
        }
        if attempt < MAX_RETRIES {
          slept := slept + delay;
        }
        attempt := attempt + 1;
        delay := delay * 2;
      }
      assert outage(1) && outage(2);
      ok := false;
    }

    /** Validate, build, execute: the outcome, and the row left behind. */
    method UpsertPairMetrics(k: Key, w: Write, outage: nat -> bool) returns (r: Outcome)
      modifies this
      ensures r.Rejected? <==> !Valid(w.metrics)
      ensures r.Raised? <==> Valid(w.metrics) && !SomeAttemptWorks(outage, MAX_RETRIES)
      ensures Lookup(k) == if r.Raised? then old(Lookup(k)) else Apply(old(Lookup(k)), w)
      ensures forall k' :: k' != k ==> Lookup(k') == old(Lookup(k'))
    {
      if ValidateMetrics(w.metrics).Reject? {
        return Rejected;
      }
      var ok, _ := ExecuteWithRetry(k, w, outage);
      r := if ok then Stored else Raised;
    }
  }

  // ---------- A history of writes to one key ----------

  /** The row left by a sequence of successful calls. */
  function Fold(row: Option<Row>, ws: seq<Write>): Option<Row> {
    if ws == [] then row else Apply(Fold(row, ws[..|ws| - 1]), ws[|ws| - 1])
  }

  predicate NewerThanRow(row: Option<Row>, at: int) {
    row.Some? ==> row.value.updatedAt < at
  }

  /** Write i passes the validator and is newer than the initial row and than every valid write before it. */
  predicate IsRecord(row: Option<Row>, ws: seq<Write>, i: nat)
    requires i < |ws|
  {
    && Valid(ws[i].metrics)
    && NewerThanRow(row, ws[i].at)
    && forall j | 0 <= j < i :: Valid(ws[j].metrics) ==> ws[j].at < ws[i].at
  }

  /** The strict left-to-right timestamp maxima. */
  function Records(row: Option<Row>, ws: seq<Write>): seq<Write> {
    if ws == [] then []
    else
      var n := |ws| - 1;
      Records(row, ws[..n]) + if IsRecord(row, ws, n) then [ws[n]] else []
  }

  /** The last value that is not null, or else `initial`. */
  function Latest<T>(initial: Option<T>, ws: seq<Write>, field: Metrics -> Option<T>): Option<T> {
    if ws == [] then initial
    else if field(ws[|ws| - 1].metrics).Some? then field(ws[|ws| - 1].metrics)
    else Latest(initial, ws[..|ws| - 1], field)
  }

  function StoredMetrics(row: Option<Row>): Metrics {
    if row.Some? then row.value.metrics else NO_METRICS
  }

  /** The stored timestamp is the greatest one written: nothing valid is newer, and it was really written. */
  lemma {:induction false} FoldTimestamp(row: Option<Row>, ws: seq<Write>)
    ensures var r := Fold(row, ws);
            && (r.Some? <==> row.Some? || exists i | 0 <= i < |ws| :: Valid(ws[i].metrics))
            && (forall i | 0 <= i < |ws| && Valid(ws[i].metrics) :: r.value.updatedAt >= ws[i].at)
            && (row.Some? ==> r.value.updatedAt >= row.value.updatedAt)
            && (r.Some? ==> || (row.Some? && r.value.updatedAt == row.value.updatedAt)
                            || exists i | 0 <= i < |ws| :: Valid(ws[i].metrics) && ws[i].at == r.value.updatedAt)
  {
    if ws != [] {
      var n := |ws| - 1;
      FoldTimestamp(row, ws[..n]);
      assert forall i | 0 <= i < n :: ws[..n][i] == ws[i];
      assert Valid(ws[n].metrics) ==> exists i | 0 <= i < |ws| :: Valid(ws[i].metrics);
    }
  }

  /** A write is accepted exactly when it is a left-to-right maximum. */
  lemma AcceptedIffRecord(row: Option<Row>, ws: seq<Write>, n: nat)
    requires n < |ws|
    ensures Apply(Fold(row, ws[..n]), ws[n]) != Fold(row, ws[..n]) ==> IsRecord(row, ws, n)
    ensures IsRecord(row, ws, n) ==>
              && NewerThanRow(Fold(row, ws[..n]), ws[n].at)
              && Apply(Fold(row, ws[..n]), ws[n]).value.updatedAt == ws[n].at
  {
    FoldTimestamp(row, ws[..n]);
    var r := Fold(row, ws[..n]);
    assert forall j | 0 <= j < n :: ws[..n][j] == ws[j];
    if r.Some? && IsRecord(row, ws, n) && !(row.Some? && r.value.updatedAt == row.value.updatedAt) {
      var i :| 0 <= i < n && Valid(ws[..n][i].metrics) && ws[..n][i].at == r.value.updatedAt;
      assert ws[i].at < ws[n].at;
    }
  }

  /** Each field is the latest non-null value among the accepted writes; the source is that of the last one. */
  lemma {:induction false} FoldIsLatestAccepted(row: Option<Row>, ws: seq<Write>)
    ensures var (m, init, acc) := (StoredMetrics(Fold(row, ws)), StoredMetrics(row), Records(row, ws));
            && m.totalReturn == Latest(init.totalReturn, acc, (x: Metrics) => x.totalReturn)
            && m.profitFactor == Latest(init.profitFactor, acc, (x: Metrics) => x.profitFactor)
            && m.maxDrawdown == Latest(init.maxDrawdown, acc, (x: Metrics) => x.maxDrawdown)
            && m.sharpeRatio == Latest(init.sharpeRatio, acc, (x: Metrics) => x.sharpeRatio)
            && m.tradeCount == Latest(init.tradeCount, acc, (x: Metrics) => x.tradeCount)
            && (acc != [] ==> Fold(row, ws).Some?
                              && Fold(row, ws).value.source == acc[|acc| - 1].source
                              && Fold(row, ws).value.updatedAt == acc[|acc| - 1].at)
            && (acc == [] ==> Fold(row, ws) == row)
  {
    if ws != [] {
      var n := |ws| - 1;
      FoldIsLatestAccepted(row, ws[..n]);
      AcceptedIffRecord(row, ws, n);
      var acc := Records(row, ws[..n]);
      if IsRecord(row, ws, n) {
        assert (acc + [ws[n]])[..|acc + [ws[n]]| - 1] == acc;
      } else {
        assert acc + [] == acc;
      }
    }
  }

  lemma {:induction false} FoldSplits(row: Option<Row>, ws: seq<Write>, vs: seq<Write>)
    ensures Fold(row, ws + vs) == Fold(Fold(row, ws), vs)
  {
    if vs == [] {
      assert ws + vs == ws;
    } else {
      FoldSplits(row, ws, vs[..|vs| - 1]);
      assert (ws + vs)[..|ws + vs| - 1] == ws + vs[..|vs| - 1];
    }
  }

  /** Redelivering any earlier writes, in any order and any number of times, changes nothing. */
  lemma {:induction false} ReplayChangesNothing(row: Option<Row>, ws: seq<Write>, replay: seq<Write>)
    requires forall w :: w in replay ==> w in ws
    ensures Fold(row, ws + replay) == Fold(row, ws)
  {
    FoldSplits(row, ws, replay);
    if replay != [] {
      var n := |replay| - 1;
      ReplayChangesNothing(row, ws, replay[..n]);
      FoldSplits(row, ws, replay[..n]);
      FoldTimestamp(row, ws);
      assert replay[n] in ws;
    }
  }

  predicate NullFree(m: Metrics) {
    m.totalReturn.Some? && m.profitFactor.Some? && m.maxDrawdown.Some? && m.sharpeRatio.Some? && m.tradeCount.Some?
  }

  /** With complete writes the row is the whole of the newest one, unless the initial row is newer still. */
  lemma {:induction false} CompleteWritesKeepOne(row: Option<Row>, ws: seq<Write>)
    requires forall w :: w in ws ==> NullFree(w.metrics)
    ensures var r := Fold(row, ws);
            r == row || exists w :: w in ws && Valid(w.metrics) && r == Some(RowOf(w)) && NewerThanRow(row, w.at)
  {
    if ws != [] {
      var n := |ws| - 1;
      CompleteWritesKeepOne(row, ws[..n]);
      FoldTimestamp(row, ws[..n]);
      var before, r := Fold(row, ws[..n]), Fold(row, ws);
      assert ws[n] in ws;
      if r == before && r != row {
        var w :| w in ws[..n] && Valid(w.metrics) && r == Some(RowOf(w)) && NewerThanRow(row, w.at);
        assert w in ws;
      } else if r != before {
        assert r == Some(RowOf(ws[n]));
      }
    }
  }

  /** Complete writes with distinct timestamps leave the same row in every arrival order. */
  lemma ArrivalOrderIrrelevant(row: Option<Row>, ws: seq<Write>, vs: seq<Write>)
    requires multiset(ws) == multiset(vs)
    requires forall w :: w in ws ==> NullFree(w.metrics)
    requires forall v, w :: v in ws && w in ws && v.at == w.at ==> v == w
    ensures Fold(row, ws) == Fold(row, vs)
  {
    forall w ensures w in ws <==> w in vs {
      assert w in ws <==> w in multiset(ws);
      assert w in vs <==> w in multiset(vs);
    }
    CompleteWritesKeepOne(row, ws);
    CompleteWritesKeepOne(row, vs);
    NewestWins(row, ws, vs);
    NewestWins(row, vs, ws);
  }

  lemma NewestWins(row: Option<Row>, ws: seq<Write>, vs: seq<Write>)
    requires forall w :: w in ws <==> w in vs
    ensures Fold(row, ws).Some? ==>
              Fold(row, vs).Some? && Fold(row, ws).value.updatedAt <= Fold(row, vs).value.updatedAt
  {
    FoldTimestamp(row, ws);
    FoldTimestamp(row, vs);
    var r := Fold(row, ws);
    if r.Some? && !(row.Some? && r.value.updatedAt == row.value.updatedAt) {
      var i :| 0 <= i < |ws| && Valid(ws[i].metrics) && ws[i].at == r.value.updatedAt;
      assert ws[i] in vs;
      var j :| 0 <= j < |vs| && vs[j] == ws[i];
    }
  }

  // ---------- When the arrival order matters ----------

  /** The write counts at all: it passes the validator and is newer than the stored row. */
  predicate Eligible(row: Option<Row>, w: Write) { Valid(w.metrics) && NewerThanRow(row, w.at) }

  /** Under a field that the newest write leaves null, the value is null or the one already stored. */
  predicate HarmlessField<T(==)>(newest: Option<T>, value: Option<T>, stored: Option<T>) {
    newest.None? && value.Some? ==> value == stored
  }

  predicate Harmless(stored: Metrics, newest: Metrics, m: Metrics) {
    && HarmlessField(newest.totalReturn, m.totalReturn, stored.totalReturn)
    && HarmlessField(newest.profitFactor, m.profitFactor, stored.profitFactor)
    && HarmlessField(newest.maxDrawdown, m.maxDrawdown, stored.maxDrawdown)
    && HarmlessField(newest.sharpeRatio, m.sharpeRatio, stored.sharpeRatio)
    && HarmlessField(newest.tradeCount, m.tradeCount, stored.tradeCount)
  }

  predicate IsNewest(row: Option<Row>, ws: seq<Write>, newest: Write) {
    newest in ws && Eligible(row, newest) && forall w | w in ws && Eligible(row, w) :: w.at <= newest.at
  }

  /** No eligible write brings anything new under a null of the newest one. */
  predicate OrderSafe(row: Option<Row>, ws: seq<Write>) {
    forall newest, w | newest in ws && w in ws && IsNewest(row, ws, newest) && Eligible(row, w) ::
      Harmless(StoredMetrics(row), newest.metrics, w.metrics)
  }

  /** What may be stored before the newest write arrives. */
  predicate StillOpen(row: Option<Row>, r: Option<Row>, newest: Write) {
    && NewerThanRow(r, newest.at)
    && Harmless(StoredMetrics(row), newest.metrics, StoredMetrics(r))
    && Harmless(StoredMetrics(r), newest.metrics, StoredMetrics(row))
    && (row.Some? ==> r.Some? && r.value.updatedAt >= row.value.updatedAt)
  }

  lemma OpenStep(row: Option<Row>, r: Option<Row>, newest: Write, w: Write)
    requires StillOpen(row, r, newest) && w != newest
    requires Eligible(row, w) ==> w.at < newest.at && Harmless(StoredMetrics(row), newest.metrics, w.metrics)
    ensures StillOpen(row, Apply(r, w), newest)
  {
    hide ValidateMetrics;
  }

  lemma ClosingStep(row: Option<Row>, r: Option<Row>, newest: Write)
    requires StillOpen(row, r, newest) && Eligible(row, newest)
    ensures Apply(r, newest) == Apply(row, newest)
  {
    hide ValidateMetrics;
  }

  lemma ClosedStep(row: Option<Row>, newest: Write, w: Write)
    requires Eligible(row, newest) && (Eligible(row, w) ==> w.at <= newest.at)
    ensures Apply(Apply(row, newest), w) == Apply(row, newest)
  {
    hide ValidateMetrics;
  }

  /** If no eligible write is harmful, then however the writes arrive, the newest one alone decides. */
  lemma {:induction false} NewestDecides(row: Option<Row>, vs: seq<Write>, newest: Write)
    requires Eligible(row, newest)
    requires forall w | w in vs && Eligible(row, w) :: w == newest || w.at < newest.at
    requires forall w | w in vs && Eligible(row, w) :: Harmless(StoredMetrics(row), newest.metrics, w.metrics)
    ensures newest in vs ==> Fold(row, vs) == Apply(row, newest)
    ensures newest !in vs ==> StillOpen(row, Fold(row, vs), newest)
  {
    if vs == [] {
      hide ValidateMetrics;
    } else {
      var n := |vs| - 1;
      NewestDecides(row, vs[..n], newest);
      hide Apply, Eligible, Harmless, StillOpen;
      assert vs == vs[..n] + [vs[n]];
      if newest in vs[..n] {
        ClosedStep(row, newest, vs[n]);
      } else if vs[n] == newest {
        ClosingStep(row, Fold(row, vs[..n]), newest);
      } else {
        OpenStep(row, Fold(row, vs[..n]), newest, vs[n]);
      }
    }
  }

  lemma {:induction false} NothingEligible(row: Option<Row>, ws: seq<Write>)
    requires forall w | w in ws :: !Eligible(row, w)
    ensures Fold(row, ws) == row
  {
    hide ValidateMetrics;
    if ws != [] {
      assert ws[|ws| - 1] in ws;
      NothingEligible(row, ws[..|ws| - 1]);
    }
  }

  lemma {:induction false} NewestExists(row: Option<Row>, ws: seq<Write>) returns (newest: Write)
    requires exists w :: w in ws && Eligible(row, w)
    ensures IsNewest(row, ws, newest)
  {
    hide Eligible;
    var n := |ws| - 1;
    assert ws == ws[..n] + [ws[n]];
    if exists w :: w in ws[..n] && Eligible(row, w) {
      newest := NewestExists(row, ws[..n]);
      if Eligible(row, ws[n]) && ws[n].at > newest.at {
        newest := ws[n];
      }
    } else {
      newest := ws[n];
    }
  }

  ghost predicate OrderIrrelevant(row: Option<Row>, ws: seq<Write>) {
    forall vs | multiset(vs) == multiset(ws) :: Fold(row, vs) == Fold(row, ws)
  }

  lemma SameElements(ws: seq<Write>, vs: seq<Write>)
    requires multiset(vs) == multiset(ws)
    ensures forall w :: w in ws <==> w in vs
  {
    forall w ensures w in ws <==> w in vs {
      assert w in ws <==> w in multiset(ws);
      assert w in vs <==> w in multiset(vs);
    }
  }

  lemma SafeMeansIrrelevant(row: Option<Row>, ws: seq<Write>, vs: seq<Write>)
    requires forall v, w :: v in ws && w in ws && v.at == w.at ==> v == w
    requires OrderSafe(row, ws) && multiset(vs) == multiset(ws)
    ensures Fold(row, vs) == Fold(row, ws)
  {
    SameElements(ws, vs);
    hide Eligible, Harmless, Fold;
    if exists w :: w in ws && Eligible(row, w) {
      var newest := NewestExists(row, ws);
      NewestDecides(row, ws, newest);
      NewestDecides(row, vs, newest);
    } else {
      NothingEligible(row, ws);
      NothingEligible(row, vs);
    }
  }

  /** Bring one write to the front. */
  lemma ToFront(ws: seq<Write>, w: Write) returns (rest: seq<Write>)
    requires w in ws
    ensures multiset([w] + rest) == multiset(ws) && |rest| < |ws|
  {
    var i :| 0 <= i < |ws| && ws[i] == w;
    rest := ws[..i] + ws[i + 1..];
    assert ws == ws[..i] + [w] + ws[i + 1..];
  }

  lemma {:induction false} RestIsStale(row: Option<Row>, newest: Write, r: Option<Row>, rest: seq<Write>)
    requires r.Some? && r.value.updatedAt == newest.at && (row.Some? ==> row.value.updatedAt < newest.at)
    requires forall w | w in rest && Eligible(row, w) :: w.at <= newest.at
    ensures Fold(r, rest) == r
  {
    hide ValidateMetrics;
    if rest != [] {
      assert rest[|rest| - 1] in rest;
      RestIsStale(row, newest, r, rest[..|rest| - 1]);
    }
  }

  lemma FoldFronts(row: Option<Row>, a: Write, b: Write, rest: seq<Write>)
    ensures Fold(row, [a] + rest) == Fold(Apply(row, a), rest)
    ensures Fold(row, [a, b] + rest) == Fold(Apply(Apply(row, a), b), rest)
  {
    hide Apply;
    FoldSplits(row, [a], rest);
    FoldSplits(row, [a, b], rest);
    assert [a, b][..1] == [a] && [a][..0] == [];
    assert Fold(row, [a]) == Apply(row, a);
  }

  lemma TwoToFront(ws: seq<Write>, newest: Write, w: Write) returns (rest: seq<Write>, others: seq<Write>)
    requires newest in ws && w in ws && w != newest
    ensures multiset([newest] + rest) == multiset(ws) && multiset([w, newest] + others) == multiset(ws)
  {
    rest := ToFront(ws, newest);
    SameElements(ws, [newest] + rest);
    others := ToFront(rest, w);
    assert [w, newest] + others == [w] + ([newest] + others);
    assert multiset([w] + others) == multiset{w} + multiset(others);
  }

  lemma FirstIsAll(row: Option<Row>, ws: seq<Write>, newest: Write, rest: seq<Write>)
    requires IsNewest(row, ws, newest) && multiset([newest] + rest) == multiset(ws)
    ensures Fold(row, [newest] + rest) == Apply(row, newest)
  {
    hide Apply, Fold, OrderIrrelevant;
    SameElements(ws, [newest] + rest);
    assert forall v | v in rest :: v in [newest] + rest;
    FoldFronts(row, newest, newest, rest);
    NewestStored(row, newest);
    RestIsStale(row, newest, Apply(row, newest), rest);
  }

  lemma SecondIsAll(row: Option<Row>, ws: seq<Write>, newest: Write, w: Write, others: seq<Write>)
    requires IsNewest(row, ws, newest) && w.at < newest.at && multiset([w, newest] + others) == multiset(ws)
    ensures Fold(row, [w, newest] + others) == Apply(Apply(row, w), newest)
  {
    hide Apply, Fold, OrderIrrelevant;
    SameElements(ws, [w, newest] + others);
    assert forall v | v in others :: v in [w, newest] + others;
    FoldFronts(row, w, newest, others);
    OneWriteNotNewer(row, w, newest);
    NewestStored(Apply(row, w), newest);
    RestIsStale(row, newest, Apply(Apply(row, w), newest), others);
  }

  /** With the newest write first, or right after w, everything else is stale. */
  lemma NewestFirst(row: Option<Row>, ws: seq<Write>, newest: Write, w: Write)
    requires IsNewest(row, ws, newest) && w in ws && w.at < newest.at && OrderIrrelevant(row, ws)
    ensures Apply(Apply(row, w), newest) == Apply(row, newest)
  {
    hide Apply, Fold, IsNewest;
    assert newest in ws by { NewestIsWritten(row, ws, newest); }
    var rest, others := TwoToFront(ws, newest, w);
    FirstIsAll(row, ws, newest, rest);
    SecondIsAll(row, ws, newest, w, others);
  }

  lemma NewestIsWritten(row: Option<Row>, ws: seq<Write>, newest: Write)
    requires IsNewest(row, ws, newest)
    ensures newest in ws
  {
  }

  lemma NewestStored(r: Option<Row>, newest: Write)
    ensures Eligible(r, newest) ==> Apply(r, newest).Some? && Apply(r, newest).value.updatedAt == newest.at
  {
    hide ValidateMetrics;
  }

  lemma OneWriteNotNewer(row: Option<Row>, w: Write, newest: Write)
    requires Eligible(row, newest) && w.at < newest.at
    ensures Eligible(Apply(row, w), newest)
  {
    hide ValidateMetrics;
  }

  lemma IrrelevantMeansHarmless(row: Option<Row>, newest: Write, w: Write)
    requires Eligible(row, newest) && Eligible(row, w) && w.at < newest.at
    requires Apply(Apply(row, w), newest) == Apply(row, newest)
    ensures Harmless(StoredMetrics(row), newest.metrics, w.metrics)
  {
    hide ValidateMetrics;
  }

  /** When the arrival order does not matter, for any stored row and any writes with distinct timestamps: exactly when
      no write that counts carries, under a field the newest of them leaves null, anything but a null or the value
      already stored. */
  lemma OrderIrrelevantIff(row: Option<Row>, ws: seq<Write>)
    requires forall v, w :: v in ws && w in ws && v.at == w.at ==> v == w
    ensures OrderIrrelevant(row, ws) <==> OrderSafe(row, ws)
  {
    hide Eligible, Harmless, Fold;
    if OrderSafe(row, ws) {
      forall vs | multiset(vs) == multiset(ws) ensures Fold(row, vs) == Fold(row, ws) {
        SafeMeansIrrelevant(row, ws, vs);
      }
    }
    if OrderIrrelevant(row, ws) {
      forall newest, w | newest in ws && w in ws && IsNewest(row, ws, newest) && Eligible(row, w)
        ensures Harmless(StoredMetrics(row), newest.metrics, w.metrics)
      {
        if w == newest {
          HarmlessToItself(StoredMetrics(row), w.metrics);
        } else {
          NewestFirst(row, ws, newest, w);
          IrrelevantMeansHarmless(row, newest, w);
        }
      }
    }
  }

  lemma HarmlessToItself(stored: Metrics, m: Metrics)
    ensures Harmless(stored, m, m)
  {
  }

  /** It is not enough that the writes in time order leave the stored values alone under the newest one's nulls: here
      they do, and another order does not. */
  lemma TimeOrderAloneMisleads()
    ensures exists row: Option<Row>, w1: Write, w2: Write, newest: Write ::
              && w1.at < w2.at < newest.at
              && StoredMetrics(Fold(row, [w1, w2, newest])) == StoredMetrics(row)
              && StoredMetrics(Fold(row, [w1, newest, w2])) != StoredMetrics(row)
  {
    var one, two := NO_METRICS.(totalReturn := Some(1.0)), NO_METRICS.(totalReturn := Some(2.0));
    var row := Some(Row(one, Live, 0));
    var w1, w2, newest := Write(two, Live, 1), Write(one, Live, 2), Write(NO_METRICS, Live, 3);
    FoldThree(row, w1, w2, newest);
    FoldThree(row, w1, newest, w2);
    assert Valid(one) && Valid(two) && Valid(NO_METRICS);
    hide ValidateMetrics, Fold;
    assert StoredMetrics(Fold(row, [w1, w2, newest])) == one;
    assert StoredMetrics(Fold(row, [w1, newest, w2])) == two;
  }

  lemma FoldThree(row: Option<Row>, a: Write, b: Write, c: Write)
    ensures Fold(row, [a, b, c]) == Apply(Apply(Apply(row, a), b), c)
  {
    hide Apply;
    assert [a, b, c][..2] == [a, b] && [a, b][..1] == [a] && [a][..0] == [];
    assert Fold(row, [a, b]) == Apply(Fold(row, [a]), b);
  }

  /** On an empty key, the order of two writes shows exactly when the older one carries a value the newer one lacks. */
  lemma TwoWritesCommuteIff(older: Write, newer: Write)
    requires older.at < newer.at && Valid(older.metrics) && Valid(newer.metrics)
    ensures Fold(None, [older, newer]) == Fold(None, [newer, older]) <==>
            && (newer.metrics.totalReturn.None? ==> older.metrics.totalReturn.None?)
            && (newer.metrics.profitFactor.None? ==> older.metrics.profitFactor.None?)
            && (newer.metrics.maxDrawdown.None? ==> older.metrics.maxDrawdown.None?)
            && (newer.metrics.sharpeRatio.None? ==> older.metrics.sharpeRatio.None?)
            && (newer.metrics.tradeCount.None? ==> older.metrics.tradeCount.None?)
  {
    assert [older, newer][..1] == [older] && [newer, older][..1] == [newer];
    assert [older][..0] == [] && [newer][..0] == [];
    assert Fold(None, [older]) == Some(RowOf(older));
    assert Fold(None, [newer]) == Some(RowOf(newer));
  }
}
