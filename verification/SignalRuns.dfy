/** What a whole run of the calculator does to the table, to the counts and to the cache, and why a reader of the cache
    sees what the table says. */
module SignalRuns {
  import Arith
  import opened Common
  import opened SignalRows
  import opened Columns
  import opened SignalStore
  import opened Calculator
  import Strategies
  import TurtleTrading
  import Nr7Breakout
  import IchimokuTrend

  function ComboKey(c: Combo): Key { Key(c.strategy.id, c.pair, c.timeframe) }

  // ---------- Combinations ----------

  lemma {:induction false} TimeframesCounted(s: StrategyInfo, pair: string, timeframes: seq<string>, c: Combo)
    ensures |TimeframeCombos(s, pair, timeframes)| == |timeframes|
    ensures c in TimeframeCombos(s, pair, timeframes)
            <==> c.strategy == s && c.pair == pair && c.timeframe in timeframes
  {
    if timeframes != [] {
      var n := |timeframes| - 1;
      TimeframesCounted(s, pair, timeframes[..n], c);
      assert timeframes == timeframes[..n] + [timeframes[n]];
    }
  }

  lemma {:induction false} PairsCounted(s: StrategyInfo, pairs: seq<string>, timeframes: seq<string>, c: Combo)
    ensures |PairCombos(s, pairs, timeframes)| == |pairs| * |timeframes|
    ensures c in PairCombos(s, pairs, timeframes) <==> c.strategy == s && c.pair in pairs && c.timeframe in timeframes
  {
    if pairs != [] {
      var n := |pairs| - 1;
      PairsCounted(s, pairs[..n], timeframes, c);
      TimeframesCounted(s, pairs[n], timeframes, c);
      assert pairs == pairs[..n] + [pairs[n]];
      assert (n + 1) * |timeframes| == n * |timeframes| + |timeframes|;
    }
  }

  lemma OneMore(n: nat, a: nat, b: nat)
    ensures (n + 1) * a * b == n * a * b + a * b
  {
    assert (n + 1) * a == n * a + a;
  }

  lemma {:induction false} CombosSize(strategies: seq<StrategyInfo>, pairs: seq<string>, timeframes: seq<string>)
    ensures |Combos(strategies, pairs, timeframes)| == |strategies| * |pairs| * |timeframes|
  {
    if strategies == [] {
      assert 0 * |pairs| * |timeframes| == 0;
    } else {
      var n := |strategies| - 1;
      CombosSize(strategies[..n], pairs, timeframes);
      PairsCounted(strategies[n], pairs, timeframes, Combo(strategies[n], "", ""));
      OneMore(n, |pairs|, |timeframes|);
    }
  }

  /** The three loops visit every combination and nothing else. */
  lemma {:induction false} CombosExactly(strategies: seq<StrategyInfo>, pairs: seq<string>, timeframes: seq<string>,
                                         c: Combo)
    ensures c in Combos(strategies, pairs, timeframes)
            <==> c.strategy in strategies && c.pair in pairs && c.timeframe in timeframes
  {
    hide PairCombos;
    if strategies != [] {
      var n := |strategies| - 1;
      CombosExactly(strategies[..n], pairs, timeframes, c);
      PairsCounted(strategies[n], pairs, timeframes, c);
      assert strategies == strategies[..n] + [strategies[n]];
    }
  }

  lemma {:induction false} TimeframeAt(s: StrategyInfo, pair: string, timeframes: seq<string>, ti: nat)
    requires ti < |timeframes|
    ensures |TimeframeCombos(s, pair, timeframes)| == |timeframes|
    ensures TimeframeCombos(s, pair, timeframes)[ti] == Combo(s, pair, timeframes[ti])
  {
    var n := |timeframes| - 1;
    TimeframesCounted(s, pair, timeframes[..n], Combo(s, pair, ""));
    if ti < n { TimeframeAt(s, pair, timeframes[..n], ti); }
  }

  lemma {:induction false} PairAt(s: StrategyInfo, pairs: seq<string>, timeframes: seq<string>, pi: nat, ti: nat)
    requires pi < |pairs| && ti < |timeframes|
    ensures pi * |timeframes| + ti < |PairCombos(s, pairs, timeframes)| == |pairs| * |timeframes|
    ensures PairCombos(s, pairs, timeframes)[pi * |timeframes| + ti] == Combo(s, pairs[pi], timeframes[ti])
  {
    hide TimeframeCombos;
    var n := |pairs| - 1;
    PairsCounted(s, pairs[..n], timeframes, Combo(s, "", ""));
    TimeframeAt(s, pairs[n], timeframes, ti);
    assert |pairs| * |timeframes| == n * |timeframes| + |timeframes|;
    if pi < n { PairAt(s, pairs[..n], timeframes, pi, ti); }
  }

  lemma OneBlockMore(n: nat, size: nat)
    ensures (n + 1) * size == n * size + size
  {
  }

  /** The order of the loops: strategy by strategy, within it pair by pair, within it timeframe by timeframe. */
  lemma {:induction false} CombosInOrder(strategies: seq<StrategyInfo>, pairs: seq<string>, timeframes: seq<string>,
                                         si: nat, pi: nat, ti: nat)
    requires si < |strategies| && pi < |pairs| && ti < |timeframes|
    ensures var block := |pairs| * |timeframes|;
            && |Combos(strategies, pairs, timeframes)| == |strategies| * block
            && si * block + (pi * |timeframes| + ti) < |strategies| * block
            && Combos(strategies, pairs, timeframes)[si * block + (pi * |timeframes| + ti)]
               == Combo(strategies[si], pairs[pi], timeframes[ti])
  {
    hide PairCombos;
    var n, block := |strategies| - 1, |pairs| * |timeframes|;
    CombosSize(strategies[..n], pairs, timeframes);
    Arith.IntMulAssoc(n, |pairs|, |timeframes|);
    PairAt(strategies[n], pairs, timeframes, pi, ti);
    OneBlockMore(n, block);
    if si < n { CombosInOrder(strategies[..n], pairs, timeframes, si, pi, ti); }
  }

  /** success + failure = total, hits + misses = total. */
  lemma TotalsAddUp(table: seq<Row>, redis: Redis, load: Loader, faults: nat -> Fault,
                    strategies: seq<StrategyInfo>, pairs: seq<string>, timeframes: seq<string>)
    ensures var w := Run(Start(table, redis), load, Combos(strategies, pairs, timeframes), faults);
            && w.success + |w.failed| == |strategies| * |pairs| * |timeframes|
            && w.hits + |w.missed| == |strategies| * |pairs| * |timeframes|
  {
    var all := Combos(strategies, pairs, timeframes);
    RunCounts(Start(table, redis), load, all, faults);
    CombosSize(strategies, pairs, timeframes);
    hide Run, Combos;
  }

  /** Some combination of this name, pair and timeframe has no outcome. */
  ghost predicate Fails(load: Loader, cs: seq<Combo>, faults: nat -> Fault, name: string, pair: string,
                        timeframe: string)
  {
    exists k: nat :: k < |cs| && Outcome(load, cs[k], faults(k)).None? && IsNamed(cs[k], name, pair, timeframe)
  }

  predicate IsNamed(c: Combo, name: string, pair: string, timeframe: string) {
    c.strategy.name == name && c.pair == pair && c.timeframe == timeframe
  }

  lemma FailsNext(load: Loader, cs: seq<Combo>, faults: nat -> Fault, name: string, pair: string, timeframe: string)
    requires cs != []
    ensures var n := |cs| - 1;
            Fails(load, cs, faults, name, pair, timeframe)
            <==> Fails(load, cs[..n], faults, name, pair, timeframe)
                 || (Outcome(load, cs[n], faults(n)).None? && IsNamed(cs[n], name, pair, timeframe))
  {
    hide Outcome, IsNamed;
    var n := |cs| - 1;
    assert forall k: nat | k < n :: cs[..n][k] == cs[k];
  }

  /** The failed list holds exactly the combinations without an outcome. */
  lemma {:induction false} FailedExactly(w: World, load: Loader, cs: seq<Combo>, faults: nat -> Fault,
                                         name: string, pair: string, timeframe: string)
    ensures (name, pair, timeframe) in Run(w, load, cs, faults).failed
            <==> (name, pair, timeframe) in w.failed || Fails(load, cs, faults, name, pair, timeframe)
  {
    hide Step, Outcome, Fails;
    if cs == [] {
      NothingFails(load, faults, name, pair, timeframe);
    } else {
      var n := |cs| - 1;
      FailedExactly(w, load, cs[..n], faults, name, pair, timeframe);
      FailsNext(load, cs, faults, name, pair, timeframe);
      StepUnfolds(Run(w, load, cs[..n], faults), load, cs[n], faults(n));
    }
  }

  function NameOf(c: Combo): (string, string, string) { (c.strategy.name, c.pair, c.timeframe) }

  /** It names them in the order in which they failed, each as often as it did. */
  lemma {:induction false} FailedInOrder(w: World, load: Loader, cs: seq<Combo>, faults: nat -> Fault)
    returns (ks: seq<nat>)
    ensures Picks(ks, |cs|) && |Run(w, load, cs, faults).failed| == |w.failed| + |ks|
    ensures forall k: nat | k < |cs| :: k in ks <==> Outcome(load, cs[k], faults(k)).None?
    ensures forall j | 0 <= j < |ks| :: Run(w, load, cs, faults).failed[|w.failed| + j] == NameOf(cs[ks[j]])
  {
    hide Step, Outcome;
    ks := [];
    if cs != [] {
      var n := |cs| - 1;
      ks := FailedInOrder(w, load, cs[..n], faults);
      assert forall k | 0 <= k < n :: cs[..n][k] == cs[k];
      StepUnfolds(Run(w, load, cs[..n], faults), load, cs[n], faults(n));
      PickNext(ks, n);
      if Outcome(load, cs[n], faults(n)).None? {
        ks := ks + [n];
      }
    }
  }

  lemma NothingFails(load: Loader, faults: nat -> Fault, name: string, pair: string, timeframe: string)
    ensures !Fails(load, [], faults, name, pair, timeframe)
  {
  }

  function Occurs(cs: seq<Combo>, pair: string, timeframe: string): nat {
    if cs == [] then 0
    else
      var n := |cs| - 1;
      Occurs(cs[..n], pair, timeframe) + if cs[n].pair == pair && cs[n].timeframe == timeframe then 1 else 0
  }

  /** A key that loads is a miss once, at its first use; a key that does not load is a miss every time. */
  lemma {:induction false} MissesExactly(w: World, load: Loader, cs: seq<Combo>, faults: nat -> Fault,
                                         pair: string, timeframe: string)
    requires (pair, timeframe) in w.loaded ==> Loadable(load, pair, timeframe)
    ensures var w', key := Run(w, load, cs, faults), (pair, timeframe);
            && multiset(w'.missed)[key]
               == multiset(w.missed)[key]
                  + (if !Loadable(load, pair, timeframe) then Occurs(cs, pair, timeframe)
                     else if key in w.loaded || Occurs(cs, pair, timeframe) == 0 then 0
                     else 1)
            && (key in w'.loaded
                <==> key in w.loaded || (Loadable(load, pair, timeframe) && Occurs(cs, pair, timeframe) > 0))
  {
    if cs != [] {
      var n := |cs| - 1;
      MissesExactly(w, load, cs[..n], faults, pair, timeframe);
      var before := Run(w, load, cs[..n], faults);
      StepUnfolds(before, load, cs[n], faults(n));
      hide Step, Outcome, Loadable;
    }
  }

  // ---------- One signal ----------

  /** What a successful combination computes, said of the frame its strategy leaves: buy and sell by the four flags of
      the last row, 0.6 for an entry, 0.5 for an exit and 0 for hold, at the date of that row, or now without one. */
  lemma OutcomeMeans(load: Loader, c: Combo, f: Fault)
    requires Outcome(load, c, f).Some?
    ensures var own, d := load(c.pair, c.timeframe).value, Outcome(load, c, f).value;
            var cols, last := Exec(own.cols, own.rows, c.strategy.program.value), own.rows - 1;
            var enterLong, exitLong := IsOne(cols, "enter_long", last), IsOne(cols, "exit_long", last);
            var enterShort, exitShort := IsOne(cols, "enter_short", last), IsOne(cols, "exit_short", last);
            && (d.direction.Buy? <==> enterLong || (exitShort && !enterShort && !exitLong))
            && (d.direction.Sell? <==> (enterShort || exitLong) && !enterLong)
            && d.confidence == (if d.direction.Hold? then 0.0 else if enterLong || enterShort then 0.6 else 0.5)
            && d.at == (if CellAt(cols, "date", last).Stamp? then CellAt(cols, "date", last).t else f.now)
  {
    hide Exec, IsOne, CellAt;
  }

  // ---------- The table ----------

  /** The last combination of a key that succeeded. */
  function LastSuccess(load: Loader, cs: seq<Combo>, faults: nat -> Fault, key: Key): (k: Option<nat>)
    ensures k.Some? ==> k.value < |cs| && ComboKey(cs[k.value]) == key
                        && Outcome(load, cs[k.value], faults(k.value)).Some?
    ensures forall j: nat | (k.Some? ==> k.value < j) && j < |cs| && ComboKey(cs[j]) == key ::
              Outcome(load, cs[j], faults(j)).None?
  {
    if cs == [] then None
    else
      var n := |cs| - 1;
      if ComboKey(cs[n]) == key && Outcome(load, cs[n], faults(n)).Some? then Some(n)
      else
        assert forall j: nat | j < n :: cs[..n][j] == cs[j];
        LastSuccess(load, cs[..n], faults, key)
  }

  /** After a run every key has the row of its last successful combination, or else the row it had; realtime keys are
      still unique and backtest rows untouched. */
  lemma {:induction false} RunUpserts(w: World, load: Loader, cs: seq<Combo>, faults: nat -> Fault, key: Key)
    ensures var w', last := Run(w, load, cs, faults), LastSuccess(load, cs, faults, key);
            && RowOf(w'.table, key)
               == (if last.None? then RowOf(w.table, key)
                   else var k := last.value;
                        var d := Outcome(load, cs[k], faults(k)).value;
                        Some(Row(key.strategyId, key.pair, key.timeframe, d.direction, d.confidence, Realtime, d.at,
                                 faults(k).now)))
            && (RealtimeUnique(w.table) ==> RealtimeUnique(w'.table))
            && BacktestRows(w'.table) == BacktestRows(w.table)
  {
    if cs != [] {
      var n := |cs| - 1;
      RunUpserts(w, load, cs[..n], faults, key);
      var before := Run(w, load, cs[..n], faults);
      StepUnfolds(before, load, cs[n], faults(n));
      if Outcome(load, cs[n], faults(n)).Some? {
        var row := RowFrom(cs[n], Outcome(load, cs[n], faults(n)).value, faults(n).now);
        UpsertIsMapUpdate(before.table, row, key);
        UpsertKeepsBacktests(before.table, row);
      }
      hide Step, Outcome, Upsert, RowOf, RealtimeUnique, BacktestRows;
    }
  }

  // ---------- The cache ----------

  /** Every cached list has at most one entry for a pair and timeframe, and all its entries parse. */
  predicate ListsSound(redis: Redis) {
    forall id | id in redis && redis[id].value.Signals? :: ListSound(redis[id].value.list)
  }

  predicate ListSound(list: seq<CachedSignal>) { UniqueKeys(list) && forall s | s in list :: s.parses }

  lemma PutKeepsSound(list: seq<CachedSignal>, s: CachedSignal)
    requires ListSound(list) && s.parses
    ensures ListSound(Put(list, s))
  {
    PutIsMapUpdate(list, s, "", "");
    hide UniqueKeys;
  }

  lemma CachedKeepsSound(redis: Redis, c: Combo, d: SignalData, f: Fault)
    requires ListsSound(redis)
    ensures ListsSound(Cached(redis, c, d, f))
  {
    var list := ListOf(Visible(redis, c.strategy.id, f.now));
    assert ListSound(list);
    PutKeepsSound(list, CachedFrom(c, d, f.now));
    hide Put, ListSound;
  }

  lemma {:induction false} RunKeepsSound(w: World, load: Loader, cs: seq<Combo>, faults: nat -> Fault)
    requires ListsSound(w.redis)
    ensures ListsSound(Run(w, load, cs, faults).redis)
  {
    if cs != [] {
      var n := |cs| - 1;
      RunKeepsSound(w, load, cs[..n], faults);
      var before := Run(w, load, cs[..n], faults);
      StepUnfolds(before, load, cs[n], faults(n));
      if Outcome(load, cs[n], faults(n)).Some? {
        CachedKeepsSound(before.redis, cs[n], Outcome(load, cs[n], faults(n)).value, faults(n));
      }
      hide Step, Outcome, Cached, ListsSound;
    }
  }

  /** The cache holds this signal, for at least the TTL from its time. */
  predicate Held(redis: Redis, c: Combo, d: SignalData, at: int) {
    var id := c.strategy.id;
    && id in redis && redis[id].value.Signals? && redis[id].value.lastUpdated.UpdatedAt?
    && redis[id].expires >= at + SIGNAL_CACHE_TTL
    && Get(redis[id].value.list, c.pair, c.timeframe) == Some(CachedFrom(c, d, at))
  }

  lemma WriteHolds(redis: Redis, c: Combo, d: SignalData, f: Fault)
    requires CacheWritten(redis, c.strategy.id, f)
    ensures Held(Cached(redis, c, d, f), c, d, f.now)
  {
    PutIsMapUpdate(ListOf(Visible(redis, c.strategy.id, f.now)), CachedFrom(c, d, f.now), c.pair, c.timeframe);
    hide Put, Get;
  }

  lemma OtherWriteHolds(redis: Redis, c: Combo, d: SignalData, at: int, c': Combo, d': SignalData, f': Fault)
    requires Held(redis, c, d, at) && ComboKey(c') != ComboKey(c) && at <= f'.now < at + SIGNAL_CACHE_TTL
    ensures Held(Cached(redis, c', d', f'), c, d, at)
  {
    PutIsMapUpdate(ListOf(Visible(redis, c'.strategy.id, f'.now)), CachedFrom(c', d', f'.now), c.pair, c.timeframe);
    hide Put, Get;
  }

  /** From a combination's write to the end of the run, nobody removes its entry while its TTL lasts. */
  lemma {:induction false} StaysHeld(w: World, load: Loader, cs: seq<Combo>, faults: nat -> Fault, k: nat)
    requires k < |cs| && Outcome(load, cs[k], faults(k)).Some?
    requires CacheWritten(Run(w, load, cs[..k], faults).redis, cs[k].strategy.id, faults(k))
    requires forall j: nat | k < j < |cs| && ComboKey(cs[j]) == ComboKey(cs[k]) :: Outcome(load, cs[j], faults(j)).None?
    requires forall j: nat | k < j < |cs| :: faults(k).now <= faults(j).now < faults(k).now + SIGNAL_CACHE_TTL
    ensures Held(Run(w, load, cs, faults).redis, cs[k], Outcome(load, cs[k], faults(k)).value, faults(k).now)
    decreases |cs|
  {
    hide Step, Outcome, Cached, Held, CacheWritten;
    var n := |cs| - 1;
    var before := Run(w, load, cs[..n], faults);
    StepUnfolds(before, load, cs[n], faults(n));
    if k == n {
      WriteHolds(before.redis, cs[n], Outcome(load, cs[n], faults(n)).value, faults(n));
    } else {
      assert cs[..n][..k] == cs[..k] && forall j: nat | j < n :: cs[..n][j] == cs[j];
      StaysHeld(w, load, cs[..n], faults, k);
      if Outcome(load, cs[n], faults(n)).Some? {
        OtherWriteHolds(before.redis, cs[k], Outcome(load, cs[k], faults(k)).value, faults(k).now,
                        cs[n], Outcome(load, cs[n], faults(n)).value, faults(n));
      }
    }
  }

  // ---------- When the cache expires ----------

  /** Combination k writes the cached list of its strategy: it succeeds, Redis works, and what is there is not some
      other shape. */
  predicate Writes(w: World, load: Loader, cs: seq<Combo>, faults: nat -> Fault, k: nat)
    requires k < |cs|
  {
    && Outcome(load, cs[k], faults(k)).Some? && !faults(k).redisFails
    && Visible(Run(w, load, cs[..k], faults).redis, cs[k].strategy.id, faults(k).now) != Some(OtherShape)
  }

  predicate WritesFor(w: World, load: Loader, cs: seq<Combo>, faults: nat -> Fault, k: nat, id: int)
    requires k < |cs|
  {
    cs[k].strategy.id == id && Writes(w, load, cs, faults, k)
  }

  lemma WritesInPrefix(w: World, load: Loader, cs: seq<Combo>, faults: nat -> Fault, n: nat, k: nat)
    requires k < n <= |cs|
    ensures Writes(w, load, cs[..n], faults, k) == Writes(w, load, cs, faults, k)
  {
    assert cs[..n][..k] == cs[..k] && cs[..n][k] == cs[k];
    hide Run, Outcome, Visible;
  }

  /** One combination leaves the entry of every id it does not write. */
  lemma StepKeepsEntry(w: World, load: Loader, cs: seq<Combo>, faults: nat -> Fault, id: int)
    requires cs != [] && !WritesFor(w, load, cs, faults, |cs| - 1, id)
    ensures var n := |cs| - 1;
            var before, after := Run(w, load, cs[..n], faults).redis, Run(w, load, cs, faults).redis;
            (id in after <==> id in before) && (id in after ==> after[id] == before[id])
  {
    var n := |cs| - 1;
    StepUnfolds(Run(w, load, cs[..n], faults), load, cs[n], faults(n));
    hide Outcome, Visible, Put, Step;
  }

  lemma StepWritesEntry(w: World, load: Loader, cs: seq<Combo>, faults: nat -> Fault, id: int)
    requires cs != [] && WritesFor(w, load, cs, faults, |cs| - 1, id)
    ensures IsWrittenAt(Run(w, load, cs, faults).redis, id, faults(|cs| - 1).now)
  {
    var n := |cs| - 1;
    StepUnfolds(Run(w, load, cs[..n], faults), load, cs[n], faults(n));
    hide Outcome, Visible, Put, Step;
  }

  /** The entry was written at this time: it says so, and it is gone an hour later. */
  predicate IsWrittenAt(redis: Redis, id: int, at: int) {
    id in redis && redis[id].value.Signals? && redis[id].value.lastUpdated == UpdatedAt(at)
    && redis[id].expires == at + 3600
  }

  /** A strategy's entry expires an hour after the last combination that wrote it, and carries the time of that
      write. */
  lemma {:induction false} ExpiresAfterLastWrite(w: World, load: Loader, cs: seq<Combo>, faults: nat -> Fault, id: int,
                                                 k: nat)
    requires k < |cs| && WritesFor(w, load, cs, faults, k, id)
    requires forall j: nat | k < j < |cs| :: !WritesFor(w, load, cs, faults, j, id)
    ensures IsWrittenAt(Run(w, load, cs, faults).redis, id, faults(k).now)
    decreases |cs|
  {
    hide Run, Writes, Outcome;
    var n := |cs| - 1;
    if k == n {
      StepWritesEntry(w, load, cs, faults, id);
    } else {
      assert !WritesFor(w, load, cs, faults, n, id);
      StepKeepsEntry(w, load, cs, faults, id);
      forall j: nat | j < n
        ensures cs[..n][j] == cs[j] && Writes(w, load, cs[..n], faults, j) == Writes(w, load, cs, faults, j)
      {
        WritesInPrefix(w, load, cs, faults, n, j);
      }
      assert WritesFor(w, load, cs[..n], faults, k, id);
      forall j: nat | k < j < n ensures !WritesFor(w, load, cs[..n], faults, j, id) {
        assert !WritesFor(w, load, cs, faults, j, id);
      }
      ExpiresAfterLastWrite(w, load, cs[..n], faults, id, k);
    }
  }

  /** An id that no combination wrote keeps its entry, or its lack of one. */
  lemma {:induction false} UnwrittenKeepsEntry(w: World, load: Loader, cs: seq<Combo>, faults: nat -> Fault, id: int)
    requires forall j: nat | j < |cs| :: !WritesFor(w, load, cs, faults, j, id)
    ensures var after := Run(w, load, cs, faults).redis;
            (id in after <==> id in w.redis) && (id in after ==> after[id] == w.redis[id])
  {
    hide Writes, Outcome;
    if cs != [] {
      var n := |cs| - 1;
      assert !WritesFor(w, load, cs, faults, n, id);
      StepKeepsEntry(w, load, cs, faults, id);
      forall j: nat | j < n ensures !WritesFor(w, load, cs[..n], faults, j, id) {
        assert !WritesFor(w, load, cs, faults, j, id);
        WritesInPrefix(w, load, cs, faults, n, j);
      }
      hide Run;
      UnwrittenKeepsEntry(w, load, cs[..n], faults, id);
    }
  }

  /** Readers follow that clock. After a run, whoever asks for a strategy that the run wrote last at combination k gets
      the database's answer from an hour after that write on, and before that the cached list, with the time of that
      write as its last update. */
  lemma ReadersFollowLastWrite(w: World, load: Loader, cs: seq<Combo>, faults: nat -> Fault, id: int, k: nat,
                               a: Answer, known: set<int>, pair: Option<string>, timeframe: Option<string>,
                               page: nat, size: nat, now: int)
    requires ListsSound(w.redis) && page >= 1 && id in known
    requires k < |cs| && WritesFor(w, load, cs, faults, k, id)
    requires forall j: nat | k < j < |cs| :: !WritesFor(w, load, cs, faults, j, id)
    requires IsAnswer(a, known, Visible(Run(w, load, cs, faults).redis, id, now), id, pair, timeframe, page, size, now,
                      false)
    ensures if now >= faults(k).now + 3600 then a == FromDatabase
            else a.FromCache? && a.lastUpdated == faults(k).now
  {
    ExpiresAfterLastWrite(w, load, cs, faults, id, k);
    RunKeepsSound(w, load, cs, faults);
    hide Run, Writes, Matching, PageOf, UniqueKeys;
    var redis := Run(w, load, cs, faults).redis;
    assert ListSound(redis[id].value.list);
  }

  lemma FirstPage(s: CachedSignal, size: nat)
    requires size >= 1
    ensures PageOf([s], 1, size) == [s]
  {
    assert (1 - 1) * size == 0;
  }

  /** A held signal is what a reader gets. */
  lemma HeldIsRead(redis: Redis, c: Combo, d: SignalData, at: int, now: int, size: nat)
    requires Held(redis, c, d, at) && ListsSound(redis) && now < at + SIGNAL_CACHE_TTL && size >= 1
    ensures var cached := Visible(redis, c.strategy.id, now);
            && Readable(cached)
            && (var matching := Matching(cached.value.list, Some(c.pair), Some(c.timeframe));
                matching == [CachedFrom(c, d, at)] && PageOf(matching, 1, size) == matching)
  {
    hide Get, Matching, UniqueKeys, PageOf;
    assert ListSound(redis[c.strategy.id].value.list);
    MatchingIsGet(redis[c.strategy.id].value.list, c.pair, c.timeframe);
    FirstPage(CachedFrom(c, d, at), size);
  }

  /** The cache agrees with the table. Take the last successful combination k of a key, whose cache write went through,
      and read after the run, before the TTL of that write is over: filtering the list by pair and timeframe gives
      exactly one signal, and it has the direction, the confidence and the time of the realtime row. */
  lemma CacheAgreesWithTable(w: World, load: Loader, cs: seq<Combo>, faults: nat -> Fault, key: Key, now: int,
                             size: nat)
    requires ListsSound(w.redis) && size >= 1
    requires var last := LastSuccess(load, cs, faults, key);
             && last.Some?
             && CacheWritten(Run(w, load, cs[..last.value], faults).redis, key.strategyId, faults(last.value))
             && now < faults(last.value).now + SIGNAL_CACHE_TTL
             && (forall j: nat | last.value < j < |cs| :: faults(last.value).now <= faults(j).now <= now)
    ensures var w' := Run(w, load, cs, faults);
            var cached, row := Visible(w'.redis, key.strategyId, now), RowOf(w'.table, key);
            && row.Some? && Readable(cached)
            && (var matching := Matching(cached.value.list, Some(key.pair), Some(key.timeframe));
                && |matching| == 1 && PageOf(matching, 1, size) == matching
                && matching[0].direction == row.value.direction && matching[0].confidence == row.value.confidence
                && matching[0].signalAt == row.value.signalAt)
  {
    var w' := Run(w, load, cs, faults);
    var k := LastSuccess(load, cs, faults, key).value;
    var d := Outcome(load, cs[k], faults(k)).value;
    RunUpserts(w, load, cs, faults, key);
    RunKeepsSound(w, load, cs, faults);
    StaysHeld(w, load, cs, faults, k);
    hide Run, Outcome, RowOf, Matching, PageOf, Held, ListsSound, Visible;
    HeldIsRead(w'.redis, cs[k], d, faults(k).now, now, size);
  }

  /** A run stops at one point only. */
  lemma StoppedOnce(load: Loader, all: seq<Combo>, faults: nat -> Fault, commitFails: bool, j: nat, k: nat)
    requires StoppedAt(load, all, faults, commitFails, j) && StoppedAt(load, all, faults, commitFails, k)
    ensures j == k
  {
    hide Raises;
  }

  predicate SameSignal(s: CachedSignal, row: Option<Row>) {
    && row.Some? && s.direction == row.value.direction && s.confidence == row.value.confidence
    && s.signalAt == row.value.signalAt
  }

  /** A run that raises splits cache and table. Take any run that stops at combination k, or at its commit, and any key
      whose last success before k wrote the cache: a reader before the TTL gets exactly the signal of that success,
      while the table still holds what it held before the run. The two agree exactly when the row before the run
      already had that direction, confidence and time. */
  lemma RaisedRunSplitsStores(table: seq<Row>, redis: Redis, load: Loader, all: seq<Combo>, faults: nat -> Fault,
                              commitFails: bool, k: nat, left: Redis, key: Key, now: int, size: nat)
    requires ListsSound(redis) && size >= 1
    requires StoppedAt(load, all, faults, commitFails, k)
    requires LeftBehind(Start(table, redis), load, all, faults, commitFails, left)
    requires var last := LastSuccess(load, all[..k], faults, key);
             && last.Some?
             && CacheWritten(Run(Start(table, redis), load, all[..last.value], faults).redis, key.strategyId,
                             faults(last.value))
             && now < faults(last.value).now + SIGNAL_CACHE_TTL
             && (forall j: nat | last.value < j < k :: faults(last.value).now <= faults(j).now <= now)
    ensures var last := LastSuccess(load, all[..k], faults, key).value;
            var d := Outcome(load, all[last], faults(last)).value;
            var cached := Visible(left, key.strategyId, now);
            && Readable(cached)
            && (var matching := Matching(cached.value.list, Some(key.pair), Some(key.timeframe));
                && matching == [CachedFrom(all[last], d, faults(last).now)]
                && PageOf(matching, 1, size) == matching
                && (SameSignal(matching[0], RowOf(table, key))
                    <==> exists row :: RowOf(table, key) == Some(row)
                                       && SignalData(row.direction, row.confidence, row.signalAt) == d))
  {
    hide Run, Outcome, LastSuccess, RowOf, Matching, PageOf, Held, ListsSound, Visible, CacheWritten, LeftBehind,
         StoppedAt, SameSignal, Readable;
    StopsWithin(load, all, faults, commitFails, k);
    var w, done := Start(table, redis), all[..k];
    var last := LastSuccess(load, done, faults, key).value;
    assert done[last] == all[last] && done[..last] == all[..last];
    LeftBehindIs(w, load, all, faults, commitFails, k, left);
    LastIsHeld(w, load, done, faults, key);
    RunKeepsSound(w, load, done, faults);
    var d := Outcome(load, all[last], faults(last)).value;
    HeldIsRead(left, all[last], d, faults(last).now, now, size);
    SameSignalMeans(all[last], d, faults(last).now, RowOf(table, key));
  }

  lemma StopsWithin(load: Loader, all: seq<Combo>, faults: nat -> Fault, commitFails: bool, k: nat)
    requires StoppedAt(load, all, faults, commitFails, k)
    ensures k <= |all|
  {
  }

  lemma SameSignalMeans(c: Combo, d: SignalData, at: int, row: Option<Row>)
    ensures SameSignal(CachedFrom(c, d, at), row)
            <==> exists r :: row == Some(r) && SignalData(r.direction, r.confidence, r.signalAt) == d
  {
  }

  /** The last success of a key is in the cache at the end, if its write went through and its TTL has not run out. */
  lemma LastIsHeld(w: World, load: Loader, cs: seq<Combo>, faults: nat -> Fault, key: Key)
    requires var last := LastSuccess(load, cs, faults, key);
             && last.Some?
             && CacheWritten(Run(w, load, cs[..last.value], faults).redis, key.strategyId, faults(last.value))
             && (forall j: nat | last.value < j < |cs| ::
                   faults(last.value).now <= faults(j).now < faults(last.value).now + SIGNAL_CACHE_TTL)
    ensures var k := LastSuccess(load, cs, faults, key).value;
            && ComboKey(cs[k]) == key && Outcome(load, cs[k], faults(k)).Some?
            && Held(Run(w, load, cs, faults).redis, cs[k], Outcome(load, cs[k], faults(k)).value, faults(k).now)
  {
    hide Run, Outcome, Held, CacheWritten;
    StaysHeld(w, load, cs, faults, LastSuccess(load, cs, faults, key).value);
  }

  lemma LeftBehindIs(w: World, load: Loader, all: seq<Combo>, faults: nat -> Fault, commitFails: bool, k: nat,
                     left: Redis)
    requires StoppedAt(load, all, faults, commitFails, k) && LeftBehind(w, load, all, faults, commitFails, left)
    ensures left == Run(w, load, all[..k], faults).redis
  {
    var j: nat :| StoppedAt(load, all, faults, commitFails, j) && left == Run(w, load, all[..j], faults).redis;
    StoppedOnce(load, all, faults, commitFails, j, k);
  }

  // ---------- The strategies ----------

  /** The modelled strategies may share frames, whatever their parameters. */
  lemma ModelledStrategiesAreSafe(id: int, name: string, a: nat, b: nat, x: nat, y: nat, atr: seq<Column> -> Cell)
    ensures Safe(StrategyInfo(id, name, Some(Strategies.Chain(TurtleTrading.Turtle(a, b, x, atr)))))
    ensures Safe(StrategyInfo(id, name, Some(Strategies.Chain(Nr7Breakout.Nr7(a, atr)))))
    ensures Safe(StrategyInfo(id, name, Some(Strategies.Chain(IchimokuTrend.Ichimoku(a, b, x, y, atr)))))
  {
    TurtleTrading.TurtleScoped(a, b, x, atr);
    Nr7Breakout.Nr7Scoped(a, atr);
    IchimokuTrend.IchimokuScoped(a, b, x, y, atr);
    hide Strategies.Chain, WellScoped, WritesOf;
  }

  /** The signal computed live on the first i + 1 bars has the direction that the history extraction gives row i, and
      its time. Its confidence counts only the base and the entry bonus, so it is at most the history's, and equal just
      where volume and volatility earn the history nothing. */
  lemma LiveSignalIsHistory(bars: Columns, rows: nat, i: nat, load: Loader, c: Combo, f: Fault)
    requires Rectangular(bars, rows) && i < rows && load(c.pair, c.timeframe) == Some(Loaded(i + 1, Take(bars, i + 1)))
    requires Outcome(load, c, f).Some?
    requires Priced(HistoryRow(Exec(bars, rows, c.strategy.program.value), i))
    ensures var r := HistoryRow(Exec(bars, rows, c.strategy.program.value), i);
            var d := Outcome(load, c, f).value;
            && d.direction == RowDirection(r)
            && (CellAt(Exec(bars, rows, c.strategy.program.value), "date", i).Stamp? ==> d.at == r.at)
            && d.confidence <= Twentieths(r) as real / 20.0
            && (d.confidence == Twentieths(r) as real / 20.0
                <==> d.direction.Hold? || (VolumePoints(r) == 0 && VolatilityPoints(r) == 0))
  {
    var p := c.strategy.program.value;
    LiveEqualsHistory(bars, rows, p, i);
    var live := Exec(Take(bars, i + 1), i + 1, p);
    assert Outcome(load, c, f).value == Extract(live, i + 1, f.now);
    var r := HistoryRow(Exec(bars, rows, p), i);
    assert r == HistoryRow(live, i);
    SameDate(bars, rows, p, i);
    hide Exec, Take, CellAt, IsOne;
    assert r.enterLong == IsOne(live, "enter_long", i) && r.enterShort == IsOne(live, "enter_short", i);
  }

  lemma SameDate(bars: Columns, rows: nat, p: seq<Stmt>, i: nat)
    requires Rectangular(bars, rows) && i < rows
    ensures CellAt(Exec(Take(bars, i + 1), i + 1, p), "date", i) == CellAt(Exec(bars, rows, p), "date", i)
  {
    hide Exec, Take, CellAt;
    ExecOfTake(bars, rows, p, i + 1);
    CellOfTake(Exec(bars, rows, p), "date", i, i + 1);
  }

  /** They do differ: on an entry at twice the usual volume, live says 0.6 and the history 0.8. */
  lemma ConfidencesDiffer(load: Loader, c: Combo, f: Fault)
    requires load(c.pair, c.timeframe) == Some(Loaded(1, BusyBar())) && c.strategy.program == Some(AlwaysLong())
    requires f.crashAt.None? && !f.statementFails && !f.releaseFails
    ensures var r := HistoryRow(Exec(BusyBar(), 1, AlwaysLong()), 0);
            && Outcome(load, c, f).Some? && Outcome(load, c, f).value.confidence == 0.6
            && Priced(r) && Twentieths(r) as real / 20.0 == 0.8
  {
    var p := AlwaysLong();
    var bars := BusyBar();
    assert p[..1] == [p[0]] && p[..1][..0] == [];
    var one := bars["enter_long" := [Num(1.0)]];
    assert Exec(bars, 1, p[..1]) == one by {
      assert Exec(bars, 1, p[..0]) == bars;
      assert Whole(p[0].e, bars, 1) == [Num(1.0)];
    }
    assert Exec(bars, 1, p) == one["volume_mean" := [Num(100.0)]] by {
      assert Whole(p[1].e, one, 1) == [Num(100.0)];
    }
  }

  function BusyBar(): Columns {
    map["date" := [Stamp(0)], "close" := [Num(1.0)], "volume" := [Num(200.0)]]
  }

  function AlwaysLong(): seq<Stmt> {
    [Set("enter_long", Lit(Num(1.0))), Set("volume_mean", Scaled(Col("volume"), 0.5))]
  }

  /** A computed signal is a producer's signal: hold with 0, or 10 or 12 twentieths. */
  lemma ComputedIsProduced(load: Loader, c: Combo, f: Fault)
    requires Outcome(load, c, f).Some?
    ensures var d := Outcome(load, c, f).value;
            exists k: int :: d.confidence == k as real / 20.0 && ProducedConfidence(d.direction, k)
  {
    var d := Outcome(load, c, f).value;
    hide Exec, DirectionAt, IsOne;
    var k := if d.confidence == 0.0 then 0 else if d.confidence == 0.5 then 10 else 12;
    assert d.confidence == k as real / 20.0 && ProducedConfidence(d.direction, k);
  }
}
