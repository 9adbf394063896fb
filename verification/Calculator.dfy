/** The signal calculator: every strategy on every pair and timeframe, over a cache of frames that the strategies
    overwrite in place, with a savepoint a combination and one outer transaction. */
module Calculator {
  import opened Common
  import opened Columns
  import opened SignalStore

  // ---------- Inputs ----------

  datatype Loaded = Loaded(rows: nat, cols: Columns)

  /** load_pair_history: None where it raises or returns nothing. */
  type Loader = (string, string) -> Option<Loaded>

  predicate Loadable(load: Loader, pair: string, timeframe: string) {
    load(pair, timeframe).Some? && load(pair, timeframe).value.rows > 0
  }

  /** `program` is the chain of populate methods; None where the class is missing. */
  datatype StrategyInfo = StrategyInfo(id: int, name: string, program: Option<seq<Stmt>>)

  datatype Combo = Combo(strategy: StrategyInfo, pair: string, timeframe: string)

  /** What goes wrong while one combination is processed, and the clock while it is. */
  datatype Fault = Fault(now: int, crashAt: Option<nat>, beginFails: bool, statementFails: bool, releaseFails: bool,
                         rollbackFails: bool, redisFails: bool)

  /** A strategy that writes no bar column, reads only bars and what it wrote, and sets every signal column itself. */
  predicate Safe(s: StrategyInfo) {
    s.program.Some? ==> WellScoped(s.program.value, OHLCV) && SIGNAL_COLUMNS <= WritesOf(s.program.value)
  }

  // ---------- One combination, on a frame of its own ----------

  datatype SignalData = SignalData(direction: Direction, confidence: real, at: int)

  function Extract(cols: Columns, rows: nat, now: int): SignalData
    requires rows > 0
  {
    var last := rows - 1;
    var direction := DirectionAt(cols, last);
    var entry := IsOne(cols, "enter_long", last) || IsOne(cols, "enter_short", last);
    SignalData(direction,
               if direction.Hold? then 0.0 else if entry then 0.6 else 0.5,
               if CellAt(cols, "date", last).Stamp? then CellAt(cols, "date", last).t else now)
  }

  predicate Completes(program: Option<seq<Stmt>>, crashAt: Option<nat>) {
    program.Some? && (crashAt.Some? ==> crashAt.value >= |program.value|)
  }

  /** What a combination yields when its strategy runs on a freshly loaded frame. */
  function Outcome(load: Loader, c: Combo, f: Fault): Option<SignalData> {
    if Loadable(load, c.pair, c.timeframe) && Completes(c.strategy.program, f.crashAt) && !f.statementFails
       && !f.releaseFails
    then
      var own := load(c.pair, c.timeframe).value;
      Some(Extract(Exec(own.cols, own.rows, c.strategy.program.value), own.rows, f.now))
    else None
  }

  function RowFrom(c: Combo, d: SignalData, now: int): Row {
    Row(c.strategy.id, c.pair, c.timeframe, d.direction, d.confidence, Realtime, d.at, now)
  }

  function CachedFrom(c: Combo, d: SignalData, now: int): CachedSignal {
    CachedSignal(c.strategy.id, c.pair, c.timeframe, d.direction, d.confidence, d.at, now, true)
  }

  /** Whether the cache update goes through: an unparsable or missing value is replaced, a value of some other shape
      raises, and every failure is swallowed. */
  predicate CacheWritten(redis: Redis, id: int, f: Fault) {
    !f.redisFails && Visible(redis, id, f.now) != Some(OtherShape)
  }

  function ListOf(v: Option<CacheValue>): seq<CachedSignal> {
    if v.Some? && v.value.Signals? then v.value.list else []
  }

  function Cached(redis: Redis, c: Combo, d: SignalData, f: Fault): Redis {
    var id := c.strategy.id;
    if CacheWritten(redis, id, f) then
      var list := Put(ListOf(Visible(redis, id, f.now)), CachedFrom(c, d, f.now));
      redis[id := CacheEntry(Signals(list, UpdatedAt(f.now)), f.now + SIGNAL_CACHE_TTL)]
    else redis
  }

  lemma CachedMeans(redis: Redis, c: Combo, d: SignalData, f: Fault)
    requires CacheWritten(redis, c.strategy.id, f)
    ensures var before, entry := Visible(redis, c.strategy.id, f.now), Cached(redis, c, d, f)[c.strategy.id];
            forall pair, timeframe ::
              Get(entry.value.list, pair, timeframe)
              == if pair == c.pair && timeframe == c.timeframe
                 then Some(CachedSignal(c.strategy.id, pair, timeframe, d.direction, d.confidence, d.at, f.now, true))
                 else if before.None? || before.value.NotJson? then None
                 else Get(before.value.list, pair, timeframe)
  {
    var before, s := ListOf(Visible(redis, c.strategy.id, f.now)), CachedFrom(c, d, f.now);
    forall pair, timeframe
      ensures Get(Put(before, s), pair, timeframe)
              == if pair == c.pair && timeframe == c.timeframe then Some(s) else Get(before, pair, timeframe)
    {
      PutIsMapUpdate(before, s, pair, timeframe);
      hide Get, Put;
    }
  }

  // ---------- A whole run, on frames of their own ----------

  datatype World = World(table: seq<Row>, redis: Redis, loaded: set<(string, string)>, hits: nat,
                         missed: seq<(string, string)>, success: nat, failed: seq<(string, string, string)>)

  function LoadedBy(load: Loader, c: Combo): set<(string, string)> {
    if Loadable(load, c.pair, c.timeframe) then {(c.pair, c.timeframe)} else {}
  }

  function Step(w: World, load: Loader, c: Combo, f: Fault): World {
    var key := (c.pair, c.timeframe);
    var w1 :=
      if key in w.loaded then w.(hits := w.hits + 1)
      else w.(missed := w.missed + [key], loaded := w.loaded + LoadedBy(load, c));
    match Outcome(load, c, f)
    case None => w1.(failed := w.failed + [(c.strategy.name, c.pair, c.timeframe)])
    case Some(d) => w1.(table := Upsert(w.table, RowFrom(c, d, f.now)), redis := Cached(w.redis, c, d, f),
                        success := w.success + 1)
  }

  function Run(w: World, load: Loader, cs: seq<Combo>, faults: nat -> Fault): World {
    if cs == [] then w
    else var n := |cs| - 1; Step(Run(w, load, cs[..n], faults), load, cs[n], faults(n))
  }

  function Start(table: seq<Row>, redis: Redis): World { World(table, redis, {}, 0, [], 0, []) }

  function TimeframeCombos(s: StrategyInfo, pair: string, timeframes: seq<string>): seq<Combo> {
    if timeframes == [] then []
    else var n := |timeframes| - 1; TimeframeCombos(s, pair, timeframes[..n]) + [Combo(s, pair, timeframes[n])]
  }

  function PairCombos(s: StrategyInfo, pairs: seq<string>, timeframes: seq<string>): seq<Combo> {
    if pairs == [] then []
    else var n := |pairs| - 1; PairCombos(s, pairs[..n], timeframes) + TimeframeCombos(s, pairs[n], timeframes)
  }

  /** Every combination, in the order of the three loops. */
  function Combos(strategies: seq<StrategyInfo>, pairs: seq<string>, timeframes: seq<string>): seq<Combo> {
    if strategies == [] then []
    else
      var n := |strategies| - 1;
      Combos(strategies[..n], pairs, timeframes) + PairCombos(strategies[n], pairs, timeframes)
  }

  /** An error outside the inner try: the savepoint cannot be opened, or cannot be rolled back. */
  predicate Raises(load: Loader, c: Combo, f: Fault) { f.beginFails || (Outcome(load, c, f).None? && f.rollbackFails) }

  predicate Quiet(load: Loader, cs: seq<Combo>, faults: nat -> Fault) {
    forall k: nat | k < |cs| :: !Raises(load, cs[k], faults(k))
  }

  datatype ComputeResult = ComputeResult(total: int, successCount: nat, failureCount: nat, hitRate: real,
                                         failedCombinations: seq<(string, string, string)>)

  datatype Finish = Returned(result: ComputeResult) | Raised

  // ---------- The calculator ----------

  class SignalCalculator {
    var dfCache: map<(string, string), Frame>
    var cacheHits: nat
    var cacheMisses: nat
    // The stores it writes: the committed table, and Redis.
    var table: seq<Row>
    var redis: Redis

    constructor (table: seq<Row>, redis: Redis)
      ensures this.table == table && this.redis == redis && dfCache == map[] && cacheHits == 0 && cacheMisses == 0
    {
      this.table, this.redis := table, redis;
      dfCache, cacheHits, cacheMisses := map[], 0, 0;
    }

    /** Every cached frame is a distinct object whose bars are still the loaded ones, whatever strategies have written
        around them. */
    ghost predicate CacheValid(load: Loader)
      reads this, dfCache.Values
    {
      && (forall key | key in dfCache ::
            && Loadable(load, key.0, key.1)
            && dfCache[key].rows == load(key.0, key.1).value.rows
            && Agree(dfCache[key].cols, load(key.0, key.1).value.cols, OHLCV))
      && (forall k1, k2 | k1 in dfCache && k2 in dfCache && k1 != k2 :: dfCache[k1] != dfCache[k2])
    }

    method LoadOhlcv(load: Loader, pair: string, timeframe: string) returns (df: Option<Frame>)
      requires CacheValid(load)
      modifies this`dfCache, this`cacheHits, this`cacheMisses
      ensures CacheValid(load)
      ensures df.Some? <==> Loadable(load, pair, timeframe)
      ensures df.Some? ==> (pair, timeframe) in dfCache && dfCache[(pair, timeframe)] == df.value
      ensures old((pair, timeframe) in dfCache) ==>
                dfCache == old(dfCache) && cacheHits == old(cacheHits) + 1 && cacheMisses == old(cacheMisses)
      ensures old((pair, timeframe) !in dfCache) ==>
                && cacheHits == old(cacheHits) && cacheMisses == old(cacheMisses) + 1
                && (df.None? ==> dfCache == old(dfCache))
                && (df.Some? ==> fresh(df.value) && dfCache == old(dfCache)[(pair, timeframe) := df.value])
    {
      var key := (pair, timeframe);
      if key in dfCache {
        cacheHits := cacheHits + 1;
        return Some(dfCache[key]);
      }
      cacheMisses := cacheMisses + 1;
      var loaded := load(pair, timeframe);
      if loaded.None? || loaded.value.rows == 0 {
        return None;
      }
      var frame := new Frame(loaded.value.rows, loaded.value.cols);
      dfCache := dfCache[key := frame];
      df := Some(frame);
    }

    /** The strategy runs on the frame it is given, in place; even when it raises midway the bars survive. */
    method RunStrategyOnDf(info: StrategyInfo, df: Frame, crashAt: Option<nat>) returns (ok: bool)
      requires Safe(info)
      modifies df
      ensures ok <==> Completes(info.program, crashAt)
      ensures ok ==> df.cols == Exec(old(df.cols), df.rows, info.program.value)
      ensures Agree(df.cols, old(df.cols), OHLCV)
    {
      if info.program.None? {
        return false;
      }
      ghost var p := info.program.value;
      ghost var before := df.cols;
      ok := df.RunProgram(info.program.value, crashAt);
      assert p[..|p|] == p;
      ExecKeepsBase(before, df.rows, p, if ok then |p| else crashAt.value, OHLCV);
    }

    /** The key of the strategy: an absent, expired or unparsable value becomes a list of one entry; in a list the
        entry of the pair and timeframe is replaced or appended, and the others stay; anything else, and any error,
        leaves Redis as it was. What is written carries the clock as its last update, and expires an hour later. */
    method UpdateRedisCache(c: Combo, d: SignalData, f: Fault)
      modifies this`redis
      ensures redis == Cached(old(redis), c, d, f)
      ensures f.redisFails || Visible(old(redis), c.strategy.id, f.now) == Some(OtherShape) ==> redis == old(redis)
      ensures forall id | id != c.strategy.id :: (id in redis <==> id in old(redis))
                                                 && (id in redis ==> redis[id] == old(redis)[id])
      ensures !f.redisFails && Visible(old(redis), c.strategy.id, f.now) != Some(OtherShape) ==>
                var before, id := Visible(old(redis), c.strategy.id, f.now), c.strategy.id;
                && id in redis && redis[id].expires == f.now + 3600
                && redis[id].value.Signals? && redis[id].value.lastUpdated == UpdatedAt(f.now)
                && (forall pair, timeframe ::
                      Get(redis[id].value.list, pair, timeframe)
                      == if pair == c.pair && timeframe == c.timeframe
                         then Some(CachedSignal(id, pair, timeframe, d.direction, d.confidence, d.at, f.now, true))
                         else if before.None? || before.value.NotJson? then None
                         else Get(before.value.list, pair, timeframe))
    {
      if CacheWritten(redis, c.strategy.id, f) { CachedMeans(redis, c, d, f); }
      hide Get, Put;
      var cached := Visible(redis, c.strategy.id, f.now);
      var list := [];
      if cached.Some? {
        match cached.value
        case NotJson =>
        case OtherShape => return;
        case Signals(existing, _) => list := existing;
      }
      var updated := FindOrAppend(list, CachedFrom(c, d, f.now));
      if f.redisFails {
        return;
      }
      redis := redis[c.strategy.id := CacheEntry(Signals(updated, UpdatedAt(f.now)), f.now + SIGNAL_CACHE_TTL)];
    }

    /** Load and run: the shared frame yields what a frame of its own would, and the cache stays sound. */
    method SignalOnSharedFrame(load: Loader, c: Combo, f: Fault) returns (data: Option<SignalData>)
      requires CacheValid(load) && Safe(c.strategy)
      modifies this`dfCache, this`cacheHits, this`cacheMisses, dfCache.Values
      ensures CacheValid(load)
      ensures forall key | key in dfCache && key !in old(dfCache) :: fresh(dfCache[key])
      ensures forall key | key in old(dfCache) :: key in dfCache && dfCache[key] == old(dfCache[key])
      ensures data == Outcome(load, c, f.(statementFails := false, releaseFails := false))
      ensures dfCache.Keys == old(dfCache.Keys) + LoadedBy(load, c)
      ensures cacheHits == old(cacheHits) + (if old((c.pair, c.timeframe) in dfCache) then 1 else 0)
      ensures cacheMisses == old(cacheMisses) + (if old((c.pair, c.timeframe) in dfCache) then 0 else 1)
    {
      hide Agree, Exec, WellScoped, WritesOf, Extract;
      var df := LoadOhlcv(load, c.pair, c.timeframe);
      if df.None? {
        return None;
      }
      ghost var shared := df.value.cols;
      var ok := RunOnCached(load, c, f.crashAt, df.value);
      if !ok {
        return None;
      }
      SharedIsFresh(shared, load, c, f);
      data := Some(Extract(df.value.cols, df.value.rows, f.now));
    }

    method RunOnCached(load: Loader, c: Combo, crashAt: Option<nat>, df: Frame) returns (ok: bool)
      requires CacheValid(load) && Safe(c.strategy)
      requires (c.pair, c.timeframe) in dfCache && dfCache[(c.pair, c.timeframe)] == df
      modifies df
      ensures CacheValid(load)
      ensures ok <==> Completes(c.strategy.program, crashAt)
      ensures ok ==> df.cols == Exec(old(df.cols), df.rows, c.strategy.program.value)
    {
      hide Agree, Exec, WellScoped, WritesOf;
      ok := RunStrategyOnDf(c.strategy, df, crashAt);
      BarsSurvive(df.cols, old(df.cols), load(c.pair, c.timeframe).value.cols);
    }

    /** The body of the inner try. */
    method ComputeCombination(load: Loader, c: Combo, f: Fault, session: seq<Row>) returns (ok: bool, after: seq<Row>)
      requires CacheValid(load) && Safe(c.strategy)
      modifies this`dfCache, this`cacheHits, this`cacheMisses, this`redis, dfCache.Values
      ensures CacheValid(load)
      ensures forall key | key in dfCache && key !in old(dfCache) :: fresh(dfCache[key])
      ensures forall key | key in old(dfCache) :: key in dfCache && dfCache[key] == old(dfCache[key])
      ensures ok <==> Outcome(load, c, f).Some?
      ensures ok <==>
                && load(c.pair, c.timeframe).Some? && load(c.pair, c.timeframe).value.rows > 0
                && c.strategy.program.Some? && (f.crashAt.None? || f.crashAt.value >= |c.strategy.program.value|)
                && !f.statementFails && !f.releaseFails
      ensures after == if ok then Upsert(session, RowFrom(c, Outcome(load, c, f).value, f.now)) else session
      ensures redis == if ok then Cached(old(redis), c, Outcome(load, c, f).value, f) else old(redis)
      ensures dfCache.Keys == old(dfCache.Keys) + LoadedBy(load, c)
      ensures cacheHits == old(cacheHits) + (if old((c.pair, c.timeframe) in dfCache) then 1 else 0)
      ensures cacheMisses == old(cacheMisses) + (if old((c.pair, c.timeframe) in dfCache) then 0 else 1)
    {
      hide Agree, Exec, WellScoped, WritesOf, Extract, Upsert, Cached;
      var data := SignalOnSharedFrame(load, c, f);
      if data.None? || f.statementFails {
        return false, session;
      }
      after := Upsert(session, RowFrom(c, data.value, f.now));
      if f.releaseFails {
        // The savepoint is rolled back.
        return false, session;
      }
      UpdateRedisCache(c, data.value, f);
      ok := true;
    }

    /** After the combinations in `done`, everything is as if each had run on a frame of its own. */
    ghost predicate Tracks(load: Loader, faults: nat -> Fault, w: World, done: seq<Combo>, p: Progress)
      reads this
    {
      var w' := Run(w, load, done, faults);
      && p.session == w'.table && redis == w'.redis && dfCache.Keys == w'.loaded
      && cacheHits == w'.hits && cacheMisses == |w'.missed| && p.success == w'.success && p.failed == w'.failed
      && p.failure == |p.failed| && p.success + p.failure == |done|
    }

    /** One turn of the innermost loop: savepoint, combination, and the handler that rolls back to the savepoint. */
    method Turn(load: Loader, faults: nat -> Fault, c: Combo, before: Progress, ghost w: World, ghost done: seq<Combo>)
      returns (raised: bool, after: Progress)
      requires CacheValid(load) && Safe(c.strategy) && Tracks(load, faults, w, done, before)
      modifies this`dfCache, this`cacheHits, this`cacheMisses, this`redis, dfCache.Values
      ensures CacheValid(load)
      ensures forall key | key in dfCache && key !in old(dfCache) :: fresh(dfCache[key])
      ensures forall key | key in old(dfCache) :: key in dfCache && dfCache[key] == old(dfCache[key])
      ensures raised <==> Raises(load, c, faults(|done|))
      ensures raised ==> redis == Run(w, load, done, faults).redis
      ensures !raised ==> Tracks(load, faults, w, done + [c], after)
    {
      hide Step, Outcome, Safe, Run, Upsert, Cached, RowFrom, CacheValid, LoadedBy;
      var f := faults(before.success + before.failure);
      RunNext(w, load, done, c, faults);
      if f.beginFails {
        return true, before;
      }
      StepUnfolds(Run(w, load, done, faults), load, c, f);
      var ok, session := ComputeCombination(load, c, f, before.session);
      if ok {
        after := before.(session := session, success := before.success + 1);
      } else {
        if f.rollbackFails {
          return true, before;
        }
        after := before.(failure := before.failure + 1,
                         failed := before.failed + [(c.strategy.name, c.pair, c.timeframe)]);
      }
      raised := false;
    }

    /** The whole run. It does to the table and to Redis what running every combination on a frame of its own would
        do; an error outside the inner try leaves the table as it was, but not Redis. */
    method ComputeAllSignals(strategies: seq<StrategyInfo>, pairs: seq<string>, timeframes: seq<string>,
                             load: Loader, faults: nat -> Fault, commitFails: bool)
      returns (r: Finish)
      requires forall s | s in strategies :: Safe(s)
      modifies this
      ensures r.Returned? <==> Quiet(load, Combos(strategies, pairs, timeframes), faults) && !commitFails
      ensures r.Returned? <==>
                && !commitFails
                && forall k: nat | k < |Combos(strategies, pairs, timeframes)| ::
                     && !faults(k).beginFails
                     && (Outcome(load, Combos(strategies, pairs, timeframes)[k], faults(k)).None? ==>
                           !faults(k).rollbackFails)
      ensures r.Returned? ==>
                var w := Run(Start(old(table), old(redis)), load, Combos(strategies, pairs, timeframes), faults);
                && table == w.table && redis == w.redis
                && r.result == ComputeResult(|strategies| * |pairs| * |timeframes|, w.success, |w.failed|,
                                             HitRate(w.hits, |w.missed|), w.failed)
      ensures r.Raised? ==>
                && table == old(table)
                && LeftBehind(Start(old(table), old(redis)), load, Combos(strategies, pairs, timeframes), faults,
                              commitFails, redis)
    {
      QuietMeans(load, Combos(strategies, pairs, timeframes), faults);
      hide Run, Safe, CacheValid, Quiet, Raises, StoppedAt, Combos, AtStrategy, AtPair, AtTimeframe, Outcome;
      dfCache, cacheHits, cacheMisses := map[], 0, 0;
      var total := |strategies| * |pairs| * |timeframes|;
      var p := Progress(table, 0, 0, []);
      ghost var w := Start(table, redis);
      ghost var all := Combos(strategies, pairs, timeframes);
      ghost var done: seq<Combo> := [];
      ghost var l := Loops(strategies, pairs, timeframes);
      StrategyLoop(l, 0);
      NothingYet(load, faults, w);
      for si := 0 to |strategies|
        invariant forall key | key in dfCache :: fresh(dfCache[key])
        invariant CacheValid(load) && table == old(table) && Tracks(load, faults, w, done, p)
        invariant done == AtStrategy(l, si) && Quiet(load, done, faults)
      {
        StrategyLoop(l, si);
        for pi := 0 to |pairs|
          invariant forall key | key in dfCache :: fresh(dfCache[key])
          invariant CacheValid(load) && table == old(table) && Tracks(load, faults, w, done, p)
          invariant done == AtPair(l, si, pi) && Quiet(load, done, faults)
        {
          PairLoop(l, si, pi);
          for ti := 0 to |timeframes|
            invariant forall key | key in dfCache :: fresh(dfCache[key])
            invariant CacheValid(load) && table == old(table) && Tracks(load, faults, w, done, p)
            invariant done == AtTimeframe(l, si, pi, ti) && Quiet(load, done, faults)
          {
            var c := Combo(strategies[si], pairs[pi], timeframes[ti]);
            TimeframeLoop(l, si, pi, ti);
            DoneIsPrefix(l, si, pi, ti + 1);
            StopOrGoOn(load, all, done, c, faults, commitFails);
            var raised, after := Turn(load, faults, c, p, w, done);
            if raised {
              return Raised;
            }
            p := after;
            done := done + [c];
          }
        }
      }
      StrategyLoop(l, |strategies|);
      if commitFails {
        AllQuiet(load, all, faults, commitFails);
        return Raised;
      }
      table := p.session;
      r := Returned(ComputeResult(total, p.success, p.failure, HitRate(cacheHits, cacheMisses), p.failed));
    }

    lemma NothingYet(load: Loader, faults: nat -> Fault, w: World)
      requires dfCache == map[] && cacheHits == 0 && cacheMisses == 0 && w == Start(w.table, redis)
      ensures CacheValid(load) && Tracks(load, faults, w, [], Progress(w.table, 0, 0, [])) && Quiet(load, [], faults)
    {
    }
  }

  datatype Loops = Loops(strategies: seq<StrategyInfo>, pairs: seq<string>, timeframes: seq<string>)

  datatype Progress = Progress(session: seq<Row>, success: nat, failure: nat, failed: seq<(string, string, string)>)

  function HitRate(hits: nat, misses: nat): real {
    if hits + misses > 0 then hits as real / (hits + misses) as real else 0.0
  }

  lemma QuietMeans(load: Loader, cs: seq<Combo>, faults: nat -> Fault)
    ensures Quiet(load, cs, faults) <==>
              forall k: nat | k < |cs| ::
                !faults(k).beginFails && (Outcome(load, cs[k], faults(k)).None? ==> !faults(k).rollbackFails)
  {
    hide Outcome;
    assert Quiet(load, cs, faults) <==> forall k: nat | k < |cs| :: !Raises(load, cs[k], faults(k));
  }

  lemma HitRateIsShare(hits: nat, misses: nat)
    ensures HitRate(hits, misses) * (hits + misses) as real == hits as real
    ensures hits + misses == 0 ==> HitRate(hits, misses) == 0.0
  {
  }

  /** The first error outside the inner try: at combination k, or at the commit after the last. */
  ghost predicate StoppedAt(load: Loader, all: seq<Combo>, faults: nat -> Fault, commitFails: bool, k: nat) {
    k <= |all| && Quiet(load, all[..k], faults) && if k < |all| then Raises(load, all[k], faults(k)) else commitFails
  }

  /** The cache that a run leaves when it raises: what the combinations before the error wrote. */
  ghost predicate LeftBehind(w: World, load: Loader, all: seq<Combo>, faults: nat -> Fault, commitFails: bool,
                             redis: Redis)
  {
    exists k: nat :: StoppedAt(load, all, faults, commitFails, k) && redis == Run(w, load, all[..k], faults).redis
  }

  lemma RunNext(w: World, load: Loader, done: seq<Combo>, c: Combo, faults: nat -> Fault)
    ensures Run(w, load, done + [c], faults) == Step(Run(w, load, done, faults), load, c, faults(|done|))
  {
    assert (done + [c])[..|done|] == done;
    hide Step;
  }

  lemma StepUnfolds(w: World, load: Loader, c: Combo, f: Fault)
    ensures var w', key := Step(w, load, c, f), (c.pair, c.timeframe);
            && w'.loaded == w.loaded + LoadedBy(load, c)
            && w'.hits == w.hits + (if key in w.loaded then 1 else 0)
            && w'.missed == w.missed + (if key in w.loaded then [] else [key])
            && (Outcome(load, c, f).None? ==>
                  && w'.table == w.table && w'.redis == w.redis && w'.success == w.success
                  && w'.failed == w.failed + [(c.strategy.name, c.pair, c.timeframe)])
            && (Outcome(load, c, f).Some? ==>
                  && w'.table == Upsert(w.table, RowFrom(c, Outcome(load, c, f).value, f.now))
                  && w'.redis == Cached(w.redis, c, Outcome(load, c, f).value, f)
                  && w'.success == w.success + 1 && w'.failed == w.failed)
  {
    hide Outcome, Upsert, Cached, RowFrom;
  }

  lemma StopOrGoOn(load: Loader, all: seq<Combo>, done: seq<Combo>, c: Combo, faults: nat -> Fault, commitFails: bool)
    requires done + [c] <= all && Quiet(load, done, faults)
    ensures Raises(load, c, faults(|done|)) ==>
              StoppedAt(load, all, faults, commitFails, |done|) && all[..|done|] == done && !Quiet(load, all, faults)
    ensures !Raises(load, c, faults(|done|)) ==> Quiet(load, done + [c], faults)
  {
    assert (done + [c])[|done|] == c && all[|done|] == c;
    assert all[..|done|] == done;
    hide Raises;
  }

  lemma AllQuiet(load: Loader, all: seq<Combo>, faults: nat -> Fault, commitFails: bool)
    requires Quiet(load, all, faults) && commitFails
    ensures StoppedAt(load, all, faults, commitFails, |all|) && all[..|all|] == all
  {
    assert all[..|all|] == all;
    hide Raises;
  }

  lemma {:induction false} TimeframePrefix(s: StrategyInfo, pair: string, timeframes: seq<string>, ti: nat)
    requires ti <= |timeframes|
    ensures TimeframeCombos(s, pair, timeframes[..ti]) <= TimeframeCombos(s, pair, timeframes)
  {
    if ti < |timeframes| {
      TimeframePrefix(s, pair, timeframes[..|timeframes| - 1], ti);
      assert timeframes[..|timeframes| - 1][..ti] == timeframes[..ti];
    } else {
      assert timeframes[..ti] == timeframes;
    }
  }

  lemma {:induction false} PairPrefix(s: StrategyInfo, pairs: seq<string>, timeframes: seq<string>, pi: nat)
    requires pi <= |pairs|
    ensures PairCombos(s, pairs[..pi], timeframes) <= PairCombos(s, pairs, timeframes)
  {
    if pi < |pairs| {
      PairPrefix(s, pairs[..|pairs| - 1], timeframes, pi);
      assert pairs[..|pairs| - 1][..pi] == pairs[..pi];
    } else {
      assert pairs[..pi] == pairs;
    }
  }

  lemma {:induction false} StrategyPrefix(strategies: seq<StrategyInfo>, pairs: seq<string>, timeframes: seq<string>,
                                          si: nat)
    requires si <= |strategies|
    ensures Combos(strategies[..si], pairs, timeframes) <= Combos(strategies, pairs, timeframes)
  {
    if si < |strategies| {
      StrategyPrefix(strategies[..|strategies| - 1], pairs, timeframes, si);
      assert strategies[..|strategies| - 1][..si] == strategies[..si];
    } else {
      assert strategies[..si] == strategies;
    }
  }

  // What the three loops have done when they stand at a strategy, a pair, a timeframe.
  function AtStrategy(l: Loops, si: nat): seq<Combo>
    requires si <= |l.strategies|
  {
    Combos(l.strategies[..si], l.pairs, l.timeframes)
  }

  function AtPair(l: Loops, si: nat, pi: nat): seq<Combo>
    requires si < |l.strategies| && pi <= |l.pairs|
  {
    AtStrategy(l, si) + PairCombos(l.strategies[si], l.pairs[..pi], l.timeframes)
  }

  function AtTimeframe(l: Loops, si: nat, pi: nat, ti: nat): seq<Combo>
    requires si < |l.strategies| && pi < |l.pairs| && ti <= |l.timeframes|
  {
    AtPair(l, si, pi) + TimeframeCombos(l.strategies[si], l.pairs[pi], l.timeframes[..ti])
  }

  lemma StrategyLoop(l: Loops, si: nat)
    requires si <= |l.strategies|
    ensures AtStrategy(l, 0) == []
    ensures AtStrategy(l, |l.strategies|) == Combos(l.strategies, l.pairs, l.timeframes)
    ensures si < |l.strategies| ==> AtPair(l, si, 0) == AtStrategy(l, si)
    ensures si < |l.strategies| ==> AtPair(l, si, |l.pairs|) == AtStrategy(l, si + 1)
  {
    assert l.strategies[..|l.strategies|] == l.strategies && l.pairs[..|l.pairs|] == l.pairs;
    if si < |l.strategies| {
      assert l.strategies[..si + 1][..si] == l.strategies[..si];
    }
    hide TimeframeCombos;
  }

  lemma PairLoop(l: Loops, si: nat, pi: nat)
    requires si < |l.strategies| && pi < |l.pairs|
    ensures AtTimeframe(l, si, pi, 0) == AtPair(l, si, pi)
    ensures AtTimeframe(l, si, pi, |l.timeframes|) == AtPair(l, si, pi + 1)
  {
    hide Combos;
    assert l.timeframes[..|l.timeframes|] == l.timeframes && l.pairs[..pi + 1][..pi] == l.pairs[..pi];
    var s, before := l.strategies[si], PairCombos(l.strategies[si], l.pairs[..pi], l.timeframes);
    assert PairCombos(s, l.pairs[..pi + 1], l.timeframes) == before + TimeframeCombos(s, l.pairs[pi], l.timeframes);
    assert AtStrategy(l, si) + before + TimeframeCombos(s, l.pairs[pi], l.timeframes)
        == AtStrategy(l, si) + (before + TimeframeCombos(s, l.pairs[pi], l.timeframes));
  }

  lemma TimeframeLoop(l: Loops, si: nat, pi: nat, ti: nat)
    requires si < |l.strategies| && pi < |l.pairs| && ti < |l.timeframes|
    ensures AtTimeframe(l, si, pi, ti + 1)
            == AtTimeframe(l, si, pi, ti) + [Combo(l.strategies[si], l.pairs[pi], l.timeframes[ti])]
  {
    hide Combos, PairCombos;
    assert l.timeframes[..ti + 1][..ti] == l.timeframes[..ti];
    var before := TimeframeCombos(l.strategies[si], l.pairs[pi], l.timeframes[..ti]);
    var c := Combo(l.strategies[si], l.pairs[pi], l.timeframes[ti]);
    assert AtPair(l, si, pi) + before + [c] == AtPair(l, si, pi) + (before + [c]);
  }

  lemma Extend(o: seq<Combo>, a: seq<Combo>, b: seq<Combo>, all: seq<Combo>)
    requires a <= b && o + b <= all
    ensures o + a <= all
  {
    assert (o + b)[..|o + a|] == o + a;
  }

  /** Wherever the loops stand, what they have done is a prefix of all there is to do. */
  lemma DoneIsPrefix(l: Loops, si: nat, pi: nat, ti: nat)
    requires si < |l.strategies| && pi < |l.pairs| && ti <= |l.timeframes|
    ensures AtTimeframe(l, si, pi, ti) <= Combos(l.strategies, l.pairs, l.timeframes)
  {
    StrategyPrefix(l.strategies, l.pairs, l.timeframes, si + 1);
    StrategyLoop(l, si);
    PairPrefix(l.strategies[si], l.pairs, l.timeframes, pi + 1);
    PairLoop(l, si, pi);
    TimeframePrefix(l.strategies[si], l.pairs[pi], l.timeframes, ti);
    var all := Combos(l.strategies, l.pairs, l.timeframes);
    assert l.pairs[..|l.pairs|] == l.pairs && l.timeframes[..|l.timeframes|] == l.timeframes;
    hide Combos, PairCombos, TimeframeCombos;
    Extend(AtStrategy(l, si), PairCombos(l.strategies[si], l.pairs[..pi + 1], l.timeframes),
           PairCombos(l.strategies[si], l.pairs, l.timeframes), all);
    Extend(AtPair(l, si, pi), TimeframeCombos(l.strategies[si], l.pairs[pi], l.timeframes[..ti]),
           TimeframeCombos(l.strategies[si], l.pairs[pi], l.timeframes), all);
  }

  // ---------- What a run does ----------

  /** Every combination is counted once as success or failure, and once as hit or miss. */
  lemma {:induction false} RunCounts(w: World, load: Loader, cs: seq<Combo>, faults: nat -> Fault)
    ensures var w' := Run(w, load, cs, faults);
            && w'.success + |w'.failed| == w.success + |w.failed| + |cs|
            && w'.hits + |w'.missed| == w.hits + |w.missed| + |cs|
  {
    if cs != [] {
      var n := |cs| - 1;
      RunCounts(w, load, cs[..n], faults);
      hide Outcome, Upsert, Cached;
    }
  }

  lemma BarsSurvive(after: Columns, shared: Columns, loaded: Columns)
    requires Agree(after, shared, OHLCV) && Agree(shared, loaded, OHLCV)
    ensures Agree(after, loaded, OHLCV)
  {
  }

  lemma ExtractAgrees(c: Columns, d: Columns, rows: nat, now: int, names: set<string>)
    requires rows > 0 && Agree(c, d, names) && SIGNAL_COLUMNS + {"date"} <= names
    ensures Extract(c, rows, now) == Extract(d, rows, now)
  {
    forall name | name in names ensures CellAt(c, name, rows - 1) == CellAt(d, name, rows - 1) {}
    assert {"enter_long", "enter_short", "exit_long", "exit_short", "date"} <= names;
    hide CellAt, Agree;
  }

  /** Aliasing is harmless: a safe strategy on a frame that others have written to gives the signal it gives on a
      freshly loaded one. */
  lemma SharedIsFresh(shared: Columns, load: Loader, c: Combo, f: Fault)
    requires Safe(c.strategy) && c.strategy.program.Some? && Loadable(load, c.pair, c.timeframe)
    requires Agree(shared, load(c.pair, c.timeframe).value.cols, OHLCV)
    ensures var own, p := load(c.pair, c.timeframe).value, c.strategy.program.value;
            Extract(Exec(shared, own.rows, p), own.rows, f.now)
            == Extract(Exec(own.cols, own.rows, p), own.rows, f.now)
  {
    var own, p := load(c.pair, c.timeframe).value, c.strategy.program.value;
    hide Exec, WritesOf, WellScoped, Extract;
    ExecAgrees(shared, own.cols, own.rows, p, OHLCV);
    ExtractAgrees(Exec(shared, own.rows, p), Exec(own.cols, own.rows, p), own.rows, f.now, OHLCV + WritesOf(p));
  }
}
