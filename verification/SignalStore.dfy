/** Where a computed signal goes: the trading_signals table and the Redis list signal:{strategy_id}, and how the API
    reads the list back. */
module SignalStore {
  import opened Common

  // ---------- The table ----------

  datatype Source = Realtime | Backtest

  datatype Row = Row(strategyId: int, pair: string, timeframe: string, direction: Direction, confidence: real,
                     source: Source, signalAt: int, createdAt: int)

  datatype Key = Key(strategyId: int, pair: string, timeframe: string)

  function KeyOf(r: Row): Key { Key(r.strategyId, r.pair, r.timeframe) }

  /** The realtime row of a key; the partial unique index ignores backtest rows. */
  predicate IsRowOf(r: Row, k: Key) {
    r.source.Realtime? && r.strategyId == k.strategyId && r.pair == k.pair && r.timeframe == k.timeframe
  }

  function FindRow(t: seq<Row>, k: Key): (i: nat)
    ensures i <= |t| && (i < |t| ==> IsRowOf(t[i], k)) && forall j | 0 <= j < i :: !IsRowOf(t[j], k)
  {
    if t == [] || IsRowOf(t[0], k) then 0 else 1 + FindRow(t[1..], k)
  }

  function RowOf(t: seq<Row>, k: Key): Option<Row> {
    var i := FindRow(t, k); if i < |t| then Some(t[i]) else None
  }

  /** INSERT ... ON CONFLICT DO UPDATE on the partial index: r is a realtime row. */
  function Upsert(t: seq<Row>, r: Row): seq<Row> {
    var i := FindRow(t, KeyOf(r));
    if i < |t| then t[i := r] else t + [r]
  }

  /** The partial unique index: at most one realtime row a key. */
  predicate RealtimeUnique(t: seq<Row>) {
    forall i, j | 0 <= i < j < |t| && t[i].source.Realtime? :: !IsRowOf(t[j], KeyOf(t[i]))
  }

  function BacktestRows(t: seq<Row>): seq<Row> {
    if t == [] then []
    else BacktestRows(t[..|t| - 1]) + if t[|t| - 1].source.Backtest? then [t[|t| - 1]] else []
  }

  lemma FirstRow(t: seq<Row>, k: Key, i: nat)
    requires i < |t| && IsRowOf(t[i], k) && forall j | 0 <= j < i :: !IsRowOf(t[j], k)
    ensures FindRow(t, k) == i
  {
  }

  /** The upsert is a map update on the realtime rows: its own key gets the new row, every other key keeps its own,
      and the unique index holds again. */
  lemma UpsertIsMapUpdate(t: seq<Row>, r: Row, k: Key)
    requires r.source.Realtime?
    ensures RowOf(Upsert(t, r), k) == if IsRowOf(r, k) then Some(r) else RowOf(t, k)
    ensures RealtimeUnique(t) ==> RealtimeUnique(Upsert(t, r))
  {
    var own := KeyOf(r);
    var i, j := FindRow(t, own), FindRow(t, k);
    var t' := Upsert(t, r);
    if IsRowOf(r, k) {
      assert k == own;
      FirstRow(t', k, i);
    } else if j < |t| {
      FirstRow(t', k, j);
    } else {
      assert forall l | 0 <= l < |t'| :: !IsRowOf(t'[l], k);
    }
    assert i < |t| ==> forall l | 0 <= l < |t| :: KeyOf(t'[l]) == KeyOf(t[l]) && t'[l].source == t[l].source;
  }

  lemma {:induction false} ReplaceRealtime(t: seq<Row>, i: nat, r: Row)
    requires i < |t| && t[i].source.Realtime? && r.source.Realtime?
    ensures BacktestRows(t[i := r]) == BacktestRows(t)
  {
    var n := |t| - 1;
    if i < n {
      ReplaceRealtime(t[..n], i, r);
      assert t[i := r][..n] == t[..n][i := r];
    } else {
      assert t[i := r][..n] == t[..n];
    }
  }

  /** Backtest rows are neither matched nor touched. */
  lemma UpsertKeepsBacktests(t: seq<Row>, r: Row)
    requires r.source.Realtime?
    ensures BacktestRows(Upsert(t, r)) == BacktestRows(t)
  {
    var i := FindRow(t, KeyOf(r));
    if i < |t| {
      ReplaceRealtime(t, i, r);
    } else {
      assert (t + [r])[..|t|] == t;
    }
  }

  // ---------- The cached list ----------

  /** One entry of the list. `parses` says that its direction and its two times are readable. */
  datatype CachedSignal = CachedSignal(strategyId: int, pair: string, timeframe: string, direction: Direction,
                                       confidence: real, signalAt: int, createdAt: int, parses: bool)

  /** The time of the last update: no such field, one that does not parse, or an instant. */
  datatype LastUpdate = Missing | Unreadable | UpdatedAt(t: int)

  /** What the Redis value is: not JSON, JSON that is no object with a list of objects, or such an object. A missing
      list reads as an empty one. */
  datatype CacheValue = NotJson | OtherShape | Signals(list: seq<CachedSignal>, lastUpdated: LastUpdate)

  datatype CacheEntry = CacheEntry(value: CacheValue, expires: int)

  type Redis = map<int, CacheEntry>

  const SIGNAL_CACHE_TTL: int := 3600

  function Visible(redis: Redis, id: int, now: int): Option<CacheValue> {
    if id in redis && now < redis[id].expires then Some(redis[id].value) else None
  }

  predicate IsFor(s: CachedSignal, pair: string, timeframe: string) { s.pair == pair && s.timeframe == timeframe }

  function Find(list: seq<CachedSignal>, pair: string, timeframe: string): (i: nat)
    ensures i <= |list| && (i < |list| ==> IsFor(list[i], pair, timeframe))
    ensures forall j | 0 <= j < i :: !IsFor(list[j], pair, timeframe)
  {
    if list == [] || IsFor(list[0], pair, timeframe) then 0 else 1 + Find(list[1..], pair, timeframe)
  }

  function Get(list: seq<CachedSignal>, pair: string, timeframe: string): Option<CachedSignal> {
    var i := Find(list, pair, timeframe); if i < |list| then Some(list[i]) else None
  }

  /** Replace the first entry for the pair and timeframe, or append. */
  function Put(list: seq<CachedSignal>, s: CachedSignal): seq<CachedSignal> {
    var i := Find(list, s.pair, s.timeframe); if i < |list| then list[i := s] else list + [s]
  }

  predicate UniqueKeys(list: seq<CachedSignal>) {
    forall i, j | 0 <= i < j < |list| :: !IsFor(list[i], list[j].pair, list[j].timeframe)
  }

  /** The loop that looks for the entry and replaces it in place, or else appends. */
  method FindOrAppend(list: seq<CachedSignal>, s: CachedSignal) returns (r: seq<CachedSignal>)
    ensures r == Put(list, s)
  {
    r := list;
    var updated := false;
    var i := 0;
    while i < |list| && !updated
      invariant 0 <= i <= |list|
      invariant !updated ==> r == list && forall j | 0 <= j < i :: !IsFor(list[j], s.pair, s.timeframe)
      invariant updated ==> r == Put(list, s)
      decreases |list| - i, !updated
    {
      if IsFor(r[i], s.pair, s.timeframe) {
        FirstEntry(list, s.pair, s.timeframe, i);
        r := r[i := s];
        updated := true;
      } else {
        i := i + 1;
      }
    }
    if !updated {
      r := r + [s];
    }
  }

  lemma FirstEntry(list: seq<CachedSignal>, pair: string, timeframe: string, i: nat)
    requires i < |list| && IsFor(list[i], pair, timeframe)
    requires forall j | 0 <= j < i :: !IsFor(list[j], pair, timeframe)
    ensures Find(list, pair, timeframe) == i
  {
  }

  /** Find-or-append is a map update that leaves every other entry where it is and keeps the keys unique. */
  lemma PutIsMapUpdate(list: seq<CachedSignal>, s: CachedSignal, pair: string, timeframe: string)
    ensures Get(Put(list, s), pair, timeframe)
            == if IsFor(s, pair, timeframe) then Some(s) else Get(list, pair, timeframe)
    ensures UniqueKeys(list) ==> UniqueKeys(Put(list, s))
    ensures |list| <= |Put(list, s)| <= |list| + 1
    ensures forall j | 0 <= j < |list| && !IsFor(list[j], s.pair, s.timeframe) :: Put(list, s)[j] == list[j]
  {
    var i, j := Find(list, s.pair, s.timeframe), Find(list, pair, timeframe);
    var list' := Put(list, s);
    if IsFor(s, pair, timeframe) {
      FirstEntry(list', pair, timeframe, i);
    } else if j < |list| {
      FirstEntry(list', pair, timeframe, j);
    } else {
      assert forall l | 0 <= l < |list'| :: !IsFor(list'[l], pair, timeframe);
    }
  }

  // ---------- The API's cached path ----------

  function Matching(list: seq<CachedSignal>, pair: Option<string>, timeframe: Option<string>): seq<CachedSignal> {
    if list == [] then []
    else
      var n := |list| - 1;
      Matching(list[..n], pair, timeframe)
      + if (pair.None? || list[n].pair == pair.value) && (timeframe.None? || list[n].timeframe == timeframe.value)
        then [list[n]] else []
  }

  predicate Fits(s: CachedSignal, pair: Option<string>, timeframe: Option<string>) {
    (pair.Some? ==> s.pair == pair.value) && (timeframe.Some? ==> s.timeframe == timeframe.value)
  }

  /** The filters keep exactly the entries that fit, in their order. */
  lemma {:induction false} MatchingKeepsOrder(list: seq<CachedSignal>, pair: Option<string>, timeframe: Option<string>)
    returns (ks: seq<nat>)
    ensures Picks(ks, |list|) && |ks| == |Matching(list, pair, timeframe)|
    ensures forall k: nat | k < |list| :: k in ks <==> Fits(list[k], pair, timeframe)
    ensures forall j | 0 <= j < |ks| :: Matching(list, pair, timeframe)[j] == list[ks[j]]
  {
    ks := [];
    if list != [] {
      var n := |list| - 1;
      ks := MatchingKeepsOrder(list[..n], pair, timeframe);
      assert forall k | 0 <= k < n :: list[..n][k] == list[k];
      PickNext(ks, n);
      if Fits(list[n], pair, timeframe) {
        ks := ks + [n];
      }
    }
  }

  function PageOf(s: seq<CachedSignal>, page: nat, size: nat): seq<CachedSignal>
    requires page >= 1
  {
    var offset := (page - 1) * size;
    if offset >= |s| then [] else s[offset..if offset + size < |s| then offset + size else |s|]
  }

  function Pages(s: seq<CachedSignal>, n: nat, size: nat): seq<CachedSignal> {
    if n == 0 then [] else Pages(s, n - 1, size) + PageOf(s, n, size)
  }

  /** Read one after the other, the pages give the entries in order, none twice and none left out. */
  lemma {:induction false} PagesCover(s: seq<CachedSignal>, n: nat, size: nat)
    ensures Pages(s, n, size) == s[..if n * size < |s| then n * size else |s|]
  {
    if n > 0 {
      PagesCover(s, n - 1, size);
      NextOffset(n, size);
    }
  }

  lemma NextOffset(n: nat, size: nat)
    requires n > 0
    ensures n * size == (n - 1) * size + size && (n - 1) * size >= 0
  {
  }

  /** The value the API can answer from: a list whose entries all parse, with a time of the last update that does too,
      if there is one. */
  predicate Readable(v: Option<CacheValue>) {
    v.Some? && v.value.Signals? && !v.value.lastUpdated.Unreadable? && forall s | s in v.value.list :: s.parses
  }

  datatype Answer =
    | NotFound                                                              // no such strategy
    | FromDatabase                                                          // Redis fails, or nothing readable is there
    | FromCache(page: seq<CachedSignal>, total: nat, lastUpdated: int)

  /** What list_signals may answer: NotFound exactly for an unknown strategy; from the cache exactly when Redis works
      and something readable is visible, with the page and the number of the matching entries and the time of the last
      update. */
  predicate IsAnswer(a: Answer, known: set<int>, v: Option<CacheValue>, id: int, pair: Option<string>,
                     timeframe: Option<string>, page: nat, size: nat, now: int, redisFails: bool)
    requires page >= 1
  {
    && (a.NotFound? <==> id !in known)
    && (a.FromCache? <==> id in known && !redisFails && Readable(v))
    && (a.FromCache? ==>
          var matching := Matching(v.value.list, pair, timeframe);
          && a.page == PageOf(matching, page, size) && a.total == |matching|
          && a.lastUpdated == if v.value.lastUpdated.UpdatedAt? then v.value.lastUpdated.t else now)
  }

  /** list_signals with a strategy id, up to its fallback to the database; `known` are the ids in the strategies
      table. */
  method ListSignals(known: set<int>, redis: Redis, id: int, pair: Option<string>, timeframe: Option<string>,
                     page: nat, size: nat, now: int, redisFails: bool)
    returns (a: Answer)
    requires page >= 1
    ensures IsAnswer(a, known, Visible(redis, id, now), id, pair, timeframe, page, size, now, redisFails)
    ensures a.NotFound? <==> id !in known
    // Nothing is read at or after its expiry, and nothing that does not parse.
    ensures a.FromCache? <==>
              && id in known && !redisFails && id in redis && now < redis[id].expires
              && redis[id].value.Signals? && !redis[id].value.lastUpdated.Unreadable?
              && forall s | s in redis[id].value.list :: s.parses
    ensures a.FromCache? ==>
              var matching := Matching(redis[id].value.list, pair, timeframe);
              && a.page == PageOf(matching, page, size) && a.total == |matching|
              && a.lastUpdated == if redis[id].value.lastUpdated.UpdatedAt? then redis[id].value.lastUpdated.t else now
  {
    if id !in known {
      return NotFound;
    }
    var cached := Visible(redis, id, now);
    if redisFails || cached.None? || !cached.value.Signals? || cached.value.lastUpdated.Unreadable? {
      return FromDatabase;
    }
    var signals := cached.value.list;
    for i := 0 to |signals|
      invariant forall j | 0 <= j < i :: signals[j].parses
    {
      if !signals[i].parses {
        return FromDatabase;
      }
    }
    var kept := Matching(signals, pair, None);
    var matching := Matching(kept, None, timeframe);
    MatchingTwice(signals, pair, timeframe);
    var lastUpdated := if cached.value.lastUpdated.UpdatedAt? then cached.value.lastUpdated.t else now;
    a := FromCache(PageOf(matching, page, size), |matching|, lastUpdated);
  }

  lemma {:induction false} MatchingTwice(list: seq<CachedSignal>, pair: Option<string>, timeframe: Option<string>)
    ensures Matching(Matching(list, pair, None), None, timeframe) == Matching(list, pair, timeframe)
  {
    if list != [] {
      var n := |list| - 1;
      MatchingTwice(list[..n], pair, timeframe);
      var before := Matching(list[..n], pair, None);
      if pair.None? || list[n].pair == pair.value {
        var all := before + [list[n]];
        assert Matching(list, pair, None) == all && all[..|all| - 1] == before && all[|all| - 1] == list[n];
      } else {
        assert Matching(list, pair, None) == before;
      }
    }
  }

  lemma {:induction false} NothingMatches(list: seq<CachedSignal>, pair: string, timeframe: string)
    requires forall j | 0 <= j < |list| :: !IsFor(list[j], pair, timeframe)
    ensures Matching(list, Some(pair), Some(timeframe)) == []
  {
    if list != [] { NothingMatches(list[..|list| - 1], pair, timeframe); }
  }

  /** With unique keys, filtering by pair and timeframe finds the entry and nothing else. */
  lemma {:induction false} MatchingIsGet(list: seq<CachedSignal>, pair: string, timeframe: string)
    requires UniqueKeys(list)
    ensures Matching(list, Some(pair), Some(timeframe))
            == match Get(list, pair, timeframe) case None => [] case Some(s) => [s]
  {
    if list != [] {
      var n := |list| - 1;
      if IsFor(list[n], pair, timeframe) {
        forall j | 0 <= j < n ensures !IsFor(list[..n][j], pair, timeframe) {}
        NothingMatches(list[..n], pair, timeframe);
        FirstEntry(list, pair, timeframe, n);
      } else {
        MatchingIsGet(list[..n], pair, timeframe);
        var i := Find(list[..n], pair, timeframe);
        if i < n { FirstEntry(list, pair, timeframe, i); }
        else { assert forall j | 0 <= j < n :: !IsFor(list[..n][j], pair, timeframe) && list[..n][j] == list[j]; }
      }
    }
  }
}
