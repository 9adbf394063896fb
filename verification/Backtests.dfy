/** The life of a backtest task: one worker with a private session, several commits, crashes and redeliveries,
    against a table with one row per (strategy, date) and admin submissions in between. */
module Backtests {
  import opened Common

  datatype Status = PENDING | RUNNING | DONE | FAILED

  /** The six core metrics. */
  datatype Six = Six(totalReturn: real, annualReturn: real, sharpeRatio: real, maxDrawdown: real,
                     tradeCount: int, winRate: real)

  /** The unique key of backtest_tasks. */
  datatype Key = Key(strategyId: int, date: int)

  datatype Task = Task(id: nat, status: Status, resultJson: Option<Six>)
  datatype Result = Result(taskId: nat, metrics: Six)
  datatype Strategy = Strategy(registered: bool, metrics: Option<Six>)

  /** What is committed. */
  datatype Db = Db(tasks: map<Key, Task>, results: seq<Result>, strategies: map<int, Strategy>, nextId: nat)

  // ---------- One execution, one database statement or external action at a time ----------

  /** Where the worker is. Only `Inserted` and `Collected` have something uncommitted in the session. */
  datatype Worker =
    | Idle
    | Delivered(key: Key)
    | Unblocked(key: Key)            // no RUNNING or DONE row was there
    | Registered(key: Key)           // the strategy exists and is in the registry
    | NoPending(key: Key)            // no PENDING row was there
    | Inserted(key: Key, id: nat)    // a new PENDING row is flushed
    | Adopted(key: Key)              // a committed PENDING row is being taken over
    | Launched(key: Key)             // RUNNING is committed
    | Executing(key: Key)            // the subprocess has been started
    | Collected(key: Key, six: Six)  // its output is being written

  /** How the generic handler fares. It never rolls back, so its commit of FAILED takes along whatever the session still
      holds; and after a database error the session refuses to commit at all. */
  datatype Handler = KeepsPending | CommitFails

  datatype Output = Produced(six: Six) | ProcessError(committed: bool) | UnexpectedError

  /** What the outside world does to one execution. `written` says how many of the three pending writes (result_json,
      BacktestResult, strategy columns) were made before an error in the last part. */
  datatype Plan = Plan(runningCommitFails: bool, prepareFails: bool, output: Output, publishFails: bool,
                       written: nat, handler: Handler)

  function SetStatus(db: Db, key: Key, status: Status): Db
    requires key in db.tasks
  {
    db.(tasks := db.tasks[key := db.tasks[key].(status := status)])
  }

  /** The first `written` of the pending writes. */
  function WithWrites(db: Db, key: Key, six: Six, written: nat): Db
    requires key in db.tasks
  {
    var db1 := if written < 1 then db else db.(tasks := db.tasks[key := db.tasks[key].(resultJson := Some(six))]);
    var db2 := if written < 2 then db1 else db1.(results := db1.results + [Result(db.tasks[key].id, six)]);
    if written < 3 || key.strategyId !in db.strategies then db2
    else db2.(strategies := db.strategies[key.strategyId := db.strategies[key.strategyId].(metrics := Some(six))])
  }

  /** The generic handler, with `written` writes pending. */
  function Handle(db: Db, key: Key, six: Option<Six>, written: nat, h: Handler): Db
    requires key in db.tasks
  {
    match h
    case CommitFails => db
    case KeepsPending => SetStatus(if six.Some? then WithWrites(db, key, six.value, written) else db, key, FAILED)
  }

  function NewRow(db: Db, key: Key, status: Status): Db {
    db.(tasks := db.tasks[key := Task(db.nextId, status, None)], nextId := db.nextId + 1)
  }

  /** The worker's rows are still there; nobody deletes tasks. */
  predicate RowPresent(db: Db, w: Worker) {
    w.Adopted? || w.Launched? || w.Executing? || w.Collected? ==> w.key in db.tasks
  }

  /** One step of run_backtest_task: the new committed state, the worker, and whether the subprocess was started.
      An IntegrityError on the unique key ends the execution with nothing written. */
  function WorkerStep(db: Db, w: Worker, p: Plan): (r: (Db, Worker, bool))
    requires RowPresent(db, w)
  {
    match w
    case Idle => (db, Idle, false)
    case Delivered(k) =>
      if k in db.tasks && db.tasks[k].status in {RUNNING, DONE} then (db, Idle, false) else (db, Unblocked(k), false)
    case Unblocked(k) =>
      if k.strategyId !in db.strategies then (db, Idle, false)
      else if db.strategies[k.strategyId].registered then (db, Registered(k), false)
      else (if k in db.tasks then db else NewRow(db, k, FAILED), Idle, false)
    case Registered(k) =>
      (db, if k in db.tasks && db.tasks[k].status.PENDING? then Adopted(k) else NoPending(k), false)
    case NoPending(k) =>
      if k in db.tasks then (db, Idle, false) else (db.(nextId := db.nextId + 1), Inserted(k, db.nextId), false)
    case Inserted(k, id) =>
      if p.runningCommitFails then (db, Idle, false)
      else (db.(tasks := db.tasks[k := Task(id, RUNNING, None)]), Launched(k), false)
    case Adopted(k) =>
      // The handler's commit is on the session whose commit has just failed, and fails too.
      if p.runningCommitFails then (db, Idle, false) else (SetStatus(db, k, RUNNING), Launched(k), false)
    case Launched(k) =>
      if p.prepareFails then (Handle(db, k, None, 0, p.handler), Idle, false) else (db, Executing(k), true)
    case Executing(k) =>
      (match p.output
       case Produced(six) => (db, Collected(k, six), false)
       case ProcessError(committed) => (if committed then SetStatus(db, k, FAILED) else db, Idle, false)
       case UnexpectedError => (Handle(db, k, None, 0, p.handler), Idle, false))
    case Collected(k, six) =>
      if p.publishFails then (Handle(db, k, Some(six), p.written, p.handler), Idle, false)
      else (SetStatus(WithWrites(db, k, six, 3), k, DONE), Idle, false)
  }

  // ---------- Runs ----------

  /** `starts` lists the keys for which the subprocess was started. */
  datatype State = State(db: Db, worker: Worker, starts: seq<Key>)

  datatype Event =
    | Deliver(key: Key)       // from Beat, from an admin submission, or again after a crash
    | Step(plan: Plan)
    | Crash                   // the worker process dies and its session with it
    | Submit(key: Key)        // an admin submission: a PENDING row, with a delivery enqueued just before its commit

  /** Another session's insert of this key fails or waits: a row is committed, or flushed by the worker. */
  predicate KeyTaken(s: State, key: Key) {
    key in s.db.tasks || (s.worker.Inserted? && s.worker.key == key)
  }

  function Apply(s: State, e: Event): State {
    match e
    case Deliver(key) => if s.worker.Idle? then s.(worker := Delivered(key)) else s
    case Step(plan) =>
      if !RowPresent(s.db, s.worker) then s
      else
        var r := WorkerStep(s.db, s.worker, plan);
        State(r.0, r.1, if r.2 then s.starts + [s.worker.key] else s.starts)
    case Crash => s.(worker := Idle)
    case Submit(key) =>
      if key.strategyId in s.db.strategies && s.db.strategies[key.strategyId].registered && !KeyTaken(s, key)
      then s.(db := NewRow(s.db, key, PENDING)) else s
  }

  function RunFrom(s: State, es: seq<Event>): State {
    if es == [] then s else Apply(RunFrom(s, es[..|es| - 1]), es[|es| - 1])
  }

  predicate Initial(s: State) {
    s.db.tasks == map[] && s.db.results == [] && s.worker.Idle? && s.starts == []
  }

  // ---------- What every committed state satisfies ----------

  function CountResults(results: seq<Result>, id: nat): nat {
    if results == [] then 0
    else CountResults(results[..|results| - 1], id) + if results[|results| - 1].taskId == id then 1 else 0
  }

  /** The results published for a task. */
  predicate Published(db: Db, t: Task) {
    match t.status
    case PENDING => t.resultJson.None? && CountResults(db.results, t.id) == 0
    case RUNNING => t.resultJson.None? && CountResults(db.results, t.id) == 0
    case DONE =>
      && t.resultJson.Some? && CountResults(db.results, t.id) == 1
      && Result(t.id, t.resultJson.value) in db.results
    case FAILED => CountResults(db.results, t.id) <= 1
  }

  predicate Tidy(db: Db) {
    && (forall k | k in db.tasks :: db.tasks[k].id < db.nextId)
    && (forall k, l | k in db.tasks && l in db.tasks && k != l :: db.tasks[k].id != db.tasks[l].id)
    && (forall r | r in db.results :: r.taskId < db.nextId)
    && (forall k | k in db.tasks :: Published(db, db.tasks[k]))
  }

  /** The worker's row is in the state its position requires. */
  predicate WorkerTidy(s: State) {
    match s.worker
    case Adopted(k) => k in s.db.tasks && s.db.tasks[k].status.PENDING?
    case Inserted(k, id) =>
      && k !in s.db.tasks && id < s.db.nextId
      && (forall l | l in s.db.tasks :: s.db.tasks[l].id != id)
      && (forall r | r in s.db.results :: r.taskId != id)
    case Launched(k) => k in s.db.tasks && s.db.tasks[k].status.RUNNING? && k !in s.starts
    case Executing(k) => k in s.db.tasks && s.db.tasks[k].status.RUNNING?
    case Collected(k, _) => k in s.db.tasks && s.db.tasks[k].status.RUNNING?
    case _ => true
  }

  /** A key that was started has a row that has left PENDING, and no key was started twice. */
  predicate StartsTidy(s: State) {
    && (forall k | k in s.starts :: k in s.db.tasks && !s.db.tasks[k].status.PENDING?)
    && (forall i, j | 0 <= i < j < |s.starts| :: s.starts[i] != s.starts[j])
  }

  /** Past its second check the worker is on a strategy that exists; strategies are never removed. */
  predicate StrategyKnown(s: State) {
    !s.worker.Idle? && !s.worker.Delivered? && !s.worker.Unblocked? ==> s.worker.key.strategyId in s.db.strategies
  }

  predicate Inv(s: State) { Tidy(s.db) && WorkerTidy(s) && StartsTidy(s) && StrategyKnown(s) }

  lemma {:induction false} NoResultsCounted(results: seq<Result>, id: nat)
    requires forall r | r in results :: r.taskId != id
    ensures CountResults(results, id) == 0
  {
    if results != [] { NoResultsCounted(results[..|results| - 1], id); }
  }

  lemma CountAppend(results: seq<Result>, r: Result, id: nat)
    ensures CountResults(results + [r], id) == CountResults(results, id) + if r.taskId == id then 1 else 0
  {
    assert (results + [r])[..|results|] == results;
  }

  /** Changing one row, and possibly adding a result for it, keeps the others as published. */
  lemma OthersStayPublished(db: Db, db': Db, key: Key)
    requires Tidy(db) && key in db.tasks && key in db'.tasks
    requires db'.nextId == db.nextId && db'.tasks.Keys == db.tasks.Keys
    requires db'.tasks[key].id == db.tasks[key].id
    requires forall k | k in db.tasks && k != key :: db'.tasks[k] == db.tasks[k]
    requires db'.results == db.results || exists six :: db'.results == db.results + [Result(db.tasks[key].id, six)]
    requires Published(db', db'.tasks[key])
    ensures Tidy(db')
  {
    forall k | k in db'.tasks && k != key ensures Published(db', db'.tasks[k]) {
      if six :| db'.results == db.results + [Result(db.tasks[key].id, six)] {
        CountAppend(db.results, Result(db.tasks[key].id, six), db.tasks[k].id);
      }
    }
  }

  lemma OwnWritesPublished(db: Db, key: Key, six: Six, written: nat, status: Status)
    requires key in db.tasks && db.tasks[key].status.RUNNING? && Published(db, db.tasks[key])
    requires status.FAILED? || (status.DONE? && written >= 3)
    ensures var db' := SetStatus(WithWrites(db, key, six, written), key, status);
            && db'.nextId == db.nextId && db'.tasks.Keys == db.tasks.Keys && db'.tasks[key].id == db.tasks[key].id
            && (forall k | k in db.tasks && k != key :: db'.tasks[k] == db.tasks[k])
            && (db'.results == db.results || db'.results == db.results + [Result(db.tasks[key].id, six)])
            && Published(db', db'.tasks[key])
  {
    hide CountResults;
    CountAppend(db.results, Result(db.tasks[key].id, six), db.tasks[key].id);
  }

  lemma WritesPublished(db: Db, key: Key, six: Six, written: nat, status: Status)
    requires Tidy(db) && key in db.tasks && db.tasks[key].status.RUNNING?
    requires status.FAILED? || (status.DONE? && written >= 3)
    ensures Tidy(SetStatus(WithWrites(db, key, six, written), key, status))
  {
    assert Published(db, db.tasks[key]);
    hide Tidy, Published, WithWrites, SetStatus;
    OwnWritesPublished(db, key, six, written, status);
    OthersStayPublished(db, SetStatus(WithWrites(db, key, six, written), key, status), key);
  }

  lemma StatusPublished(db: Db, key: Key, status: Status)
    requires Tidy(db) && key in db.tasks
    requires (db.tasks[key].status.PENDING? && status.RUNNING?) || (db.tasks[key].status.RUNNING? && status.FAILED?)
    ensures Tidy(SetStatus(db, key, status))
  {
    OthersStayPublished(db, SetStatus(db, key, status), key);
  }

  lemma NewRowPublished(db: Db, key: Key, id: nat, status: Status, nextId: nat)
    requires Tidy(db) && key !in db.tasks && id < nextId && db.nextId <= nextId && !status.DONE?
    requires forall l | l in db.tasks :: db.tasks[l].id != id
    requires forall r | r in db.results :: r.taskId != id
    ensures Tidy(db.(tasks := db.tasks[key := Task(id, status, None)], nextId := nextId))
  {
    NoResultsCounted(db.results, id);
  }

  lemma HandlePublished(db: Db, key: Key, six: Option<Six>, written: nat, h: Handler)
    requires Tidy(db) && key in db.tasks
    requires db.tasks[key].status.RUNNING?
    ensures Tidy(Handle(db, key, six, written, h))
  {
    if h.KeepsPending? && six.Some? {
      WritesPublished(db, key, six.value, written, FAILED);
    } else if !h.CommitFails? {
      StatusPublished(db, key, FAILED);
    }
  }

  lemma WorkerStepTidy(s: State, p: Plan)
    requires Inv(s)
    ensures RowPresent(s.db, s.worker) && Tidy(WorkerStep(s.db, s.worker, p).0)
  {
    hide Tidy, Handle, WithWrites;
    var db := s.db;
    match s.worker
    case Unblocked(k) => if k !in db.tasks { FreshId(db); NewRowPublished(db, k, db.nextId, FAILED, db.nextId + 1); }
    case NoPending(k) => SkipId(db);
    case Inserted(k, id) => if !p.runningCommitFails { NewRowPublished(db, k, id, RUNNING, db.nextId); }
    case Adopted(k) => StatusPublished(db, k, RUNNING);
    case Launched(k) => HandlePublished(db, k, None, 0, p.handler);
    case Executing(k) => HandlePublished(db, k, None, 0, p.handler); StatusPublished(db, k, FAILED);
    case Collected(k, six) =>
      HandlePublished(db, k, Some(six), p.written, p.handler);
      WritesPublished(db, k, six, 3, DONE);
    case _ =>
  }

  lemma FreshId(db: Db)
    requires Tidy(db)
    ensures forall l | l in db.tasks :: db.tasks[l].id != db.nextId
    ensures forall r | r in db.results :: r.taskId != db.nextId
  {
  }

  lemma SkipId(db: Db)
    requires Tidy(db)
    ensures Tidy(db.(nextId := db.nextId + 1))
  {
    assert forall t :: Published(db.(nextId := db.nextId + 1), t) == Published(db, t);
  }

  // ---------- How committed rows move ----------

  /** PENDING to RUNNING to DONE or FAILED. */
  predicate Moves(a: Status, b: Status) {
    a == b || (a.PENDING? && b.RUNNING?) || (a.RUNNING? && b in {DONE, FAILED})
  }

  /** Rows stay, keep their id, and move only forward; new rows are born PENDING, RUNNING or FAILED, without results. */
  predicate Forward(db: Db, db': Db) {
    && (forall k | k in db.tasks :: k in db'.tasks && db'.tasks[k].id == db.tasks[k].id
                                    && Moves(db.tasks[k].status, db'.tasks[k].status)
                                    && (db'.tasks[k].status == db.tasks[k].status ==> db'.tasks[k] == db.tasks[k]))
    && (forall k | k in db'.tasks && k !in db.tasks :: !db'.tasks[k].status.DONE? && db'.tasks[k].resultJson.None?)
    && db.results <= db'.results
    && db'.strategies.Keys == db.strategies.Keys
  }

  lemma SameForward(db: Db)
    ensures forall n :: Forward(db, db.(nextId := n))
    ensures Forward(db, db)
  {
  }

  lemma NewRowForward(db: Db, key: Key, id: nat, status: Status, nextId: nat)
    requires key !in db.tasks && !status.DONE?
    ensures Forward(db, db.(tasks := db.tasks[key := Task(id, status, None)], nextId := nextId))
  {
  }

  lemma StatusForward(db: Db, key: Key, status: Status)
    requires key in db.tasks && Moves(db.tasks[key].status, status)
    ensures Forward(db, SetStatus(db, key, status))
  {
  }

  lemma WritesForward(db: Db, key: Key, six: Six, written: nat, status: Status)
    requires key in db.tasks && db.tasks[key].status.RUNNING? && status in {DONE, FAILED}
    ensures Forward(db, SetStatus(WithWrites(db, key, six, written), key, status))
  {
  }

  lemma HandleForward(db: Db, key: Key, six: Option<Six>, written: nat, h: Handler)
    requires key in db.tasks
    requires db.tasks[key].status.RUNNING?
    ensures Forward(db, Handle(db, key, six, written, h))
  {
    hide WithWrites, Forward;
    StatusForward(db, key, db.tasks[key].status);
    StatusForward(db, key, FAILED);
    if h.KeepsPending? && six.Some? { WritesForward(db, key, six.value, written, FAILED); }
    assert SetStatus(db, key, db.tasks[key].status) == db by {
      assert db.tasks[key := db.tasks[key]] == db.tasks;
    }
  }

  lemma EventForward(s: State, e: Event)
    requires Inv(s)
    ensures Forward(s.db, Apply(s, e).db)
  {
    if e.Step? {
      StepForward(s, e.plan);
    }
  }

  lemma StepForward(s: State, p: Plan)
    requires Inv(s)
    ensures Forward(s.db, Apply(s, Step(p)).db)
  {
    assert WorkerTidy(s);
    hide Inv, Tidy, Handle, WithWrites, SetStatus, Forward;
    var db := s.db;
    SameForward(db);
    match s.worker
    case Unblocked(k) => if k !in db.tasks { NewRowForward(db, k, db.nextId, FAILED, db.nextId + 1); }
    case Inserted(k, id) => NewRowForward(db, k, id, RUNNING, db.nextId);
    case Adopted(k) => StatusForward(db, k, RUNNING);
    case Launched(k) => HandleForward(db, k, None, 0, p.handler);
    case Executing(k) => HandleForward(db, k, None, 0, p.handler); StatusForward(db, k, FAILED);
    case Collected(k, six) =>
      HandleForward(db, k, Some(six), p.written, p.handler);
      WritesForward(db, k, six, 3, DONE);
    case _ =>
  }

  /** Every event keeps the invariant. */
  lemma EventKeepsInv(s: State, e: Event)
    requires Inv(s)
    ensures Inv(Apply(s, e))
  {
    EventForward(s, e);
    match e
    case Step(p) =>
      WorkerStepTidy(s, p);
      StepKeepsWorker(s, p);
      StepKeepsStarts(s, p);
      StepKeepsStrategy(s, p);
    case Submit(k) =>
      FreshId(s.db);
      if k !in s.db.tasks { NewRowPublished(s.db, k, s.db.nextId, PENDING, s.db.nextId + 1); }
    case _ =>
  }

  /** The handler touches the status of one row only, and leaves ids, keys and old results alone. */
  lemma HandleFrame(db: Db, key: Key, six: Option<Six>, written: nat, h: Handler)
    requires key in db.tasks
    ensures var db' := Handle(db, key, six, written, h);
            && db'.tasks.Keys == db.tasks.Keys && db'.nextId == db.nextId
            && db'.tasks[key].status in {db.tasks[key].status, FAILED}
            && (forall k | k in db.tasks && k != key :: db'.tasks[k] == db.tasks[k])
  {
  }

  lemma StepKeepsWorker(s: State, p: Plan)
    requires Inv(s)
    ensures WorkerTidy(Apply(s, Step(p)))
  {
    hide Published, Handle, StartsTidy;
    match s.worker
    case Registered(_) =>
    case NoPending(_) => FreshId(s.db);
    case Inserted(_, _) => StartedHaveRows(s);
    case Adopted(k) => StartedNotPending(s, k);
    case _ =>
  }

  lemma StartedHaveRows(s: State)
    requires StartsTidy(s)
    ensures forall k | k in s.starts :: k in s.db.tasks
  {
  }

  lemma StartedNotPending(s: State, k: Key)
    requires StartsTidy(s) && k in s.db.tasks && s.db.tasks[k].status.PENDING?
    ensures k !in s.starts
  {
  }

  lemma StepKeepsStrategy(s: State, p: Plan)
    requires StrategyKnown(s)
    ensures StrategyKnown(Apply(s, Step(p)))
  {
    hide Handle, WithWrites;
  }

  lemma StepKeepsStarts(s: State, p: Plan)
    requires Inv(s)
    ensures StartsTidy(Apply(s, Step(p)))
  {
    hide Tidy, WithWrites, Handle;
    var k := if s.worker.Idle? then Key(0, 0) else s.worker.key;
    match s.worker
    case Launched(_) => HandleFrame(s.db, k, None, 0, p.handler);
    case Executing(_) => HandleFrame(s.db, k, None, 0, p.handler);
    case Collected(_, six) =>
      HandleFrame(s.db, k, Some(six), p.written, p.handler);
      WritesFrame(s.db, k, six);
    case _ =>
  }

  lemma WritesFrame(db: Db, key: Key, six: Six)
    requires key in db.tasks
    ensures var db' := SetStatus(WithWrites(db, key, six, 3), key, DONE);
            && db'.tasks.Keys == db.tasks.Keys
            && db'.tasks[key].status == DONE && db'.tasks[key].resultJson == Some(six)
            && (forall k | k in db.tasks && k != key :: db'.tasks[k] == db.tasks[k])
            && (key.strategyId in db.strategies ==>
                  key.strategyId in db'.strategies && db'.strategies[key.strategyId].metrics == Some(six))
            && db'.strategies.Keys == db.strategies.Keys
  {
  }

  lemma {:induction false} RunsKeepInv(s: State, es: seq<Event>)
    requires Inv(s)
    ensures Inv(RunFrom(s, es))
  {
    if es != [] {
      RunsKeepInv(s, es[..|es| - 1]);
      EventKeepsInv(RunFrom(s, es[..|es| - 1]), es[|es| - 1]);
    }
  }

  // ---------- Main results ----------

  function Count(starts: seq<Key>, key: Key): nat {
    if starts == [] then 0 else Count(starts[..|starts| - 1], key) + if starts[|starts| - 1] == key then 1 else 0
  }

  lemma {:induction false} DistinctCountedOnce(starts: seq<Key>, key: Key)
    requires forall i, j | 0 <= i < j < |starts| :: starts[i] != starts[j]
    ensures Count(starts, key) == if key in starts then 1 else 0
  {
    if starts != [] { DistinctCountedOnce(starts[..|starts| - 1], key); }
  }

  /** In every run the subprocess is started at most once per (strategy, date), whatever is delivered, submitted or
      crashes, and a key that was started never shows PENDING again. */
  lemma StartedAtMostOnce(s: State, es: seq<Event>, key: Key)
    requires Initial(s)
    ensures Count(RunFrom(s, es).starts, key) <= 1
    ensures key in RunFrom(s, es).starts ==>
              key in RunFrom(s, es).db.tasks && !RunFrom(s, es).db.tasks[key].status.PENDING?
  {
    RunsKeepInv(s, es);
    DistinctCountedOnce(RunFrom(s, es).starts, key);
  }

  /** In every committed state of every run a DONE task has exactly one result, with the metrics of its result_json;
      PENDING and RUNNING tasks have none; no task has two. */
  lemma PublicationIsAtomic(s: State, es: seq<Event>, key: Key)
    requires Initial(s) && key in RunFrom(s, es).db.tasks
    ensures Published(RunFrom(s, es).db, RunFrom(s, es).db.tasks[key])
    ensures CountResults(RunFrom(s, es).db.results, RunFrom(s, es).db.tasks[key].id) <= 1
  {
    RunsKeepInv(s, es);
  }

  /** Only the last commit of a successful execution sets DONE. */
  lemma DoneComesFromPublishing(s: State, p: Plan, key: Key)
    requires Inv(s) && key in s.db.tasks && !s.db.tasks[key].status.DONE?
    requires key in Apply(s, Step(p)).db.tasks && Apply(s, Step(p)).db.tasks[key].status.DONE?
    ensures s.worker.Collected? && s.worker.key == key && !p.publishFails
  {
    hide Tidy, Handle, WithWrites, StartsTidy;
    match s.worker
    case Launched(k) => HandleFrame(s.db, k, None, 0, p.handler);
    case Executing(k) => HandleFrame(s.db, k, None, 0, p.handler);
    case Collected(k, six) => HandleFrame(s.db, k, Some(six), p.written, p.handler); WritesFrame(s.db, k, six);
    case _ =>
  }

  /** The commit that sets DONE leaves the strategy's six columns equal to the published metrics. */
  lemma DoneCommitUpdatesStrategy(s: State, es: seq<Event>, e: Event, key: Key)
    requires Initial(s) && key in RunFrom(s, es).db.tasks && !RunFrom(s, es).db.tasks[key].status.DONE?
    requires key in Apply(RunFrom(s, es), e).db.tasks && Apply(RunFrom(s, es), e).db.tasks[key].status.DONE?
    ensures var db := Apply(RunFrom(s, es), e).db;
            && db.tasks[key].resultJson.Some?
            && key.strategyId in db.strategies && db.strategies[key.strategyId].metrics == db.tasks[key].resultJson
  {
    RunsKeepInv(s, es);
    var t := RunFrom(s, es);
    assert StrategyKnown(t);
    hide Inv, Handle, WithWrites, RunFrom;
    if e.Step? {
      DoneComesFromPublishing(t, e.plan, key);
      WritesFrame(t.db, key, t.worker.six);
    }
  }

  lemma {:induction false} RunsMoveForward(s: State, es: seq<Event>)
    requires Inv(s)
    ensures forall k | k in s.db.tasks :: k in RunFrom(s, es).db.tasks
              && RunFrom(s, es).db.tasks[k].id == s.db.tasks[k].id
              && (s.db.tasks[k].status in {DONE, FAILED} ==> RunFrom(s, es).db.tasks[k] == s.db.tasks[k])
    ensures s.db.results <= RunFrom(s, es).db.results
    ensures RunFrom(s, es).db.strategies.Keys == s.db.strategies.Keys
  {
    if es != [] {
      RunsMoveForward(s, es[..|es| - 1]);
      RunsKeepInv(s, es[..|es| - 1]);
      EventForward(RunFrom(s, es[..|es| - 1]), es[|es| - 1]);
    }
  }

  /** The event gives the key a row, and the row is FAILED: exactly when the worker, past its first check, finds the
      strategy known but not in the registry. */
  lemma BornFailedIff(s: State, e: Event, key: Key)
    requires Inv(s) && key !in s.db.tasks
    ensures key in Apply(s, e).db.tasks && Apply(s, e).db.tasks[key].status.FAILED?
            <==> e.Step? && s.worker == Unblocked(key) && key.strategyId in s.db.strategies
                 && !s.db.strategies[key.strategyId].registered
  {
    assert WorkerTidy(s);
    hide Inv, Tidy, WithWrites;
    if e.Step? {
      match s.worker
      case Launched(k) => HandleFrame(s.db, k, None, 0, e.plan.handler);
      case Executing(k) => HandleFrame(s.db, k, None, 0, e.plan.handler);
      case Collected(k, six) =>
        HandleFrame(s.db, k, Some(six), e.plan.written, e.plan.handler);
        WritesFrame(s.db, k, six);
      case _ =>
    }
  }

  /** A task that was PENDING and is finished has been RUNNING in between. */
  lemma {:induction false} FinishedWasRunning(s: State, es: seq<Event>, key: Key)
    requires Inv(s) && key in s.db.tasks && s.db.tasks[key].status.PENDING?
    ensures key in RunFrom(s, es).db.tasks
    ensures RunFrom(s, es).db.tasks[key].status in {DONE, FAILED} ==>
              exists k | 0 <= k <= |es| :: WasRunning(RunFrom(s, es[..k]), key)
  {
    hide Apply, Inv;
    if es != [] {
      var n := |es| - 1;
      FinishedWasRunning(s, es[..n], key);
      RunsKeepInv(s, es[..n]);
      EventForward(RunFrom(s, es[..n]), es[n]);
      assert es[..n][..n] == es[..n] && forall k | 0 <= k <= n :: es[..n][..k] == es[..k];
      if RunFrom(s, es[..n]).db.tasks[key].status.RUNNING? { assert WasRunning(RunFrom(s, es[..n]), key); }
    }
  }

  predicate WasRunning(s: State, key: Key) { key in s.db.tasks && s.db.tasks[key].status.RUNNING? }

  // ---------- What a failure leaves behind ----------

  /** An error outside the database in the last part, after at least n of its three writes: the generic handler's commit
      of FAILED publishes them. */
  predicate Leaks(s: State, e: Event, n: nat) {
    && e.Step? && s.worker.Collected? && e.plan.publishFails && e.plan.handler.KeepsPending? && e.plan.written >= n
  }

  predicate NeverLeaks(s: State, es: seq<Event>, n: nat) {
    forall k | 0 <= k < |es| :: !Leaks(RunFrom(s, es[..k]), es[k], n)
  }

  /** Every result belongs to a DONE task. */
  predicate ResultsDone(db: Db) { forall r | r in db.results :: exists k :: k in db.tasks && IsDoneAs(db.tasks[k], r) }

  predicate IsDoneAs(t: Task, r: Result) { t.id == r.taskId && t.status.DONE? }

  /** Every task with a result_json is DONE. */
  predicate JsonDone(db: Db) { forall k | k in db.tasks && db.tasks[k].resultJson.Some? :: db.tasks[k].status.DONE? }

  lemma ResultsKept(s: State, e: Event)
    requires Inv(s) && ResultsDone(s.db)
    ensures var db' := Apply(s, e).db;
            forall r | r in s.db.results :: exists k :: k in db'.tasks && IsDoneAs(db'.tasks[k], r)
  {
    EventForward(s, e);
    hide Inv, Apply;
    var db, db' := s.db, Apply(s, e).db;
    forall r | r in db.results ensures exists k :: k in db'.tasks && IsDoneAs(db'.tasks[k], r) {
      var k :| k in db.tasks && IsDoneAs(db.tasks[k], r);
      assert k in db'.tasks && IsDoneAs(db'.tasks[k], r);
    }
  }

  /** What one event adds to the results. */
  lemma ResultsAdded(s: State, e: Event)
    requires Inv(s)
    ensures var db, db' := s.db, Apply(s, e).db;
            if e.Step? && s.worker.Collected? && (!e.plan.publishFails || Leaks(s, e, 2)) then
              var (k, six) := (s.worker.key, s.worker.six);
              && k in db'.tasks && db'.results == db.results + [Result(db'.tasks[k].id, six)]
              && db'.tasks[k].status == (if e.plan.publishFails then FAILED else DONE)
            else db'.results == db.results
  {
    assert WorkerTidy(s);
    hide Inv, Tidy;
  }

  lemma JsonStep(s: State, e: Event)
    requires Inv(s) && JsonDone(s.db) && !Leaks(s, e, 1)
    ensures JsonDone(Apply(s, e).db)
  {
    assert WorkerTidy(s);
    hide Inv, Tidy;
  }

  lemma ResultsStep(s: State, e: Event)
    requires Inv(s) && ResultsDone(s.db) && !Leaks(s, e, 2)
    ensures ResultsDone(Apply(s, e).db)
  {
    ResultsKept(s, e);
    ResultsAdded(s, e);
    hide Inv, Apply;
    var db, db' := s.db, Apply(s, e).db;
    if db'.results != db.results {
      var k := s.worker.key;
      assert IsDoneAs(db'.tasks[k], db'.results[|db.results|]);
    }
  }

  lemma PrefixNeverLeaks(s: State, es: seq<Event>, n: nat)
    requires es != []
    ensures var m := |es| - 1;
            NeverLeaks(s, es, n) <==> NeverLeaks(s, es[..m], n) && !Leaks(RunFrom(s, es[..m]), es[m], n)
  {
    var m := |es| - 1;
    hide RunFrom, Leaks;
    forall k | 0 <= k < m
      ensures Leaks(RunFrom(s, es[..m][..k]), es[..m][k], n) == Leaks(RunFrom(s, es[..k]), es[k], n)
    {
      assert es[..m][..k] == es[..k] && es[..m][k] == es[k];
    }
  }

  /** A result of a FAILED task, which stays one for ever. */
  predicate HasFailedResult(db: Db, key: Key) {
    && key in db.tasks && db.tasks[key].status.FAILED?
    && exists r :: r in db.results && r.taskId == db.tasks[key].id
  }

  lemma FailedResultStays(s: State, e: Event, key: Key)
    requires Inv(s) && HasFailedResult(s.db, key)
    ensures HasFailedResult(Apply(s, e).db, key)
  {
    EventForward(s, e);
    hide Inv, Apply;
    var r :| r in s.db.results && r.taskId == s.db.tasks[key].id;
    assert r in Apply(s, e).db.results;
  }

  lemma FailedResultNotDone(db: Db, key: Key)
    requires Tidy(db) && HasFailedResult(db, key)
    ensures !ResultsDone(db)
  {
    hide Published;
    var r :| r in db.results && r.taskId == db.tasks[key].id;
    assert forall k | k in db.tasks && db.tasks[k].id == r.taskId :: k == key;
  }

  lemma LeakLeavesResult(s: State, e: Event) returns (key: Key)
    requires Inv(s) && Leaks(s, e, 2)
    ensures HasFailedResult(Apply(s, e).db, key)
  {
    key := s.worker.key;
    ResultsAdded(s, e);
    hide Inv, Apply;
    var db' := Apply(s, e).db;
    assert db'.results[|s.db.results|] in db'.results;
  }

  /** Either no event has leaked and every result is a DONE task's, or some FAILED task has a result. */
  lemma {:induction false} LeaksShow(s: State, es: seq<Event>)
    requires Inv(s) && ResultsDone(s.db)
    ensures NeverLeaks(s, es, 2) ==> ResultsDone(RunFrom(s, es).db)
    ensures !NeverLeaks(s, es, 2) ==> exists key :: HasFailedResult(RunFrom(s, es).db, key)
  {
    if es != [] {
      var n := |es| - 1;
      LeaksShow(s, es[..n]);
      RunsKeepInv(s, es[..n]);
      PrefixNeverLeaks(s, es, 2);
      LeakOrNot(RunFrom(s, es[..n]), es[n]);
      assert RunFrom(s, es) == Apply(RunFrom(s, es[..n]), es[n]);
      hide *;
    }
  }

  lemma LeakOrNot(t: State, e: Event)
    requires Inv(t)
    ensures ResultsDone(t.db) && !Leaks(t, e, 2) ==> ResultsDone(Apply(t, e).db)
    ensures (exists key :: HasFailedResult(t.db, key)) || Leaks(t, e, 2) ==>
              exists key :: HasFailedResult(Apply(t, e).db, key)
  {
    hide *;
    if key :| HasFailedResult(t.db, key) { FailedResultStays(t, e, key); }
    if Leaks(t, e, 2) {
      var k := LeakLeavesResult(t, e);
    } else if ResultsDone(t.db) {
      ResultsStep(t, e);
    }
  }

  /** A failure is meant to undo everything. When it does, for results: in every run, each result belongs to a DONE task
      if and only if no error outside the database struck between the adding of a result and its commit. */
  lemma ResultsBelongToDoneIff(s: State, es: seq<Event>)
    requires Initial(s)
    ensures ResultsDone(RunFrom(s, es).db) <==> NeverLeaks(s, es, 2)
  {
    LeaksShow(s, es);
    RunsKeepInv(s, es);
    if !NeverLeaks(s, es, 2) {
      hide NeverLeaks, ResultsDone, HasFailedResult, RunFrom;
      var key :| HasFailedResult(RunFrom(s, es).db, key);
      FailedResultNotDone(RunFrom(s, es).db, key);
    }
  }

  predicate HasFailedJson(db: Db, key: Key) {
    key in db.tasks && db.tasks[key].status.FAILED? && db.tasks[key].resultJson.Some?
  }

  lemma LeakLeavesJson(s: State, e: Event) returns (key: Key)
    requires Inv(s) && Leaks(s, e, 1)
    ensures HasFailedJson(Apply(s, e).db, key)
  {
    key := s.worker.key;
    assert WorkerTidy(s);
    hide Inv, Tidy;
  }

  lemma {:induction false} JsonLeaksShow(s: State, es: seq<Event>)
    requires Inv(s) && JsonDone(s.db)
    ensures NeverLeaks(s, es, 1) ==> JsonDone(RunFrom(s, es).db)
    ensures !NeverLeaks(s, es, 1) ==> exists key :: HasFailedJson(RunFrom(s, es).db, key)
  {
    if es != [] {
      var n := |es| - 1;
      JsonLeaksShow(s, es[..n]);
      RunsKeepInv(s, es[..n]);
      PrefixNeverLeaks(s, es, 1);
      JsonLeakOrNot(RunFrom(s, es[..n]), es[n]);
      assert RunFrom(s, es) == Apply(RunFrom(s, es[..n]), es[n]);
      hide *;
    }
  }

  lemma FailedJsonStays(s: State, e: Event, key: Key)
    requires Inv(s) && HasFailedJson(s.db, key)
    ensures HasFailedJson(Apply(s, e).db, key)
  {
    EventForward(s, e);
    hide Inv, Apply;
  }

  lemma JsonLeakOrNot(t: State, e: Event)
    requires Inv(t)
    ensures JsonDone(t.db) && !Leaks(t, e, 1) ==> JsonDone(Apply(t, e).db)
    ensures (exists key :: HasFailedJson(t.db, key)) || Leaks(t, e, 1) ==>
              exists key :: HasFailedJson(Apply(t, e).db, key)
  {
    hide *;
    if key :| HasFailedJson(t.db, key) { FailedJsonStays(t, e, key); }
    if Leaks(t, e, 1) {
      var k := LeakLeavesJson(t, e);
    } else if JsonDone(t.db) {
      JsonStep(t, e);
    }
  }

  /** The same for result_json. */
  lemma JsonBelongsToDoneIff(s: State, es: seq<Event>)
    requires Initial(s)
    ensures JsonDone(RunFrom(s, es).db) <==> NeverLeaks(s, es, 1)
  {
    JsonLeaksShow(s, es);
    hide NeverLeaks, RunFrom;
    if !NeverLeaks(s, es, 1) {
      var key :| HasFailedJson(RunFrom(s, es).db, key);
    }
  }

  /** The event changes the six columns of strategy `id`. */
  predicate ChangesColumns(s: State, e: Event, id: int) {
    && id in s.db.strategies && id in Apply(s, e).db.strategies
    && Apply(s, e).db.strategies[id].metrics != s.db.strategies[id].metrics
  }

  /** The event turns a task of strategy `id` DONE, with the columns' new values as its result_json. */
  predicate PublishesColumns(s: State, e: Event, id: int) {
    && s.worker.Collected? && s.worker.key.strategyId == id
    && var (k, db) := (s.worker.key, Apply(s, e).db);
       && k in s.db.tasks && !s.db.tasks[k].status.DONE? && k in db.tasks && db.tasks[k].status.DONE?
       && id in db.strategies && db.strategies[id].metrics == db.tasks[k].resultJson
  }

  /** A leak of all three writes, with values that the columns did not have. */
  predicate LeaksColumns(s: State, e: Event) {
    && Leaks(s, e, 3) && s.worker.key.strategyId in s.db.strategies
    && s.db.strategies[s.worker.key.strategyId].metrics != Some(s.worker.six)
  }

  lemma ColumnsStep(s: State, e: Event, id: int)
    requires Inv(s) && ChangesColumns(s, e, id)
    ensures PublishesColumns(s, e, id) <==> !LeaksColumns(s, e)
  {
    assert WorkerTidy(s);
    hide Inv, Tidy;
  }

  lemma LeakChangesColumns(s: State, e: Event)
    requires Inv(s) && LeaksColumns(s, e)
    ensures ChangesColumns(s, e, s.worker.key.strategyId)
  {
    assert WorkerTidy(s);
    hide Inv, Tidy;
  }

  /** The same for a strategy's columns: in every run, each change of them is the commit that sets a task of the
      strategy DONE with those values if and only if no such error struck after the columns were set. */
  lemma ColumnsChangeWithDoneIff(s: State, es: seq<Event>)
    requires Initial(s)
    ensures (forall k, id | 0 <= k < |es| && ChangesColumns(RunFrom(s, es[..k]), es[k], id) ::
               PublishesColumns(RunFrom(s, es[..k]), es[k], id))
            <==> (forall k | 0 <= k < |es| :: !LeaksColumns(RunFrom(s, es[..k]), es[k]))
  {
    forall k | 0 <= k < |es| ensures Inv(RunFrom(s, es[..k])) { RunsKeepInv(s, es[..k]); }
    hide Inv, RunFrom, ChangesColumns, PublishesColumns, LeaksColumns;
    forall k, id | 0 <= k < |es| && ChangesColumns(RunFrom(s, es[..k]), es[k], id)
      ensures PublishesColumns(RunFrom(s, es[..k]), es[k], id) <==> !LeaksColumns(RunFrom(s, es[..k]), es[k])
    {
      ColumnsStep(RunFrom(s, es[..k]), es[k], id);
    }
    forall k | 0 <= k < |es| && LeaksColumns(RunFrom(s, es[..k]), es[k])
      ensures ChangesColumns(RunFrom(s, es[..k]), es[k], RunFrom(s, es[..k]).worker.key.strategyId)
    {
      LeakChangesColumns(RunFrom(s, es[..k]), es[k]);
    }
  }

  /** The worker is not at this key past its checks. */
  predicate Away(s: State, key: Key) {
    s.worker.Idle? || s.worker.key != key || s.worker.Delivered? || s.worker.Unblocked? || s.worker.Registered?
    || s.worker.NoPending?
  }

  lemma FinishedStep(s: State, e: Event, key: Key)
    requires Inv(s) && key in s.db.tasks && s.db.tasks[key].status in {DONE, FAILED}
    ensures key in Apply(s, e).db.tasks && Apply(s, e).db.tasks[key] == s.db.tasks[key]
    ensures Apply(s, e).starts == s.starts || exists k :: k != key && Apply(s, e).starts == s.starts + [k]
  {
    EventForward(s, e);
    hide Tidy, Handle, WithWrites, StartsTidy;
    if Apply(s, e).starts != s.starts {
      assert Apply(s, e).starts == s.starts + [s.worker.key];
    }
  }

  /** A finished task is final: it keeps its row, and no delivery ever starts its subprocess again. */
  lemma {:induction false} FinishedStaysFinished(s: State, es: seq<Event>, key: Key)
    requires Inv(s) && key in s.db.tasks && s.db.tasks[key].status in {DONE, FAILED}
    ensures key in RunFrom(s, es).db.tasks && RunFrom(s, es).db.tasks[key] == s.db.tasks[key]
    ensures Count(RunFrom(s, es).starts, key) == Count(s.starts, key)
  {
    hide Apply, Inv;
    if es != [] {
      var n := |es| - 1;
      FinishedStaysFinished(s, es[..n], key);
      RunsKeepInv(s, es[..n]);
      var t := RunFrom(s, es[..n]);
      FinishedStep(t, es[n], key);
      if Apply(t, es[n]).starts != t.starts {
        var k :| k != key && Apply(t, es[n]).starts == t.starts + [k];
        assert (t.starts + [k])[..|t.starts|] == t.starts;
      }
    }
  }

  lemma AbandonedStep(s: State, e: Event, key: Key)
    requires Inv(s) && key in s.db.tasks && s.db.tasks[key].status.RUNNING? && Away(s, key)
    ensures var t := Apply(s, e);
            && Away(t, key) && key in t.db.tasks && t.db.tasks[key] == s.db.tasks[key]
            && (t.starts == s.starts || exists k :: k != key && t.starts == s.starts + [k])
  {
    hide Tidy, Handle, WithWrites, StartsTidy;
    if e.Step? {
      var (db, p) := (s.db, e.plan);
      match s.worker
      case Launched(k) => HandleFrame(db, k, None, 0, p.handler);
      case Executing(k) => HandleFrame(db, k, None, 0, p.handler);
      case Collected(k, six) => HandleFrame(db, k, Some(six), p.written, p.handler); WritesFrame(db, k, six);
      case _ =>
    }
  }

  /** A task left RUNNING by a crash is stuck: redelivery is turned away by the idempotency check, and the row stays
      RUNNING and is not started again in every continuation. */
  lemma {:induction false} AbandonedStaysRunning(s: State, es: seq<Event>, key: Key)
    requires Inv(s) && key in s.db.tasks && s.db.tasks[key].status.RUNNING? && Away(s, key)
    ensures Away(RunFrom(s, es), key)
    ensures key in RunFrom(s, es).db.tasks && RunFrom(s, es).db.tasks[key] == s.db.tasks[key]
    ensures Count(RunFrom(s, es).starts, key) == Count(s.starts, key)
  {
    hide Inv, Away, Apply;
    if es != [] {
      var n := |es| - 1;
      var t, u := RunFrom(s, es[..n]), RunFrom(s, es);
      AbandonedStaysRunning(s, es[..n], key);
      RunsKeepInv(s, es[..n]);
      AbandonedStep(t, es[n], key);
      if u.starts != t.starts {
        var k :| k != key && u.starts == t.starts + [k];
        assert (t.starts + [k])[..|t.starts|] == t.starts;
      }
    }
  }

  /** The worker has this key's RUNNING committed, and the event ends its execution without moving the row on: it dies,
      or the subprocess, the preparation or the last part fails and so does the commit of FAILED. */
  predicate Abandons(s: State, e: Event, key: Key) {
    && (s.worker.Launched? || s.worker.Executing? || s.worker.Collected?) && s.worker.key == key
    && (e.Crash? || (e.Step? && FailureUnrecorded(s.worker, e.plan)))
  }

  predicate FailureUnrecorded(w: Worker, p: Plan) {
    || (w.Launched? && p.prepareFails && p.handler.CommitFails?)
    || (w.Executing? && p.output == ProcessError(false))
    || (w.Executing? && p.output.UnexpectedError? && p.handler.CommitFails?)
    || (w.Collected? && p.publishFails && p.handler.CommitFails?)
  }

  /** The row says RUNNING, and nobody is at work on it. */
  predicate Stuck(s: State, key: Key) { WasRunning(s, key) && Away(s, key) }

  lemma StuckStep(s: State, e: Event, key: Key)
    requires Inv(s) && Stuck(Apply(s, e), key)
    ensures Stuck(s, key) || Abandons(s, e, key)
  {
    assert WorkerTidy(s);
    hide Inv, Tidy, WithWrites;
    if e.Step? {
      match s.worker
      case Launched(k) => HandleFrame(s.db, k, None, 0, e.plan.handler);
      case Executing(k) => HandleFrame(s.db, k, None, 0, e.plan.handler);
      case Collected(k, six) =>
        HandleFrame(s.db, k, Some(six), e.plan.written, e.plan.handler);
        WritesFrame(s.db, k, six);
      case _ =>
    }
  }

  lemma AbandonsMeansStuck(s: State, e: Event, key: Key)
    requires Inv(s) && Abandons(s, e, key)
    ensures Stuck(Apply(s, e), key)
  {
    assert WorkerTidy(s);
    hide Inv, Tidy, WithWrites;
  }

  lemma {:induction false} StuckWasAbandoned(s: State, es: seq<Event>, key: Key)
    requires Inv(s) && !Stuck(s, key) && Stuck(RunFrom(s, es), key)
    ensures exists k | 0 <= k < |es| :: Abandons(RunFrom(s, es[..k]), es[k], key)
  {
    hide Inv, Apply, Stuck, Abandons;
    if es != [] {
      var n := |es| - 1;
      RunsKeepInv(s, es[..n]);
      StuckStep(RunFrom(s, es[..n]), es[n], key);
      if Stuck(RunFrom(s, es[..n]), key) {
        StuckWasAbandoned(s, es[..n], key);
        var k :| 0 <= k < n && Abandons(RunFrom(s, es[..n][..k]), es[..n][k], key);
        assert es[..n][..k] == es[..k] && es[..n][k] == es[k];
      }
    }
  }

  lemma AbandonedIsStuck(s: State, es: seq<Event>, key: Key, k: nat)
    requires Inv(s) && k < |es| && Abandons(RunFrom(s, es[..k]), es[k], key)
    ensures Stuck(RunFrom(s, es), key)
  {
    hide Inv, Apply, Abandons, RunFrom;
    RunsKeepInv(s, es[..k]);
    AbandonsMeansStuck(RunFrom(s, es[..k]), es[k], key);
    RunsKeepInv(s, es[..k + 1]);
    NextState(s, es, k);
    AbandonedStaysRunning(RunFrom(s, es[..k + 1]), es[k + 1..], key);
    RunSplits(s, es[..k + 1], es[k + 1..]);
    assert es[..k + 1] + es[k + 1..] == es;
  }

  /** Over runs: a row says RUNNING with nobody at work on it if and only if its worker died, or could not commit
      FAILED. Every other failure is recorded. */
  lemma StuckIffAbandoned(s: State, es: seq<Event>, key: Key)
    requires Initial(s)
    ensures Stuck(RunFrom(s, es), key) <==> exists k | 0 <= k < |es| :: Abandons(RunFrom(s, es[..k]), es[k], key)
  {
    assert Inv(s) && !Stuck(s, key);
    hide Inv, Apply, Abandons, RunFrom, Stuck;
    if Stuck(RunFrom(s, es), key) {
      StuckWasAbandoned(s, es, key);
    }
    if k :| 0 <= k < |es| && Abandons(RunFrom(s, es[..k]), es[k], key) {
      AbandonedIsStuck(s, es, key, k);
    }
  }

  lemma NextState(s: State, es: seq<Event>, k: nat)
    requires k < |es|
    ensures RunFrom(s, es[..k + 1]) == Apply(RunFrom(s, es[..k]), es[k])
  {
    assert es[..k + 1][..k] == es[..k];
  }

  /** An admin submission for a registered strategy gives a key that has no row, committed or flushed, a PENDING one,
      and changes nothing else; any other submission changes nothing. */
  lemma SubmissionAddsPending(s: State, key: Key)
    ensures var t := Apply(s, Submit(key));
            && t.worker == s.worker && t.starts == s.starts
            && t.db.results == s.db.results && t.db.strategies == s.db.strategies
            && (forall k | k != key :: (k in t.db.tasks <==> k in s.db.tasks)
                                       && (k in s.db.tasks ==> t.db.tasks[k] == s.db.tasks[k]))
    ensures var t := Apply(s, Submit(key));
            if key in s.db.tasks || (s.worker.Inserted? && s.worker.key == key)
               || key.strategyId !in s.db.strategies || !s.db.strategies[key.strategyId].registered
            then t == s
            else key in t.db.tasks && t.db.tasks[key].status.PENDING? && t.db.tasks[key].resultJson.None?
  {
  }

  // ---------- The task itself ----------

  function StepsLeft(w: Worker): nat {
    match w
    case Idle => 0
    case Delivered(_) => 8
    case Unblocked(_) => 7
    case Registered(_) => 6
    case NoPending(_) => 5
    case Inserted(_, _) => 4
    case Adopted(_) => 4
    case Launched(_) => 3
    case Executing(_) => 2
    case Collected(_, _) => 1
  }

  /** Run the worker until it is idle. */
  function Finish(db: Db, w: Worker, p: Plan): Db
    requires RowPresent(db, w)
    decreases StepsLeft(w)
  {
    if w.Idle? then db
    else
      var r := WorkerStep(db, w, p);
      Finish(r.0, r.1, p)
  }

  lemma {:induction false} IdleStays(s: State, p: Plan, k: nat)
    requires s.worker.Idle?
    ensures RunFrom(s, seq(k, _ => Step(p))) == s
  {
    if k > 0 {
      IdleStays(s, p, k - 1);
      assert seq(k, _ => Step(p))[..k - 1] == seq(k - 1, _ => Step(p));
    }
  }

  lemma {:induction false} RunSplits(s: State, es: seq<Event>, fs: seq<Event>)
    ensures RunFrom(s, es + fs) == RunFrom(RunFrom(s, es), fs)
  {
    if fs == [] {
      assert es + fs == es;
    } else {
      RunSplits(s, es, fs[..|fs| - 1]);
      assert (es + fs)[..|es + fs| - 1] == es + fs[..|fs| - 1];
    }
  }

  /** An uninterrupted execution is a run of the machine, one step after the other until the worker is idle. */
  lemma {:induction false} FinishIsRun(s: State, p: Plan, k: nat)
    requires Inv(s) && k >= StepsLeft(s.worker)
    ensures RowPresent(s.db, s.worker)
    ensures RunFrom(s, seq(k, _ => Step(p))).db == Finish(s.db, s.worker, p)
    decreases k
  {
    hide Tidy, Handle, WithWrites;
    if s.worker.Idle? {
      IdleStays(s, p, k);
    } else {
      var t := Apply(s, Step(p));
      EventKeepsInv(s, Step(p));
      FinishIsRun(t, p, k - 1);
      assert [Step(p)] + seq(k - 1, _ => Step(p)) == seq(k, _ => Step(p));
      RunSplits(s, [Step(p)], seq(k - 1, _ => Step(p)));
      assert [Step(p)][..0] == [];
    }
  }

  lemma FinishOnce(db: Db, w: Worker, p: Plan)
    requires RowPresent(db, w) && !w.Idle?
    ensures var r := WorkerStep(db, w, p); RowPresent(r.0, r.1) && Finish(db, w, p) == Finish(r.0, r.1, p)
  {
    hide Handle, WithWrites;
  }

  /** For a registered strategy without a row, delivery leads to a flushed PENDING row. */
  lemma FinishToInserted(db: Db, key: Key, p: Plan)
    requires key !in db.tasks && key.strategyId in db.strategies && db.strategies[key.strategyId].registered
    ensures Finish(db, Delivered(key), p) == Finish(db.(nextId := db.nextId + 1), Inserted(key, db.nextId), p)
  {
    hide Finish, Handle, WithWrites, SetStatus, NewRow;
    FinishOnce(db, Delivered(key), p);
    FinishOnce(db, Unblocked(key), p);
    FinishOnce(db, Registered(key), p);
    FinishOnce(db, NoPending(key), p);
  }

  lemma FinishFromRunning(db: Db, key: Key, six: Six, p: Plan)
    requires key in db.tasks && !p.prepareFails && p.output == Produced(six)
    ensures Finish(db, Launched(key), p) == Finish(db, Collected(key, six), p)
  {
    hide Finish, Handle, WithWrites, SetStatus, NewRow;
    FinishOnce(db, Launched(key), p);
    FinishOnce(db, Executing(key), p);
  }

  lemma FinishFromInserted(db: Db, key: Key, id: nat, p: Plan)
    requires !p.runningCommitFails
    ensures var running := db.(tasks := db.tasks[key := Task(id, RUNNING, None)]);
            Finish(db, Inserted(key, id), p) == Finish(running, Launched(key), p)
  {
    hide Finish, Handle, WithWrites, SetStatus, NewRow;
    FinishOnce(db, Inserted(key, id), p);
  }

  lemma LeakedWrites(db: Db, key: Key, six: Six)
    requires key in db.tasks && key.strategyId in db.strategies
    ensures var end := SetStatus(WithWrites(db, key, six, 3), key, FAILED);
            && HasFailedResult(end, key) && HasFailedJson(end, key)
            && key.strategyId in end.strategies && end.strategies[key.strategyId].metrics == Some(six)
  {
    var end := SetStatus(WithWrites(db, key, six, 3), key, FAILED);
    assert Result(db.tasks[key].id, six) in end.results;
  }

  /** Such errors are real: from every initial state, for every registered strategy, an execution whose signals cannot
      be inserted ends FAILED, with its result published and the strategy's columns overwritten. */
  lemma LeakReached(s: State, key: Key, six: Six)
    requires Initial(s) && key.strategyId in s.db.strategies && s.db.strategies[key.strategyId].registered
    ensures var p := Plan(false, false, Produced(six), true, 3, KeepsPending);
            var db := RunFrom(s, [Deliver(key)] + seq(8, _ => Step(p))).db;
            && HasFailedResult(db, key) && HasFailedJson(db, key)
            && key.strategyId in db.strategies && db.strategies[key.strategyId].metrics == Some(six)
  {
    var p := Plan(false, false, Produced(six), true, 3, KeepsPending);
    var t := s.(worker := Delivered(key));
    RunSplits(s, [Deliver(key)], seq(8, _ => Step(p)));
    assert RunFrom(s, [Deliver(key)]) == t by { assert [Deliver(key)][..0] == []; }
    FinishIsRun(t, p, 8);
    FinishToInserted(s.db, key, p);
    var flushed := s.db.(nextId := s.db.nextId + 1);
    FinishFromInserted(flushed, key, s.db.nextId, p);
    var running := flushed.(tasks := s.db.tasks[key := Task(s.db.nextId, RUNNING, None)]);
    FinishFromRunning(running, key, six, p);
    assert Finish(running, Collected(key, six), p) == SetStatus(WithWrites(running, key, six, 3), key, FAILED);
    hide Finish, WithWrites, SetStatus, HasFailedResult, RunFrom;
    LeakedWrites(running, key, six);
  }

  /** The failure before there is an output can be recorded: the commit of FAILED works. */
  predicate FailureCommits(p: Plan) {
    if !p.prepareFails && p.output.ProcessError? then p.output.committed else p.handler.KeepsPending?
  }

  class BacktestStore {
    var tasks: map<Key, Task>
    var results: seq<Result>
    var strategies: map<int, Strategy>
    var nextId: nat

    function Contents(): Db
      reads this
    {
      Db(tasks, results, strategies, nextId)
    }

    /** The strategy is registered, and the day has no row or a PENDING one. */
    predicate MayLaunch(key: Key)
      reads this
    {
      && key.strategyId in strategies && strategies[key.strategyId].registered
      && (key in tasks ==> tasks[key].status.PENDING?)
    }

    function StoredJson(key: Key): Option<Six>
      reads this
    {
      if key in tasks then tasks[key].resultJson else None
    }

    method Commit(db: Db)
      modifies this
      ensures Contents() == db
    {
      tasks, results, strategies, nextId := db.tasks, db.results, db.strategies, db.nextId;
    }

    /** The generic except branch: FAILED is committed together with whatever the session holds, or not at all. */
    method Fail(key: Key, session: Db, h: Handler)
      requires key in tasks && key in session.tasks
      modifies this
      ensures Contents() == match h
                            case CommitFails => old(Contents())
                            case KeepsPending => SetStatus(session, key, FAILED)
    {
      match h
      case CommitFails =>
      case KeepsPending => Commit(SetStatus(session, key, FAILED));
    }

    /** One execution, for a strategy and today's date, that is neither interrupted nor interleaved. It ends in the
        state that the machine's worker reaches. Spelled out: when the subprocess starts, what is left when it cannot,
        and what each way of failing or succeeding leaves of the row, the results and the strategies. */
    method RunBacktestTask(key: Key, p: Plan) returns (started: bool)
      modifies this
      ensures Contents() == old(Finish(Contents(), Delivered(key), p))
      ensures started <==> old(MayLaunch(key)) && !p.runningCommitFails && !p.prepareFails
      // Nothing is launched: all is as before, but for the FAILED row of a strategy outside the registry.
      ensures !old(MayLaunch(key)) || p.runningCommitFails ==>
                && results == old(results) && strategies == old(strategies)
                && tasks == if old(key.strategyId in strategies && !strategies[key.strategyId].registered
                                   && key !in tasks)
                            then old(tasks)[key := Task(old(nextId), FAILED, None)]
                            else old(tasks)
      // RUNNING is committed: the day's row is there, and no other row has changed.
      ensures old(MayLaunch(key)) && !p.runningCommitFails ==>
                && tasks.Keys == old(tasks).Keys + {key}
                && (forall k | k in old(tasks) && k != key :: tasks[k] == old(tasks)[k])
                && tasks[key].id
                   == (if key in old(tasks) then old(tasks)[key].id else old(nextId))
      // It fails before there is an output: FAILED, if that can be committed, and nothing published.
      ensures old(MayLaunch(key)) && !p.runningCommitFails && (p.prepareFails || !p.output.Produced?) ==>
                && tasks[key].status == (if FailureCommits(p) then FAILED else RUNNING)
                && tasks[key].resultJson == old(StoredJson(key))
                && (old(Tidy(Contents())) ==> tasks[key].resultJson.None?)
                && results == old(results) && strategies == old(strategies)
      // It fails after: what was written is published with FAILED, if that can be committed.
      ensures started && p.output.Produced? && p.publishFails ==>
                var commits := p.handler.KeepsPending?;
                && tasks[key].status == (if commits then FAILED else RUNNING)
                && tasks[key].resultJson
                   == (if commits && p.written >= 1 then Some(p.output.six) else old(StoredJson(key)))
                && results == (if commits && p.written >= 2
                               then old(results) + [Result(tasks[key].id, p.output.six)]
                               else old(results))
                && strategies
                   == if commits && p.written >= 3
                      then old(strategies)[key.strategyId :=
                                             old(strategies)[key.strategyId].(metrics := Some(p.output.six))]
                      else old(strategies)
      // It succeeds.
      ensures started && p.output.Produced? && !p.publishFails ==>
                && tasks[key].status.DONE?
                && tasks[key].resultJson == Some(p.output.six)
                && results == old(results) + [Result(tasks[key].id, p.output.six)]
                && strategies == old(strategies)[key.strategyId :=
                                   old(strategies)[key.strategyId].(metrics := Some(p.output.six))]
    {
      ghost var goal := Finish(Contents(), Delivered(key), p);
      started := false;

      // 1. A RUNNING or DONE row of the day blocks the execution.
      if key in tasks && tasks[key].status in {RUNNING, DONE} {
        assert goal == Finish(Contents(), Idle, p);
        return;
      }
      assert goal == Finish(Contents(), Unblocked(key), p);

      // 2. The strategy and its registry entry.
      if key.strategyId !in strategies {
        assert goal == Finish(Contents(), Idle, p);
        return;
      }
      if !strategies[key.strategyId].registered {
        if key !in tasks {
          Commit(NewRow(Contents(), key, FAILED));
        }
        assert goal == Finish(Contents(), Idle, p);
        return;
      }
      assert goal == Finish(Contents(), Registered(key), p);

      // 3. Take over the PENDING row, or insert one; the unique key may forbid that.
      if key in tasks && tasks[key].status.PENDING? {
        assert goal == Finish(Contents(), Adopted(key), p);
        if p.runningCommitFails {
          assert goal == Finish(Contents(), Idle, p);
          return;
        }
        Commit(SetStatus(Contents(), key, RUNNING));
      } else {
        assert goal == Finish(Contents(), NoPending(key), p);
        if key in tasks {
          assert goal == Finish(Contents(), Idle, p);
          return;
        }
        var id := nextId;
        nextId := nextId + 1;
        assert goal == Finish(Contents(), Inserted(key, id), p);
        if p.runningCommitFails {
          assert goal == Finish(Contents(), Idle, p);
          return;
        }
        tasks := tasks[key := Task(id, RUNNING, None)];
      }
      assert goal == Finish(Contents(), Launched(key), p);

      started := RunLaunched(key, p);
    }

    /** Steps 5 to 12, with RUNNING committed. */
    method RunLaunched(key: Key, p: Plan) returns (started: bool)
      requires key in tasks && tasks[key].status.RUNNING? && key.strategyId in strategies
      modifies this
      ensures Contents() == old(Finish(Contents(), Launched(key), p))
      ensures started <==> !p.prepareFails
      ensures tasks.Keys == old(tasks).Keys && tasks[key].id == old(tasks)[key].id
      ensures forall k | k in tasks && k != key :: tasks[k] == old(tasks)[k]
      ensures p.prepareFails || !p.output.Produced? ==>
                && tasks[key] == old(tasks)[key].(status := if FailureCommits(p) then FAILED else RUNNING)
                && results == old(results) && strategies == old(strategies)
      ensures started && p.output.Produced? && p.publishFails ==>
                var commits := p.handler.KeepsPending?;
                && tasks[key].status == (if commits then FAILED else RUNNING)
                && tasks[key].resultJson
                   == (if commits && p.written >= 1 then Some(p.output.six) else old(tasks)[key].resultJson)
                && results == (if commits && p.written >= 2
                               then old(results) + [Result(tasks[key].id, p.output.six)] else old(results))
                && strategies == if commits && p.written >= 3
                                 then old(strategies)[key.strategyId :=
                                        old(strategies)[key.strategyId].(metrics := Some(p.output.six))]
                                 else old(strategies)
      ensures started && p.output.Produced? && !p.publishFails ==>
                && tasks[key].status.DONE? && tasks[key].resultJson == Some(p.output.six)
                && results == old(results) + [Result(tasks[key].id, p.output.six)]
                && strategies == old(strategies)[key.strategyId :=
                                   old(strategies)[key.strategyId].(metrics := Some(p.output.six))]
    {
      ghost var goal := Finish(Contents(), Launched(key), p);
      if p.prepareFails {
        Fail(key, Contents(), p.handler);
        assert goal == Finish(Contents(), Idle, p);
        return false;
      }
      started := true;
      assert goal == Finish(Contents(), Executing(key), p);
      match p.output {
        case ProcessError(committed) =>
          if committed {
            Commit(SetStatus(Contents(), key, FAILED));
          }
          assert goal == Finish(Contents(), Idle, p);
        case UnexpectedError =>
          Fail(key, Contents(), p.handler);
          assert goal == Finish(Contents(), Idle, p);
        case Produced(six) =>
          assert goal == Finish(Contents(), Collected(key, six), p);
          var session := WithWrites(Contents(), key, six, if p.publishFails then p.written else 3);
          if p.publishFails {
            Fail(key, session, p.handler);
          } else {
            Commit(SetStatus(session, key, DONE));
          }
          assert goal == Finish(Contents(), Idle, p);
      }
    }
  }
}
