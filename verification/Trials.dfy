/** Trial creation over Redis: any number of concurrent init_trial calls, one command at a time, under a clock. */
module Trials {
  import opened Common

  const TRIAL_TTL := 259200.0
  const IP_WINDOW := 86400.0
  const IP_MAX := 5

  datatype Trial = Trial(createdAt: real, expiresAt: real, ip: string)

  /** A Redis value and the instant at which the key disappears. */
  datatype Entry<+T> = Entry(value: T, expiry: real)

  datatype Store = Store(trials: map<string, Entry<Trial>>, counters: map<string, Entry<int>>)

  function Get<T>(m: map<string, Entry<T>>, k: string, now: real): Option<T> {
    if k in m && now < m[k].expiry then Some(m[k].value) else None
  }

  /** INCR works on 0 when the key is gone. */
  function CountOf(store: Store, ip: string, now: real): int {
    var c := Get(store.counters, ip, now);
    if c.Some? then c.value else 0
  }

  // ---------- One call, one command at a time ----------

  datatype Answer =
    | FromStore(trial: Trial)            // read back from the store
    | RateLimited
    | Own(trial: Trial, stored: bool)    // the record this call made, and whether its SET NX took

  datatype Pc =
    | AskTrial
    | AskCount
    | SetTrial(mine: Trial)
    | Reread(mine: Trial)
    | Increment(mine: Trial, stored: bool)
    | Done(answer: Answer)

  datatype Call = Call(visitor: string, ip: string, pc: Pc)

  function CallStep(store: Store, call: Call, now: real): (Store, Call) {
    match call.pc
    case AskTrial =>
      var existing := Get(store.trials, call.visitor, now);
      (store, call.(pc := if existing.Some? then Done(FromStore(existing.value)) else AskCount))
    case AskCount =>
      (store, call.(pc := if CountOf(store, call.ip, now) >= IP_MAX then Done(RateLimited)
                          else SetTrial(Trial(now, now + TRIAL_TTL, call.ip))))
    case SetTrial(mine) =>
      if Get(store.trials, call.visitor, now).Some? then (store, call.(pc := Reread(mine)))
      else (store.(trials := store.trials[call.visitor := Entry(mine, now + TRIAL_TTL)]),
            call.(pc := Increment(mine, true)))
    case Reread(mine) =>
      var existing := Get(store.trials, call.visitor, now);
      (store, call.(pc := if existing.Some? then Done(FromStore(existing.value)) else Increment(mine, false)))
    case Increment(mine, stored) =>
      (store.(counters := store.counters[call.ip := Entry(CountOf(store, call.ip, now) + 1, now + IP_WINDOW)]),
       call.(pc := Done(Own(mine, stored))))
    case Done(_) => (store, call)
  }

  // ---------- The service, called without interruption ----------

  function StepsLeft(pc: Pc): nat {
    match pc
    case AskTrial => 5
    case AskCount => 4
    case SetTrial(_) => 3
    case Reread(_) => 2
    case Increment(_, _) => 1
    case Done(_) => 0
  }

  /** Run a call to its end at one instant. */
  function Finish(store: Store, call: Call, now: real): (r: (Store, Call))
    ensures r.1.pc.Done?
    decreases StepsLeft(call.pc)
  {
    if call.pc.Done? then (store, call)
    else
      var next := CallStep(store, call, now);
      Finish(next.0, next.1, now)
  }

  lemma FinishUnrolled(store: Store, visitor: string, ip: string, now: real)
    ensures var c0 := Call(visitor, ip, AskTrial);
            var n1 := CallStep(store, c0, now);
            var n2 := CallStep(n1.0, n1.1, now);
            var n3 := CallStep(n2.0, n2.1, now);
            Finish(store, c0, now) == CallStep(n3.0, n3.1, now)
  {
    var n1 := CallStep(store, Call(visitor, ip, AskTrial), now);
    assert Finish(store, Call(visitor, ip, AskTrial), now) == Finish(n1.0, n1.1, now);
    var n2 := CallStep(n1.0, n1.1, now);
    assert Finish(n1.0, n1.1, now) == Finish(n2.0, n2.1, now);
    var n3 := CallStep(n2.0, n2.1, now);
    assert Finish(n2.0, n2.1, now) == Finish(n3.0, n3.1, now);
    assert n3.1.pc.Done? || n3.1.pc.Increment?;
    var n4 := CallStep(n3.0, n3.1, now);
    assert Finish(n3.0, n3.1, now) == Finish(n4.0, n4.1, now);
  }

  class TrialService {
    var trials: map<string, Entry<Trial>>
    var counters: map<string, Entry<int>>

    function Contents(): Store
      reads this
    {
      Store(trials, counters)
    }

    /** An existing trial is returned untouched; a sixth creation inside the window is refused; otherwise the
        record is stored for three days and the counter goes up and starts its window of a day anew. */
    method InitTrial(visitor: string, ip: string, now: real) returns (a: Answer)
      modifies this
      ensures old(Get(trials, visitor, now).Some?) ==>
                a == FromStore(old(Get(trials, visitor, now).value)) && Contents() == old(Contents())
      ensures old(Get(trials, visitor, now).None? && CountOf(Contents(), ip, now) >= 5) ==>
                a == RateLimited && Contents() == old(Contents())
      ensures old(Get(trials, visitor, now).None? && CountOf(Contents(), ip, now) < 5) ==>
                && a == Own(Trial(now, now + 259200.0, ip), true)
                && trials == old(trials)[visitor := Entry(a.trial, now + 259200.0)]
                && counters == old(counters)[ip := Entry(old(CountOf(Contents(), ip, now)) + 1, now + 86400.0)]
      ensures var r := Finish(old(Contents()), Call(visitor, ip, AskTrial), now);
              (Contents(), Done(a)) == (r.0, r.1.pc)
    {
      FinishUnrolled(Contents(), visitor, ip, now);
      var existing := Get(trials, visitor, now);
      if existing.Some? {
        return FromStore(existing.value);
      }
      var ipCount := Get(counters, ip, now);
      if ipCount.Some? && ipCount.value >= IP_MAX {
        return RateLimited;
      }
      var data := Trial(now, now + TRIAL_TTL, ip);
      // SET NX: with nobody in between it always takes; the branch that reads back belongs to concurrent runs.
      assert Get(trials, visitor, now).None?;
      trials := trials[visitor := Entry(data, now + TRIAL_TTL)];
      counters := counters[ip := Entry(CountOf(Contents(), ip, now) + 1, now + IP_WINDOW)];
      a := Own(data, true);
    }
  }

  // ---------- Concurrent runs ----------

  /** What has happened for each IP: `increments` lists the instants of its INCRs, `created` those of the SET NX
      commands that took, and `lost` the creation instants of calls that died before their INCR. `waiting` holds the
      creation instant of every call that has stored its record and not reached its INCR. */
  datatype Past = Past(increments: map<string, seq<real>>, created: map<string, seq<real>>,
                       waiting: map<nat, real>, lost: map<string, seq<real>>)

  datatype State = State(now: real, store: Store, calls: map<nat, Call>, past: Past)

  const INIT := State(0.0, Store(map[], map[]), map[], Past(map[], map[], map[], map[]))

  datatype Event =
    | Tick(d: real)
    | Arrive(id: nat, visitor: string, ip: string)
    | Advance(id: nat)
    | Drop(id: nat)      // the process serving the call dies

  function LogOf(logs: map<string, seq<real>>, ip: string): seq<real> { if ip in logs then logs[ip] else [] }

  function Noted(logs: map<string, seq<real>>, ip: string, at: real): map<string, seq<real>> {
    logs[ip := LogOf(logs, ip) + [at]]
  }

  function Log(s: State, ip: string): seq<real> { LogOf(s.past.increments, ip) }
  function Created(s: State, ip: string): seq<real> { LogOf(s.past.created, ip) }
  function Lost(s: State, ip: string): seq<real> { LogOf(s.past.lost, ip) }

  /** The SET NX of the call takes in this step. */
  predicate Creates(s: State, id: nat) {
    id in s.calls && s.calls[id].pc.SetTrial? && Get(s.store.trials, s.calls[id].visitor, s.now).None?
  }

  function Remember(s: State, e: Event): Past {
    var p := s.past;
    match e
    case Advance(id) =>
      if Creates(s, id) then
        p.(created := Noted(p.created, s.calls[id].ip, s.now), waiting := p.waiting[id := s.now])
      else if id in s.calls && s.calls[id].pc.Increment? then
        p.(increments := Noted(p.increments, s.calls[id].ip, s.now), waiting := p.waiting - {id})
      else p
    case Drop(id) =>
      if id in s.calls && id in p.waiting then
        p.(lost := Noted(p.lost, s.calls[id].ip, p.waiting[id]), waiting := p.waiting - {id})
      else p
    case _ => p
  }

  /** An event that is not possible changes nothing. */
  function Apply(s: State, e: Event): State {
    match e
    case Tick(d) => if d >= 0.0 then s.(now := s.now + d) else s
    case Arrive(id, visitor, ip) =>
      if id in s.calls then s else s.(calls := s.calls[id := Call(visitor, ip, AskTrial)])
    case Advance(id) =>
      if id !in s.calls then s
      else
        var next := CallStep(s.store, s.calls[id], s.now);
        State(s.now, next.0, s.calls[id := next.1], Remember(s, e))
    case Drop(id) => s.(calls := s.calls - {id}, past := Remember(s, e))
  }

  function RunFrom(s: State, es: seq<Event>): State {
    if es == [] then s else Apply(RunFrom(s, es[..|es| - 1]), es[|es| - 1])
  }

  function Run(es: seq<Event>): State { RunFrom(INIT, es) }

  /** An uninterrupted call is a run of the machine. */
  lemma {:induction false} FinishIsRun(s: State, id: nat, k: nat)
    requires id in s.calls && k == StepsLeft(s.calls[id].pc)
    ensures var r := RunFrom(s, seq(k, _ => Advance(id)));
            var f := Finish(s.store, s.calls[id], s.now);
            r.store == f.0 && id in r.calls && r.calls[id] == f.1
    decreases k
  {
    var es := seq(k, _ => Advance(id));
    if k > 0 {
      var s1 := Apply(s, Advance(id));
      var k1 := StepsLeft(s1.calls[id].pc);
      FinishIsRun(s1, id, k1);
      RunSplits(s, [Advance(id)], es[1..]);
      assert [Advance(id)] + es[1..] == es;
      assert [Advance(id)][..0] == [];
      RunSplits(s1, seq(k1, _ => Advance(id)), seq(k - 1 - k1, _ => Advance(id)));
      assert seq(k1, _ => Advance(id)) + seq(k - 1 - k1, _ => Advance(id)) == es[1..];
      DoneStays(RunFrom(s1, seq(k1, _ => Advance(id))), id, k - 1 - k1);
    }
  }

  lemma {:induction false} DoneStays(s: State, id: nat, k: nat)
    requires id in s.calls && s.calls[id].pc.Done?
    ensures RunFrom(s, seq(k, _ => Advance(id))) == s
  {
    if k > 0 {
      DoneStays(s, id, k - 1);
      assert seq(k, _ => Advance(id))[..k - 1] == seq(k - 1, _ => Advance(id));
      assert s.calls[id := s.calls[id]] == s.calls;
    }
  }

  lemma {:induction false} RunSplits(s: State, es: seq<Event>, fs: seq<Event>)
    ensures RunFrom(s, es + fs) == RunFrom(RunFrom(s, es), fs)
  {
    if fs == [] {
      assert es + fs == es;
    } else {
      RunSplits(s, es, fs[..|fs| - 1]);
      assert (es + fs)[..|es + fs| - 1] == es + fs[..|fs| - 1];
    }
  }

  // ---------- The per-IP limit ----------

  predicate BetweenCheckAndIncrement(call: Call, ip: string) {
    call.ip == ip && (call.pc.SetTrial? || call.pc.Reread? || call.pc.Increment?)
  }

  /** The calls that have passed the check for `ip` and have not reached their INCR. */
  function Pending(s: State, ip: string): set<nat> {
    set id | id in s.calls && BetweenCheckAndIncrement(s.calls[id], ip)
  }

  /** At no point of the run are more than n calls for `ip` between check and INCR. */
  predicate AtMostPending(es: seq<Event>, ip: string, n: nat) {
    forall k | 0 <= k <= |es| :: |Pending(Run(es[..k]), ip)| <= n
  }

  /** The length of the final stretch of increments that are less than a window apart. */
  function Streak(log: seq<real>): nat {
    if log == [] then 0
    else if |log| == 1 || log[|log| - 1] - log[|log| - 2] >= IP_WINDOW then 1
    else Streak(log[..|log| - 1]) + 1
  }

  /** The counter is the streak of its increments, and expires a window after the last of them. */
  predicate CounterTracksLog(s: State, ip: string) {
    var log := Log(s, ip);
    && (ip in s.store.counters <==> log != [])
    && (log != [] ==> log[|log| - 1] <= s.now
                      && s.store.counters[ip] == Entry(Streak(log), log[|log| - 1] + IP_WINDOW))
  }

  lemma {:induction false} CounterInvariant(es: seq<Event>, ip: string)
    ensures CounterTracksLog(Run(es), ip)
  {
    if es != [] {
      CounterInvariant(es[..|es| - 1], ip);
      var s, e := Run(es[..|es| - 1]), es[|es| - 1];
      if e.Advance? && e.id in s.calls && s.calls[e.id].pc.Increment? && s.calls[e.id].ip == ip {
        var log := Log(s, ip);
        assert (log + [s.now])[..|log|] == log;
      }
    }
  }

  /** The event is an INCR of the counter of `ip`. */
  predicate Increments(s: State, e: Event, ip: string) {
    e.Advance? && e.id in s.calls && s.calls[e.id].ip == ip && s.calls[e.id].pc.Increment?
  }

  /** The event is a check of the counter of `ip` that lets the call through. */
  predicate PassesCheck(s: State, e: Event, ip: string) {
    && e.Advance? && e.id in s.calls && s.calls[e.id].ip == ip && s.calls[e.id].pc.AskCount?
    && CountOf(s.store, ip, s.now) < IP_MAX
  }

  lemma CountAfter(s: State, e: Event, ip: string)
    requires CounterTracksLog(s, ip)
    ensures CountOf(Apply(s, e).store, ip, Apply(s, e).now)
            <= CountOf(s.store, ip, s.now) + if Increments(s, e, ip) then 1 else 0
  {
  }

  lemma StepWithinCall(store: Store, call: Call, now: real, ip: string)
    ensures var next := CallStep(store, call, now).1;
            && (BetweenCheckAndIncrement(next, ip) ==>
                  BetweenCheckAndIncrement(call, ip)
                  || (call.ip == ip && call.pc.AskCount? && CountOf(store, ip, now) < IP_MAX))
            && (call.ip == ip && call.pc.Increment? ==>
                  BetweenCheckAndIncrement(call, ip) && !BetweenCheckAndIncrement(next, ip))
  {
  }

  lemma AdvancePending(s: State, id: nat, ip: string)
    requires id in s.calls
    ensures var p, q := Pending(s, ip), Pending(Apply(s, Advance(id)), ip);
            && (Increments(s, Advance(id), ip) ==> |q| == |p| - 1)
            && (!PassesCheck(s, Advance(id), ip) ==> |q| <= |p|)
  {
    hide CallStep, BetweenCheckAndIncrement, CountOf, Log;
    var p, q := Pending(s, ip), Pending(Apply(s, Advance(id)), ip);
    StepWithinCall(s.store, s.calls[id], s.now, ip);
    assert q - {id} == p - {id};
    assert q == (if id in q then (p - {id}) + {id} else p - {id});
    if id in p && id in q {
      assert q == p;
    }
  }

  lemma PendingAfter(s: State, e: Event, ip: string)
    ensures var p, q := Pending(s, ip), Pending(Apply(s, e), ip);
            && (Increments(s, e, ip) ==> |q| == |p| - 1)
            && (!PassesCheck(s, e, ip) ==> |q| <= |p|)
  {
    hide CallStep, BetweenCheckAndIncrement, CountOf, Log;
    var p, q := Pending(s, ip), Pending(Apply(s, e), ip);
    match e
    case Tick(_) => assert q == p;
    case Arrive(_, _, _) => ArrivePending(s, e.id, e.visitor, e.ip, ip);
    case Drop(id) => assert q == p - {id};
    case Advance(id) =>
      if id in s.calls {
        AdvancePending(s, id, ip);
      }
  }

  lemma ArrivePending(s: State, id: nat, visitor: string, from: string, ip: string)
    ensures Pending(Apply(s, Arrive(id, visitor, from)), ip) == Pending(s, ip)
  {
  }

  /** With at most n calls for an IP between check and INCR, its counter never exceeds IP_MAX - 1 + n: what is
      counted and what is still on its way stay within that together. */
  lemma {:induction false} CounterBounded(es: seq<Event>, ip: string, n: nat)
    requires AtMostPending(es, ip, n)
    ensures CountOf(Run(es).store, ip, Run(es).now) + |Pending(Run(es), ip)| <= IP_MAX - 1 + n
  {
    if es == [] {
      assert Pending(INIT, ip) == {};
    } else {
      var k := |es| - 1;
      assert forall j | 0 <= j <= k :: es[..k][..j] == es[..j];
      CounterBounded(es[..k], ip, n);
      CounterInvariant(es[..k], ip);
      PendingAfter(Run(es[..k]), es[k], ip);
      CountAfter(Run(es[..k]), es[k], ip);
      assert es[..|es|] == es;
      assert |Pending(Run(es), ip)| <= n;
    }
  }

  lemma LogGrows(s: State, e: Event, ip: string)
    ensures Log(Apply(s, e), ip) == Log(s, ip) || Log(Apply(s, e), ip) == Log(s, ip) + [Apply(s, e).now]
  {
    hide CallStep, Creates;
  }

  lemma CounterIsStreak(s: State, ip: string)
    requires CounterTracksLog(s, ip)
    ensures var log := Log(s, ip); log != [] && log[|log| - 1] == s.now ==> CountOf(s.store, ip, s.now) == Streak(log)
  {
    hide Streak;
  }

  /** No stretch of increments less than a window apart is ever longer than that bound. */
  lemma {:induction false} StreaksBounded(es: seq<Event>, ip: string, n: nat)
    requires AtMostPending(es, ip, n)
    ensures forall j | 0 <= j <= |Log(Run(es), ip)| :: Streak(Log(Run(es), ip)[..j]) <= IP_MAX - 1 + n
  {
    if es != [] {
      var k := |es| - 1;
      PrefixPending(es, ip, n);
      StreaksBounded(es[..k], ip, n);
      CounterBounded(es, ip, n);
      CounterInvariant(es, ip);
      CounterIsStreak(Run(es), ip);
      LogGrows(Run(es[..k]), es[k], ip);
      var before, log := Log(Run(es[..k]), ip), Log(Run(es), ip);
      hide Apply, Log, Streak, AtMostPending, Pending, CounterTracksLog, CountOf;
      if log != before {
        assert log[..|log|] == log;
        forall j | 0 <= j < |log| ensures Streak(log[..j]) <= IP_MAX - 1 + n { assert log[..j] == before[..j]; }
      }
    }
  }

  lemma {:induction false} CloseNeighboursMakeStreak(log: seq<real>, i: nat, m: nat)
    requires m >= 1 && i + m <= |log|
    requires forall j | i <= j < i + m - 1 :: log[j + 1] - log[j] < IP_WINDOW
    ensures Streak(log[..i + m]) >= m
  {
    if m > 1 {
      CloseNeighboursMakeStreak(log, i, m - 1);
      assert log[..i + m][..i + m - 1] == log[..i + m - 1];
    }
  }

  /** With at most n calls at once between check and INCR, among any IP_MAX + n consecutive INCRs two neighbours are a
      full window apart. */
  lemma IncrementsSpread(es: seq<Event>, ip: string, n: nat, i: nat)
    requires AtMostPending(es, ip, n)
    requires i + IP_MAX + n <= |Log(Run(es), ip)|
    ensures exists j | i <= j < i + IP_MAX + n - 1 ::
              Log(Run(es), ip)[j + 1] - Log(Run(es), ip)[j] >= IP_WINDOW
  {
    var log := Log(Run(es), ip);
    StreaksBounded(es, ip, n);
    if forall j | i <= j < i + IP_MAX + n - 1 :: log[j + 1] - log[j] < IP_WINDOW {
      CloseNeighboursMakeStreak(log, i, IP_MAX + n);
    }
  }

  // ---------- Creations in a stretch of time ----------

  /** How many entries of the log lie between a and b. */
  function CountIn(log: seq<real>, a: real, b: real): nat {
    if log == [] then 0
    else CountIn(log[..|log| - 1], a, b) + if a <= log[|log| - 1] <= b then 1 else 0
  }

  lemma CountNoted(logs: map<string, seq<real>>, ip: string, at: real, other: string, a: real, b: real)
    ensures CountIn(LogOf(Noted(logs, ip, at), other), a, b)
            == CountIn(LogOf(logs, other), a, b) + if other == ip && a <= at <= b then 1 else 0
  {
    CountAppend(LogOf(logs, ip), at, a, b);
  }

  /** The calls for `ip` that have stored their record and not reached their INCR. */
  function Waiting(s: State, ip: string): set<nat> {
    set id | id in s.past.waiting && id in s.calls && s.calls[id].ip == ip
  }

  function WaitingSince(s: State, ip: string, a: real): set<nat> {
    set id | id in Waiting(s, ip) && s.past.waiting[id] >= a
  }

  predicate WaitingSound(s: State) {
    && (forall id | id in s.past.waiting ::
          id in s.calls && s.calls[id].pc.Increment? && s.calls[id].pc.stored && s.past.waiting[id] <= s.now)
    && (forall id | id in s.calls && s.calls[id].pc.Increment? && s.calls[id].pc.stored :: id in s.past.waiting)
  }

  lemma {:induction false} WaitingIsSound(es: seq<Event>)
    ensures WaitingSound(Run(es))
  {
    if es != [] {
      WaitingIsSound(es[..|es| - 1]);
      StepKeepsWaitingSound(Run(es[..|es| - 1]), es[|es| - 1]);
      hide WaitingSound, Apply;
    }
  }

  lemma StepKeepsWaitingSound(s: State, e: Event)
    requires WaitingSound(s)
    ensures WaitingSound(Apply(s, e))
  {
    hide CountOf, Noted;
  }

  lemma SubsetSize(p: set<nat>, q: set<nat>)
    requires p <= q
    ensures |p| <= |q|
  {
    assert q == p + (q - p);
  }

  lemma WaitingIsPending(s: State, ip: string, a: real)
    requires WaitingSound(s)
    ensures |WaitingSince(s, ip, a)| <= |Waiting(s, ip)| <= |Pending(s, ip)|
  {
    SubsetSize(WaitingSince(s, ip, a), Waiting(s, ip));
    assert Waiting(s, ip) <= Pending(s, ip);
    SubsetSize(Waiting(s, ip), Pending(s, ip));
  }

  /** The creations from a to b that are neither on their way to their INCR nor lost. */
  function Counted(s: State, ip: string, a: real, b: real): int {
    CountIn(Created(s, ip), a, b) - |WaitingSince(s, ip, a)| - CountIn(Lost(s, ip), a, b)
  }

  /** Until b, the counter holds all of them, and outlives the window from a. */
  predicate CounterCovers(s: State, ip: string, a: real, b: real) {
    s.now <= b && Counted(s, ip, a, b) > 0 ==>
      && ip in s.store.counters
      && s.store.counters[ip].value >= Counted(s, ip, a, b)
      && s.store.counters[ip].expiry >= a + IP_WINDOW
  }

  lemma CreationUnfolds(s: State, id: nat)
    requires Creates(s, id)
    ensures var t, p := Apply(s, Advance(id)), s.past;
            && t.now == s.now && t.store.counters == s.store.counters
            && t.calls.Keys == s.calls.Keys && t.calls[id].ip == s.calls[id].ip
            && (forall x | x in s.calls && x != id :: t.calls[x] == s.calls[x])
            && t.past == p.(created := Noted(p.created, s.calls[id].ip, s.now), waiting := p.waiting[id := s.now])
  {
    hide Noted;
  }

  lemma WaitingAfterCreation(s: State, id: nat, ip: string, a: real)
    requires Creates(s, id) && id !in s.past.waiting
    ensures |WaitingSince(Apply(s, Advance(id)), ip, a)|
            == |WaitingSince(s, ip, a)| + if s.calls[id].ip == ip && s.now >= a then 1 else 0
  {
    var t := Apply(s, Advance(id));
    CreationUnfolds(s, id);
    hide Apply, Creates, Noted;
    var before, after := WaitingSince(s, ip, a), WaitingSince(t, ip, a);
    assert id !in before && (id in after <==> s.calls[id].ip == ip && s.now >= a);
    forall x | x != id ensures x in after <==> x in before {
      assert x in t.past.waiting <==> x in s.past.waiting;
    }
    hide WaitingSince;
    assert after == if id in after then before + {id} else before;
  }

  /** A creation is on its way to its INCR, and so not yet counted. */
  lemma CreationStep(s: State, id: nat, ip: string, a: real, b: real)
    requires Creates(s, id) && id !in s.past.waiting && s.now <= b
    ensures var t := Apply(s, Advance(id));
            t.store.counters == s.store.counters && t.now == s.now && Counted(t, ip, a, b) == Counted(s, ip, a, b)
  {
    CreationUnfolds(s, id);
    WaitingAfterCreation(s, id, ip, a);
    CountNoted(s.past.created, s.calls[id].ip, s.now, ip, a, b);
    hide CountIn, Noted, LogOf, Apply, Creates, WaitingSince;
  }

  lemma IncrementUnfolds(s: State, id: nat)
    requires id in s.calls && s.calls[id].pc.Increment?
    ensures var t, p, ip := Apply(s, Advance(id)), s.past, s.calls[id].ip;
            && t.now == s.now && t.calls.Keys == s.calls.Keys && t.calls[id].ip == ip
            && (forall x | x in s.calls && x != id :: t.calls[x] == s.calls[x])
            && t.store.counters == s.store.counters[ip := Entry(CountOf(s.store, ip, s.now) + 1, s.now + IP_WINDOW)]
            && t.past == p.(increments := Noted(p.increments, ip, s.now), waiting := p.waiting - {id})
  {
    hide Noted, CountOf;
  }

  lemma WaitingAfterIncrement(s: State, id: nat, ip: string, a: real)
    requires id in s.calls && s.calls[id].pc.Increment?
    ensures |WaitingSince(Apply(s, Advance(id)), ip, a)|
            == |WaitingSince(s, ip, a)| - if id in WaitingSince(s, ip, a) then 1 else 0
  {
    var t := Apply(s, Advance(id));
    IncrementUnfolds(s, id);
    hide Apply, Noted, CountOf;
    var before, after := WaitingSince(s, ip, a), WaitingSince(t, ip, a);
    forall x ensures x in after <==> x in before && x != id {
      assert x != id ==> (x in t.past.waiting <==> x in s.past.waiting);
    }
    hide WaitingSince;
    assert after == before - {id};
  }

  /** An INCR counts its call's creation and starts the window anew. */
  lemma IncrementStep(s: State, id: nat, ip: string, a: real, b: real)
    requires id in s.calls && s.calls[id].pc.Increment? && s.now <= b && b - a < IP_WINDOW
    requires WaitingSound(s) && CounterTracksLog(s, ip) && CounterCovers(s, ip, a, b)
    ensures CounterCovers(Apply(s, Advance(id)), ip, a, b)
  {
    IncrementUnfolds(s, id);
    WaitingAfterIncrement(s, id, ip, a);
    assert id in WaitingSince(s, ip, a) ==> s.calls[id].ip == ip && a <= s.now;
    hide Apply, CountIn, Noted, Streak, WaitingSince, WaitingSound;
  }

  lemma DropUnfolds(s: State, id: nat)
    requires WaitingSound(s)
    ensures var t, p := Apply(s, Drop(id)), s.past;
            && t.store == s.store && t.now == s.now && t.calls == s.calls - {id}
            && t.past == if id in p.waiting
                         then p.(lost := Noted(p.lost, s.calls[id].ip, p.waiting[id]), waiting := p.waiting - {id})
                         else p
  {
    hide Noted;
  }

  lemma WaitingAfterDrop(s: State, id: nat, ip: string, a: real)
    requires WaitingSound(s)
    ensures |WaitingSince(Apply(s, Drop(id)), ip, a)|
            == |WaitingSince(s, ip, a)| - if id in WaitingSince(s, ip, a) then 1 else 0
  {
    var t := Apply(s, Drop(id));
    DropUnfolds(s, id);
    hide Apply, Noted;
    var before, after := WaitingSince(s, ip, a), WaitingSince(t, ip, a);
    forall x ensures x in after <==> x in before && x != id {
      assert x != id ==> (x in t.past.waiting <==> x in s.past.waiting);
    }
    hide WaitingSince;
    assert after == before - {id};
  }

  /** What a dying call takes from the calls on their way it adds to the lost ones. */
  lemma DropStep(s: State, id: nat, ip: string, a: real, b: real)
    requires WaitingSound(s) && s.now <= b
    ensures var t := Apply(s, Drop(id));
            t.store == s.store && t.now == s.now && Counted(t, ip, a, b) == Counted(s, ip, a, b)
  {
    DropUnfolds(s, id);
    WaitingAfterDrop(s, id, ip, a);
    if id in s.past.waiting {
      CountNoted(s.past.lost, s.calls[id].ip, s.past.waiting[id], ip, a, b);
    }
    assert id in WaitingSince(s, ip, a) <==> id in s.past.waiting && s.calls[id].ip == ip && s.past.waiting[id] >= a;
    hide CountIn, Noted, LogOf, Apply, WaitingSince;
  }

  /** Any other event leaves the quantities alone. */
  lemma OtherStep(s: State, e: Event, ip: string, a: real, b: real)
    requires WaitingSound(s) && !e.Drop?
    requires e.Advance? && e.id in s.calls ==> !Creates(s, e.id) && !s.calls[e.id].pc.Increment?
    ensures var t := Apply(s, e);
            && t.store.counters == s.store.counters && t.now >= s.now && t.past == s.past
            && Waiting(t, ip) == Waiting(s, ip)
            && Counted(t, ip, a, b) == Counted(s, ip, a, b)
  {
    var t := Apply(s, e);
    hide CountIn, Noted, LogOf, CountOf;
    assert t.past == s.past;
    assert Waiting(t, ip) == Waiting(s, ip);
    assert WaitingSince(t, ip, a) == WaitingSince(s, ip, a);
  }

  lemma StepKeepsCovered(s: State, e: Event, ip: string, a: real, b: real)
    requires WaitingSound(s) && CounterTracksLog(s, ip) && CounterCovers(s, ip, a, b) && b - a < IP_WINDOW
    ensures CounterCovers(Apply(s, e), ip, a, b)
  {
    if s.now <= b {
      if e.Drop? {
        DropStep(s, e.id, ip, a, b);
      } else if e.Advance? && Creates(s, e.id) {
        CreationStep(s, e.id, ip, a, b);
      } else if e.Advance? && e.id in s.calls && s.calls[e.id].pc.Increment? {
        IncrementStep(s, e.id, ip, a, b);
      } else {
        OtherStep(s, e, ip, a, b);
      }
    } else {
      NeverBack(s, e);
    }
    hide Apply, Counted, WaitingSound, CounterTracksLog, Creates;
  }

  lemma {:induction false} CounterAlwaysCovers(es: seq<Event>, ip: string, a: real, b: real)
    requires b - a < IP_WINDOW
    ensures CounterCovers(Run(es), ip, a, b)
  {
    if es != [] {
      var k := |es| - 1;
      CounterAlwaysCovers(es[..k], ip, a, b);
      WaitingIsSound(es[..k]);
      CounterInvariant(es[..k], ip);
      StepKeepsCovered(Run(es[..k]), es[k], ip, a, b);
      hide Apply, WaitingSound, CounterTracksLog, CounterCovers;
    }
  }

  lemma CountAppend(log: seq<real>, at: real, a: real, b: real)
    ensures CountIn(log + [at], a, b) == CountIn(log, a, b) + if a <= at <= b then 1 else 0
  {
    assert (log + [at])[..|log|] == log;
  }

  lemma CreatedGrows(s: State, e: Event, ip: string)
    ensures Created(Apply(s, e), ip) == Created(s, ip)
            || (Created(Apply(s, e), ip) == Created(s, ip) + [s.now] && e.Advance? && Creates(s, e.id)
                && s.calls[e.id].ip == ip && Apply(s, e).now == s.now)
  {
    hide CallStep, Creates;
  }

  lemma LostGrows(s: State, e: Event, ip: string)
    ensures Lost(Apply(s, e), ip) == Lost(s, ip) || exists at :: Lost(Apply(s, e), ip) == Lost(s, ip) + [at]
  {
    hide CallStep, Creates;
  }

  lemma HistoryGrows(s: State, e: Event, ip: string, a: real, b: real)
    ensures CountIn(Lost(s, ip), a, b) <= CountIn(Lost(Apply(s, e), ip), a, b)
    ensures CountIn(Created(Apply(s, e), ip), a, b) == CountIn(Created(s, ip), a, b) || a <= Apply(s, e).now <= b
  {
    hide CountIn, Apply, Created, Lost, Creates;
    CreatedGrows(s, e, ip);
    LostGrows(s, e, ip);
    CountAppend(Created(s, ip), s.now, a, b);
    if at :| Lost(Apply(s, e), ip) == Lost(s, ip) + [at] { CountAppend(Lost(s, ip), at, a, b); }
  }

  /** Rolling limit on creations, over every run: however calls interleave, stall and die, a stretch of time shorter
      than a window holds at most IP_MAX - 1 + n creations for an IP, and on top of them those whose calls died before
      their INCR. */
  lemma {:induction false} WindowHoldsFew(es: seq<Event>, ip: string, n: nat, a: real, b: real)
    requires AtMostPending(es, ip, n) && b - a < IP_WINDOW
    ensures CountIn(Created(Run(es), ip), a, b) <= IP_MAX - 1 + n + CountIn(Lost(Run(es), ip), a, b)
  {
    hide Apply, CountIn, WaitingSound, Created, Lost, WaitingSince, Pending, AtMostPending;
    if es == [] {
      NothingCreated(ip, a, b);
    } else {
      var k := |es| - 1;
      PrefixPending(es, ip, n);
      WindowHoldsFew(es[..k], ip, n, a, b);
      HistoryGrows(Run(es[..k]), es[k], ip, a, b);
      CounterAlwaysCovers(es, ip, a, b);
      CounterBounded(es, ip, n);
      WaitingIsSound(es);
      WaitingIsPending(Run(es), ip, a);
      CounterNotNegative(es, ip);
    }
  }

  lemma CounterNotNegative(es: seq<Event>, ip: string)
    ensures CountOf(Run(es).store, ip, Run(es).now) >= 0
  {
    CounterInvariant(es, ip);
  }

  lemma NothingCreated(ip: string, a: real, b: real)
    ensures CountIn(Created(INIT, ip), a, b) == 0
  {
  }

  lemma PrefixPending(es: seq<Event>, ip: string, n: nat)
    requires AtMostPending(es, ip, n) && es != []
    ensures AtMostPending(es[..|es| - 1], ip, n)
  {
    var before := es[..|es| - 1];
    forall j | 0 <= j <= |before| ensures |Pending(Run(before[..j]), ip)| <= n {
      assert before[..j] == es[..j];
    }
  }

  // ---------- Neighbouring creations ----------

  /** No call for `ip` is held up, or dies, between its SET and its INCR. */
  predicate PromptStep(s: State, e: Event, ip: string) {
    && (e.Tick? && e.d > 0.0 ==> Waiting(s, ip) == {})
    && (e.Drop? ==> e.id !in Waiting(s, ip))
  }

  predicate Prompt(es: seq<Event>, ip: string) {
    forall k | 0 <= k < |es| :: PromptStep(Run(es[..k]), es[k], ip)
  }

  /** As long as the streak of creations can still grow, the counter keeps up with it: it holds all of it but for the
      calls on their way to their INCR, and with none on their way it also lives as long as the streak can grow. */
  predicate CreationsCovered(s: State, ip: string) {
    var c, w := Created(s, ip), |Waiting(s, ip)|;
    && (c != [] ==> c[|c| - 1] <= s.now)
    && (w > 0 ==> c != [])
    && (c != [] && s.now < c[|c| - 1] + IP_WINDOW ==>
          && (w == 0 ==> && ip in s.store.counters && s.store.counters[ip].value >= Streak(c)
                         && s.store.counters[ip].expiry >= c[|c| - 1] + IP_WINDOW)
          && (w > 0 && Streak(c) > w ==>
                Get(s.store.counters, ip, s.now).Some? && CountOf(s.store, ip, s.now) >= Streak(c) - w))
  }

  lemma StreakAppend(log: seq<real>, at: real)
    ensures Streak(log + [at])
            == if log == [] || at - log[|log| - 1] >= IP_WINDOW then 1 else Streak(log) + 1
  {
    assert (log + [at])[..|log|] == log;
  }

  lemma WaitingGrows(s: State, id: nat, ip: string)
    requires Creates(s, id) && id !in s.past.waiting
    ensures |Waiting(Apply(s, Advance(id)), ip)| == |Waiting(s, ip)| + if s.calls[id].ip == ip then 1 else 0
  {
    var t := Apply(s, Advance(id));
    CreationUnfolds(s, id);
    hide Apply, Creates, Noted;
    var before, after := Waiting(s, ip), Waiting(t, ip);
    assert id !in before && (id in after <==> s.calls[id].ip == ip);
    forall x | x != id ensures x in after <==> x in before {
      assert x in t.past.waiting <==> x in s.past.waiting;
    }
    hide Waiting;
    assert after == if id in after then before + {id} else before;
  }

  lemma CreationKeepsCovered(s: State, id: nat, ip: string)
    requires WaitingSound(s) && CreationsCovered(s, ip) && Creates(s, id)
    ensures CreationsCovered(Apply(s, Advance(id)), ip)
  {
    assert id !in s.past.waiting;
    CreationUnfolds(s, id);
    WaitingGrows(s, id, ip);
    StreakAppend(Created(s, ip), s.now);
    hide Apply, Creates, Waiting, WaitingSound, Streak;
  }

  lemma WaitingShrinks(s: State, id: nat, ip: string)
    requires id in s.calls && s.calls[id].pc.Increment?
    ensures |Waiting(Apply(s, Advance(id)), ip)| == |Waiting(s, ip)| - if id in Waiting(s, ip) then 1 else 0
  {
    var t := Apply(s, Advance(id));
    IncrementUnfolds(s, id);
    hide Apply, Noted, CountOf;
    var before, after := Waiting(s, ip), Waiting(t, ip);
    forall x ensures x in after <==> x in before && x != id {
      assert x != id ==> (x in t.past.waiting <==> x in s.past.waiting);
    }
    hide Waiting;
    assert after == before - {id};
  }

  lemma IncrementKeepsCreationsCovered(s: State, id: nat, ip: string)
    requires WaitingSound(s) && CreationsCovered(s, ip) && id in s.calls && s.calls[id].pc.Increment?
    requires CounterTracksLog(s, ip)
    ensures CreationsCovered(Apply(s, Advance(id)), ip)
  {
    IncrementUnfolds(s, id);
    WaitingShrinks(s, id, ip);
    assert id in Waiting(s, ip) ==> s.calls[id].ip == ip;
    hide Apply, Waiting, WaitingSound, Streak;
  }

  lemma PromptStepKeepsCovered(s: State, e: Event, ip: string)
    requires WaitingSound(s) && CounterTracksLog(s, ip) && CreationsCovered(s, ip) && PromptStep(s, e, ip)
    ensures CreationsCovered(Apply(s, e), ip)
  {
    if e.Drop? {
      DropOfOther(s, e.id, ip);
    } else if e.Advance? && Creates(s, e.id) {
      CreationKeepsCovered(s, e.id, ip);
    } else if e.Advance? && e.id in s.calls && s.calls[e.id].pc.Increment? {
      IncrementKeepsCreationsCovered(s, e.id, ip);
    } else {
      OtherStep(s, e, ip, 0.0, 0.0);
      assert Waiting(s, ip) != {} ==> Apply(s, e).now == s.now;
      hide Apply, Waiting, Streak;
    }
  }

  lemma DropOfOther(s: State, id: nat, ip: string)
    requires id !in Waiting(s, ip) && CreationsCovered(s, ip)
    ensures CreationsCovered(Apply(s, Drop(id)), ip)
  {
    var t := Apply(s, Drop(id));
    assert Waiting(t, ip) == Waiting(s, ip);
    hide Streak, Waiting;
  }

  lemma {:induction false} PromptRunsCovered(es: seq<Event>, ip: string)
    requires Prompt(es, ip)
    ensures CreationsCovered(Run(es), ip)
  {
    if es == [] {
      assert Waiting(INIT, ip) == {};
    } else {
      var k := |es| - 1;
      PrefixPrompt(es, ip);
      PromptRunsCovered(es[..k], ip);
      WaitingIsSound(es[..k]);
      CounterInvariant(es[..k], ip);
      PromptStepKeepsCovered(Run(es[..k]), es[k], ip);
      hide Apply, WaitingSound, CounterTracksLog, CreationsCovered, Prompt, PromptStep;
    }
  }

  lemma PrefixPrompt(es: seq<Event>, ip: string)
    requires Prompt(es, ip) && es != []
    ensures Prompt(es[..|es| - 1], ip) && PromptStep(Run(es[..|es| - 1]), es[|es| - 1], ip)
  {
    var before := es[..|es| - 1];
    forall k | 0 <= k < |before| ensures PromptStep(Run(before[..k]), before[k], ip) {
      assert before[..k] == es[..k] && before[k] == es[k];
    }
  }

  /** At every point of the run the counter keeps up with the streak of creations. */
  predicate KeepsTrack(es: seq<Event>, ip: string) {
    forall k | 0 <= k <= |es| :: CreationsCovered(Run(es[..k]), ip)
  }

  /** It does if no call is held up or dies between SET and INCR. */
  lemma PromptKeepsTrack(es: seq<Event>, ip: string)
    requires Prompt(es, ip)
    ensures KeepsTrack(es, ip)
  {
    forall k | 0 <= k <= |es| ensures CreationsCovered(Run(es[..k]), ip) {
      forall j | 0 <= j < k ensures PromptStep(Run(es[..k][..j]), es[..k][j], ip) {
        assert es[..k][..j] == es[..j] && es[..k][j] == es[j];
      }
      PromptRunsCovered(es[..k], ip);
    }
  }

  lemma PrefixKeepsTrack(es: seq<Event>, ip: string)
    requires KeepsTrack(es, ip)
    ensures CreationsCovered(Run(es), ip)
    ensures es != [] ==> KeepsTrack(es[..|es| - 1], ip)
  {
    assert es[..|es|] == es;
    hide CreationsCovered, Run;
    if es != [] {
      var before := es[..|es| - 1];
      forall k | 0 <= k <= |before| ensures CreationsCovered(Run(before[..k]), ip) { assert before[..k] == es[..k]; }
    }
  }

  /** Right after a creation, its streak is within the bound. */
  lemma LastStreakBounded(es: seq<Event>, ip: string, n: nat)
    requires AtMostPending(es, ip, n) && CreationsCovered(Run(es), ip) && |Waiting(Run(es), ip)| >= 1
    requires var c := Created(Run(es), ip); c != [] && c[|c| - 1] == Run(es).now
    ensures Streak(Created(Run(es), ip)) <= IP_MAX - 1 + n
  {
    CounterBounded(es, ip, n);
    CounterNotNegative(es, ip);
    WaitingIsSound(es);
    WaitingIsPending(Run(es), ip, 0.0);
    hide Run, Created, WaitingSound, AtMostPending, Waiting, WaitingSince, Pending, Streak, CountOf;
  }

  /** No streak of creations less than a window apart is longer than the bound, as long as the counter keeps up. */
  lemma {:induction false} CreationStreaksBounded(es: seq<Event>, ip: string, n: nat)
    requires AtMostPending(es, ip, n) && KeepsTrack(es, ip)
    ensures forall j | 0 <= j <= |Created(Run(es), ip)| :: Streak(Created(Run(es), ip)[..j]) <= IP_MAX - 1 + n
  {
    if es != [] {
      var k := |es| - 1;
      PrefixPending(es, ip, n);
      PrefixKeepsTrack(es, ip);
      CreationStreaksBounded(es[..k], ip, n);
      CreatedGrows(Run(es[..k]), es[k], ip);
      WaitingIsSound(es[..k]);
      var before, c := Created(Run(es[..k]), ip), Created(Run(es), ip);
      hide Created, Apply, WaitingSound, AtMostPending, KeepsTrack, CreationsCovered, Waiting, Streak, Creates;
      if c != before {
        LastWaits(Run(es[..k]), es[k], ip);
        LastStreakBounded(es, ip, n);
        assert c[..|c|] == c;
        forall j | 0 <= j < |c| ensures Streak(c[..j]) <= IP_MAX - 1 + n { assert c[..j] == before[..j]; }
      }
    }
  }

  lemma LastWaits(s: State, e: Event, ip: string)
    requires WaitingSound(s) && Created(Apply(s, e), ip) != Created(s, ip)
    ensures |Waiting(Apply(s, e), ip)| >= 1
  {
    CreatedGrows(s, e, ip);
    WaitingGrows(s, e.id, ip);
    hide Apply, Creates, Waiting;
  }

  /** Six neighbours. As long as the counter keeps up, among any IP_MAX + n consecutive creations two neighbours are a
      full window apart; for calls that do not overlap (n = 1), among any six. */
  lemma RollingLimit(es: seq<Event>, ip: string, n: nat, i: nat)
    requires AtMostPending(es, ip, n) && KeepsTrack(es, ip)
    requires i + IP_MAX + n <= |Created(Run(es), ip)|
    ensures exists j | i <= j < i + IP_MAX + n - 1 ::
              Created(Run(es), ip)[j + 1] - Created(Run(es), ip)[j] >= IP_WINDOW
  {
    hide Created, AtMostPending, KeepsTrack, Run;
    var log := Created(Run(es), ip);
    CreationStreaksBounded(es, ip, n);
    if forall j | i <= j < i + IP_MAX + n - 1 :: log[j + 1] - log[j] < IP_WINDOW {
      CloseNeighboursMakeStreak(log, i, IP_MAX + n);
    }
  }

  // ---------- Exactly when the neighbour rule is safe ----------

  /** The events may follow the run: calls for `ip` still come one at a time, and from here on none is held up or dies
      between its SET and its INCR. */
  predicate Continues(es: seq<Event>, fs: seq<Event>, ip: string) {
    && AtMostPending(es + fs, ip, 1)
    && forall k | 0 <= k < |fs| :: PromptStep(Run(es + fs[..k]), fs[k], ip)
  }

  /** However the run goes on like that, at most IP_MAX creations in a row are less than a window apart. */
  ghost predicate NeighbourRuleSafe(es: seq<Event>, ip: string) {
    forall fs | Continues(es, fs, ip) :: Streak(Created(Run(es + fs), ip)) <= IP_MAX
  }

  lemma ContinuesPrefix(es: seq<Event>, fs: seq<Event>, ip: string)
    requires Continues(es, fs, ip) && fs != []
    ensures var n := |fs| - 1;
            && Continues(es, fs[..n], ip) && PromptStep(Run(es + fs[..n]), fs[n], ip)
            && es + fs == (es + fs[..n]) + [fs[n]]
  {
    var n := |fs| - 1;
    hide PromptStep, Run, Pending;
    assert (es + fs)[..|es + fs| - 1] == es + fs[..n] && es + fs == (es + fs[..n]) + [fs[n]];
    PrefixPending(es + fs, ip, 1);
    forall k | 0 <= k < n ensures PromptStep(Run(es + fs[..n][..k]), fs[..n][k], ip) {
      assert fs[..n][..k] == fs[..k];
    }
  }

  lemma {:induction false} ContinuationBounded(es: seq<Event>, fs: seq<Event>, ip: string)
    requires CreationsCovered(Run(es), ip) && Streak(Created(Run(es), ip)) <= IP_MAX && Continues(es, fs, ip)
    ensures CreationsCovered(Run(es + fs), ip) && Streak(Created(Run(es + fs), ip)) <= IP_MAX
  {
    hide *;
    if fs == [] {
      assert es + fs == es;
    } else {
      var n := |fs| - 1;
      var before := es + fs[..n];
      ContinuesPrefix(es, fs, ip);
      ContinuationBounded(es, fs[..n], ip);
      RunAppend(before, fs[n]);
      WaitingIsSound(before);
      CounterInvariant(before, ip);
      PromptStepKeepsCovered(Run(before), fs[n], ip);
      CreatedGrows(Run(before), fs[n], ip);
      if Created(Run(es + fs), ip) != Created(Run(before), ip) {
        LastWaits(Run(before), fs[n], ip);
        ContinuesPending(es, fs, ip);
        LastStreakBounded(es + fs, ip, 1);
      }
    }
  }

  lemma ContinuesPending(es: seq<Event>, fs: seq<Event>, ip: string)
    requires Continues(es, fs, ip)
    ensures AtMostPending(es + fs, ip, 1)
  {
  }

  lemma PendingAppend(es: seq<Event>, e: Event, ip: string, n: nat)
    requires AtMostPending(es, ip, n) && |Pending(Run(es + [e]), ip)| <= n
    ensures AtMostPending(es + [e], ip, n)
  {
    hide Run, Pending;
    var all := es + [e];
    forall k | 0 <= k <= |all| ensures |Pending(Run(all[..k]), ip)| <= n {
      assert k <= |es| ==> all[..k] == es[..k];
      assert k == |all| ==> all[..k] == all;
    }
  }

  lemma Grown(es: seq<Event>, fs: seq<Event>, e: Event, ip: string)
    requires Continues(es, fs, ip) && PromptStep(Run(es + fs), e, ip)
    requires |Pending(Apply(Run(es + fs), e), ip)| <= 1
    ensures Continues(es, fs + [e], ip) && Run(es + (fs + [e])) == Apply(Run(es + fs), e)
  {
    var gs := fs + [e];
    RunAppend(es + fs, e);
    assert es + gs == (es + fs) + [e];
    hide PromptStep, Run, Pending, Apply, AtMostPending;
    PendingAppend(es + fs, e, ip, 1);
    forall k | 0 <= k < |gs| ensures PromptStep(Run(es + gs[..k]), gs[k], ip) {
      assert k < |fs| ==> gs[..k] == fs[..k] && gs[k] == fs[k];
      assert k == |fs| ==> gs[..k] == fs && gs[k] == e;
    }
  }

  lemma {:induction false} FreshVisitor(trials: map<string, Entry<Trial>>) returns (v: string)
    ensures forall x | x in trials :: |x| < |v|
    decreases |trials|
  {
    if trials == map[] {
      v := "";
    } else {
      var x :| x in trials;
      var rest := trials - {x};
      assert trials.Keys == rest.Keys + {x} && |trials| == |trials.Keys| && |rest| == |rest.Keys|;
      var y := FreshVisitor(rest);
      v := if |x| < |y| then y else x + "v";
    }
  }

  /** With nobody else on its way, one call more is at most one on its way. */
  lemma OnePending(s: State, t: State, id: nat, call: Call, ip: string)
    requires Pending(s, ip) == {} && t.calls == s.calls[id := call]
    ensures |Pending(t, ip)| <= 1
    ensures !BetweenCheckAndIncrement(call, ip) ==> Pending(t, ip) == {}
  {
    SubsetSize(Pending(t, ip), {id});
  }

  /** A call for a new visitor, from its arrival to its answer. */
  lemma OneMoreCall(es: seq<Event>, fs: seq<Event>, ip: string) returns (gs: seq<Event>)
    requires Continues(es, fs, ip) && Pending(Run(es + fs), ip) == {}
    requires CountOf(Run(es + fs).store, ip, Run(es + fs).now) < IP_MAX
    ensures Continues(es, gs, ip)
    ensures var s, t := Run(es + fs), Run(es + gs);
            && t.now == s.now && Pending(t, ip) == {} && Created(t, ip) == Created(s, ip) + [s.now]
            && CountOf(t.store, ip, t.now) == CountOf(s.store, ip, s.now) + 1
  {
    var s := Run(es + fs);
    var id := FreshNat(s.calls);
    var v := FreshVisitor(s.store.trials);
    gs := fs + [Arrive(id, v, ip)];
    var c := Call(v, ip, AskTrial);
    assert id !in s.calls && v !in s.store.trials;
    CallArrives(es, fs, s, id, v, ip);
    gs := CallPassesCheck(es, gs, s, id, v, ip);
    gs := CallFinishes(es, gs, s, id, v, ip);
  }

  lemma CallArrives(es: seq<Event>, fs: seq<Event>, s: State, id: nat, v: string, ip: string)
    requires Continues(es, fs, ip) && s == Run(es + fs) && Pending(s, ip) == {} && id !in s.calls
    ensures var gs := fs + [Arrive(id, v, ip)];
            Continues(es, gs, ip) && Run(es + gs) == s.(calls := s.calls[id := Call(v, ip, AskTrial)])
  {
    hide Continues, Run, Pending;
    var t := Apply(s, Arrive(id, v, ip));
    OnePending(s, t, id, Call(v, ip, AskTrial), ip);
    Grown(es, fs, Arrive(id, v, ip), ip);
  }

  /** The part up to the SET NX, one command. */
  lemma CallAdvances(es: seq<Event>, fs: seq<Event>, s: State, id: nat, call: Call, next: Call, ip: string)
    requires Continues(es, fs, ip) && Pending(s, ip) == {}
    requires Run(es + fs) == s.(calls := s.calls[id := call]) && !call.pc.SetTrial? && !call.pc.Increment?
    requires CallStep(s.store, call, s.now) == (s.store, next)
    ensures var gs := fs + [Advance(id)];
            Continues(es, gs, ip) && Run(es + gs) == s.(calls := s.calls[id := next])
  {
    hide Continues, Run, Pending, CallStep;
    var r := Run(es + fs);
    var t := Apply(r, Advance(id));
    assert r.calls[id := next] == s.calls[id := next];
    assert t == s.(calls := s.calls[id := next]);
    OnePending(s, t, id, next, ip);
    Grown(es, fs, Advance(id), ip);
  }

  lemma CallPassesCheck(es: seq<Event>, fs: seq<Event>, s: State, id: nat, v: string, ip: string)
    returns (gs: seq<Event>)
    requires Continues(es, fs, ip) && Pending(s, ip) == {} && v !in s.store.trials
    requires Run(es + fs) == s.(calls := s.calls[id := Call(v, ip, AskTrial)])
    requires CountOf(s.store, ip, s.now) < IP_MAX
    ensures Continues(es, gs, ip)
    ensures Run(es + gs) == s.(calls := s.calls[id := Call(v, ip, SetTrial(Trial(s.now, s.now + TRIAL_TTL, ip)))])
  {
    hide Continues, Run, Pending, CountOf;
    var c0, c1 := Call(v, ip, AskTrial), Call(v, ip, AskCount);
    var c2 := Call(v, ip, SetTrial(Trial(s.now, s.now + TRIAL_TTL, ip)));
    CallAdvances(es, fs, s, id, c0, c1, ip);
    CallAdvances(es, fs + [Advance(id)], s, id, c1, c2, ip);
    gs := fs + [Advance(id)] + [Advance(id)];
  }

  lemma CallFinishes(es: seq<Event>, fs: seq<Event>, s: State, id: nat, v: string, ip: string)
    returns (gs: seq<Event>)
    requires Continues(es, fs, ip) && Pending(s, ip) == {} && v !in s.store.trials
    requires Run(es + fs) == s.(calls := s.calls[id := Call(v, ip, SetTrial(Trial(s.now, s.now + TRIAL_TTL, ip)))])
    ensures Continues(es, gs, ip)
    ensures var t := Run(es + gs);
            && t.now == s.now && Pending(t, ip) == {} && Created(t, ip) == Created(s, ip) + [s.now]
            && CountOf(t.store, ip, t.now) == CountOf(s.store, ip, s.now) + 1
  {
    hide Continues, Run, Pending, CountOf, Noted;
    var mine := Trial(s.now, s.now + TRIAL_TTL, ip);
    var r := Run(es + fs);
    var stored := Call(v, ip, Increment(mine, true));
    var t := Apply(r, Advance(id));
    assert t.calls == s.calls[id := stored];
    OnePending(s, t, id, stored, ip);
    Grown(es, fs, Advance(id), ip);
    var u := Apply(t, Advance(id));
    var done := Call(v, ip, Done(Own(mine, true)));
    assert u.calls == s.calls[id := done];
    OnePending(s, u, id, done, ip);
    Grown(es, fs + [Advance(id)], Advance(id), ip);
    gs := fs + [Advance(id)] + [Advance(id)];
    SameCounters(t.store, s.store, ip, s.now);
    CountedOnce(s, u, ip);
    CreatedNoted(s, u, ip);
  }

  lemma CountedOnce(s: State, u: State, ip: string)
    requires u.now == s.now
    requires u.store.counters
             == s.store.counters[ip := Entry(CountOf(s.store, ip, s.now) + 1, s.now + IP_WINDOW)]
    ensures CountOf(u.store, ip, u.now) == CountOf(s.store, ip, s.now) + 1
  {
  }

  lemma CreatedNoted(s: State, u: State, ip: string)
    requires u.past.created == Noted(s.past.created, ip, s.now)
    ensures Created(u, ip) == Created(s, ip) + [s.now]
  {
  }

  /** m more calls in one instant lengthen a streak that is still open by m. */
  lemma {:induction false} ManyMoreCalls(es: seq<Event>, fs: seq<Event>, ip: string, m: nat) returns (gs: seq<Event>)
    requires Continues(es, fs, ip) && Pending(Run(es + fs), ip) == {}
    requires CountOf(Run(es + fs).store, ip, Run(es + fs).now) + m <= IP_MAX
    requires var s, c := Run(es + fs), Created(Run(es + fs), ip); c != [] && s.now - c[|c| - 1] < IP_WINDOW
    ensures Continues(es, gs, ip)
    ensures Streak(Created(Run(es + gs), ip)) == Streak(Created(Run(es + fs), ip)) + m
    decreases m
  {
    hide Continues, Run, Pending, CountOf, Created, Streak;
    if m == 0 {
      gs := fs;
    } else {
      var s := Run(es + fs);
      var next := OneMoreCall(es, fs, ip);
      StreakAppend(Created(s, ip), s.now);
      gs := ManyMoreCalls(es, next, ip, m - 1);
    }
  }

  lemma {:induction false} CreatedInThePast(es: seq<Event>, ip: string)
    ensures var c := Created(Run(es), ip); c != [] ==> c[|c| - 1] <= Run(es).now
  {
    if es != [] {
      var k := |es| - 1;
      CreatedInThePast(es[..k], ip);
      CreatedGrows(Run(es[..k]), es[k], ip);
      NeverBack(Run(es[..k]), es[k]);
      assert Run(es) == Apply(Run(es[..k]), es[k]);
      hide Apply, Created, Creates;
    }
  }

  lemma NobodyWaits(es: seq<Event>, ip: string)
    requires Pending(Run(es), ip) == {}
    ensures Waiting(Run(es), ip) == {}
  {
    WaitingIsSound(es);
    WaitingIsPending(Run(es), ip, 0.0);
    hide WaitingSound, Pending, Run;
  }

  /** How long until the counter holds less than the open streak. */
  lemma LagShows(s: State, ip: string) returns (d: real)
    requires Waiting(s, ip) == {} && !CreationsCovered(s, ip)
    requires var c := Created(s, ip); c != [] ==> c[|c| - 1] <= s.now
    ensures var c := Created(s, ip);
            && d >= 0.0 && c != [] && s.now + d < c[|c| - 1] + IP_WINDOW
            && CountOf(s.store, ip, s.now + d) < Streak(c)
  {
    var c := Created(s, ip);
    StreakPositive(c);
    hide Created, Streak;
    if CountOf(s.store, ip, s.now) < Streak(c) {
      d := 0.0;
    } else {
      d := s.store.counters[ip].expiry - s.now;
    }
  }

  lemma StreakPositive(log: seq<real>)
    ensures log != [] ==> Streak(log) >= 1
  {
  }

  /** Where the counter has lost track, prompt calls coming one at a time break the rule. */
  lemma LagBreaksRule(es: seq<Event>, ip: string) returns (fs: seq<Event>)
    requires AtMostPending(es, ip, 1) && Pending(Run(es), ip) == {} && !CreationsCovered(Run(es), ip)
    ensures Continues(es, fs, ip) && Streak(Created(Run(es + fs), ip)) > IP_MAX
  {
    assert es + [] == es;
    assert Continues(es, [], ip);
    NobodyWaits(es, ip);
    CreatedInThePast(es, ip);
    var s := Run(es);
    var d := LagShows(s, ip);
    var t := Apply(s, Tick(d));
    assert t == s.(now := s.now + d) && Pending(t, ip) == {} && PromptStep(s, Tick(d), ip);
    hide Continues, Run, CountOf, Streak, Created, CreationsCovered, Waiting, Pending, Apply, PromptStep;
    assert |Pending(t, ip)| <= 1;
    Grown(es, [], Tick(d), ip);
    var first: seq<Event> := [] + [Tick(d)];
    assert Run(es + first) == t;
    CounterNotNegative(es + first, ip);
    SameCreated(s, t, ip);
    var count := CountOf(t.store, ip, t.now);
    if count <= IP_MAX {
      fs := ManyMoreCalls(es, first, ip, IP_MAX - count);
    } else {
      fs := first;
    }
  }

  lemma SameCreated(s: State, t: State, ip: string)
    requires t.past == s.past
    ensures Created(t, ip) == Created(s, ip)
  {
  }

  /** The exact condition for the rule of six. Take a run of calls for an IP that come one at a time, at a point where
      none is between check and INCR. However prompt calls go on coming one at a time, no six creations in a row will be
      less than a window apart if and only if no six are now, and the counter has kept up with the open streak: it holds
      at least that many, and lives as long as the streak can grow. A hold-up or a crash before does harm just when it
      has broken that. */
  lemma NeighbourRuleIff(es: seq<Event>, ip: string)
    requires AtMostPending(es, ip, 1) && Pending(Run(es), ip) == {}
    ensures NeighbourRuleSafe(es, ip)
            <==> Streak(Created(Run(es), ip)) <= IP_MAX && CreationsCovered(Run(es), ip)
  {
    assert es + [] == es;
    assert Continues(es, [], ip);
    hide Continues, Run, CreationsCovered, Streak, Created, Pending;
    if Streak(Created(Run(es), ip)) <= IP_MAX && CreationsCovered(Run(es), ip) {
      forall fs | Continues(es, fs, ip) ensures Streak(Created(Run(es + fs), ip)) <= IP_MAX {
        ContinuationBounded(es, fs, ip);
      }
    } else if Streak(Created(Run(es), ip)) <= IP_MAX {
      var fs := LagBreaksRule(es, ip);
    } else {
      assert Streak(Created(Run(es + []), ip)) > IP_MAX;
    }
  }

  // ---------- The records behind the creations ----------

  /** The visitors whose stored record is one of `ip`, set between a and b. */
  function StoredIn(s: State, ip: string, a: real, b: real): set<string> {
    set v | v in s.store.trials && s.store.trials[v].value.ip == ip && a <= s.store.trials[v].expiry - TRIAL_TTL <= b
  }

  predicate OwnIps(s: State) {
    forall id | id in s.calls && s.calls[id].pc.SetTrial? :: s.calls[id].pc.mine.ip == s.calls[id].ip
  }

  lemma OwnIpsKept(s: State, e: Event)
    requires OwnIps(s)
    ensures OwnIps(Apply(s, e))
  {
    hide Remember, CountOf;
  }

  lemma CreationStored(s: State, id: nat)
    requires OwnIps(s) && Creates(s, id)
    ensures var t := Apply(s, Advance(id)).store.trials;
            && (exists mine: Trial :: mine.ip == s.calls[id].ip
                                      && t == s.store.trials[s.calls[id].visitor := Entry(mine, s.now + TRIAL_TTL)])
  {
    hide Remember, CountOf;
    var t := Apply(s, Advance(id)).store.trials;
    assert t == s.store.trials[s.calls[id].visitor := Entry(s.calls[id].pc.mine, s.now + TRIAL_TTL)];
  }

  lemma NothingStored(s: State, e: Event)
    requires e.Advance? ==> !Creates(s, e.id)
    ensures Apply(s, e).store.trials == s.store.trials && Apply(s, e).past.created == s.past.created
  {
    hide Noted, CountOf;
  }

  lemma StoredStep(s: State, e: Event, ip: string, a: real, b: real)
    requires OwnIps(s)
    ensures |StoredIn(Apply(s, e), ip, a, b)| - |StoredIn(s, ip, a, b)|
            <= CountIn(Created(Apply(s, e), ip), a, b) - CountIn(Created(s, ip), a, b)
  {
    var t := Apply(s, e);
    var before, after := StoredIn(s, ip, a, b), StoredIn(t, ip, a, b);
    if e.Advance? && Creates(s, e.id) {
      CreationUnfolds(s, e.id);
      CreationStored(s, e.id);
      CountNoted(s.past.created, s.calls[e.id].ip, s.now, ip, a, b);
      var v := s.calls[e.id].visitor;
      hide CountIn, Noted, LogOf, Apply, Creates;
      assert after - {v} == before - {v};
      assert after <= before + {v} && (v in after ==> s.calls[e.id].ip == ip && a <= s.now <= b);
      SizeBounds(after, before, v);
    } else {
      NothingStored(s, e);
      hide Apply, Creates, CountIn;
      assert after == before;
    }
  }

  lemma SizeBounds(after: set<string>, before: set<string>, v: string)
    requires after - {v} == before - {v}
    ensures |after| <= |before| + if v in after then 1 else 0
  {
    assert after == if v in after then (before - {v}) + {v} else before - {v};
  }

  /** Every stored record is one of the creations. */
  lemma {:induction false} RecordsAreCreations(es: seq<Event>, ip: string, a: real, b: real)
    ensures OwnIps(Run(es))
    ensures |StoredIn(Run(es), ip, a, b)| <= CountIn(Created(Run(es), ip), a, b)
  {
    if es == [] {
      assert StoredIn(INIT, ip, a, b) == {};
    } else {
      RecordsAreCreations(es[..|es| - 1], ip, a, b);
      OwnIpsKept(Run(es[..|es| - 1]), es[|es| - 1]);
      StoredStep(Run(es[..|es| - 1]), es[|es| - 1], ip, a, b);
      hide Apply, StoredIn, CountIn, OwnIps, Created;
    }
  }

  /** So the store never holds more records of one IP from less than a window than that. */
  lemma RecordsWithinLimit(es: seq<Event>, ip: string, n: nat, a: real, b: real)
    requires AtMostPending(es, ip, n) && b - a < IP_WINDOW
    ensures |StoredIn(Run(es), ip, a, b)| <= IP_MAX - 1 + n + CountIn(Lost(Run(es), ip), a, b)
  {
    hide *;
    RecordsAreCreations(es, ip, a, b);
    WindowHoldsFew(es, ip, n, a, b);
  }

  // ---------- Where the limit does not hold ----------

  /** A run of calls for "a" of which never two are there at once. */
  predicate OneAtATime(es: seq<Event>) { AtMostPending(es, "a", 1) && Run(es).calls.Keys <= {0} }

  lemma Extended(es: seq<Event>, e: Event)
    requires OneAtATime(es) && Apply(Run(es), e).calls.Keys <= {0}
    ensures OneAtATime(es + [e]) && Run(es + [e]) == Apply(Run(es), e)
  {
    RunAppend(es, e);
    var all := es + [e];
    SubsetSize(Pending(Run(all), "a"), {0});
    forall k | 0 <= k <= |all| ensures |Pending(Run(all[..k]), "a")| <= 1 {
      assert k <= |es| ==> all[..k] == es[..k];
      assert k == |all| ==> all[..k] == all;
    }
    hide Apply, Pending;
  }

  function Opening(v: string): seq<Event> { [Arrive(0, v, "a"), Advance(0), Advance(0), Advance(0)] }

  /** A call for a new visitor goes as far as its SET NX. */
  lemma OpeningRun(es: seq<Event>, v: string)
    requires OneAtATime(es) && Run(es).calls == map[] && v !in Run(es).store.trials
    requires CountOf(Run(es).store, "a", Run(es).now) < IP_MAX
    ensures OneAtATime(es + Opening(v))
    ensures var s, t := Run(es), Run(es + Opening(v));
            var mine := Trial(s.now, s.now + TRIAL_TTL, "a");
            && t.now == s.now && t.calls == map[0 := Call(v, "a", Increment(mine, true))]
            && t.store == s.store.(trials := s.store.trials[v := Entry(mine, s.now + TRIAL_TTL)])
            && t.past == s.past.(created := Noted(s.past.created, "a", s.now), waiting := s.past.waiting[0 := s.now])
  {
    var s := Run(es);
    var mine := Trial(s.now, s.now + TRIAL_TTL, "a");
    var c0, c1, c2 := Call(v, "a", AskTrial), Call(v, "a", AskCount), Call(v, "a", SetTrial(mine));
    hide OneAtATime, Run, Noted, CountOf;
    var e1 := es + [Arrive(0, v, "a")];
    Extended(es, Arrive(0, v, "a"));
    assert Run(e1) == s.(calls := map[0 := c0]);
    Extended(e1, Advance(0));
    assert Run(e1 + [Advance(0)]) == s.(calls := map[0 := c1]);
    Extended(e1 + [Advance(0)], Advance(0));
    var e3 := e1 + [Advance(0)] + [Advance(0)];
    assert Run(e3) == s.(calls := map[0 := c2]);
    Extended(e3, Advance(0));
    assert e3 + [Advance(0)] == es + Opening(v);
    assert Run(e3 + [Advance(0)]).calls == map[0 := Call(v, "a", Increment(mine, true))];
  }

  function Name(k: nat): string { seq(k, _ => 'v') }

  /** A crash between SET and INCR leaves a live record that nobody counted. Any number of them fit into one instant,
      with never more than one call at once and the counter never touched. */
  lemma {:induction false} UncountedCreations(k: nat) returns (es: seq<Event>)
    ensures OneAtATime(es)
    ensures var s := Run(es);
            && s.now == 0.0 && s.calls == map[] && s.store.counters == map[] && s.past.increments == map[]
            && |s.store.trials| == k
            && (forall v | v in s.store.trials ::
                  |v| < k && s.store.trials[v] == Entry(Trial(0.0, TRIAL_TTL, "a"), TRIAL_TTL))
            && CountIn(Created(s, "a"), 0.0, 0.0) == k && CountIn(Lost(s, "a"), 0.0, 0.0) == k
  {
    if k == 0 {
      es := [];
      EmptyRunQuiet();
    } else {
      var before := UncountedCreations(k - 1);
      var v := Name(k - 1);
      assert |v| == k - 1;
      OpeningRun(before, v);
      var s, t := Run(before), Run(before + Opening(v));
      es := before + Opening(v) + [Drop(0)];
      hide OneAtATime, Run, CountIn;
      Extended(before + Opening(v), Drop(0));
      CountNoted(s.past.created, "a", 0.0, "a", 0.0, 0.0);
      CountNoted(t.past.lost, "a", 0.0, "a", 0.0, 0.0);
      assert t.store.trials.Keys == s.store.trials.Keys + {v};
      assert |t.store.trials| == |t.store.trials.Keys| && |s.store.trials| == |s.store.trials.Keys|;
      assert Run(es).calls == map[];
    }
  }

  lemma EmptyRunQuiet()
    ensures OneAtATime([])
  {
    var none: seq<Event> := [];
    assert Pending(INIT, "a") == {};
    assert forall k | 0 <= k <= |none| :: none[..k] == none;
  }

  const HELD_UP := 77760.0

  /** What holds after call k of a sequence whose call j stores its record at j * HELD_UP and, held up, comes to its
      INCR at j * IP_WINDOW. */
  predicate HeldUpState(s: State, k: nat) {
    && s.now == k as real * IP_WINDOW && s.calls == map[] && s.past.waiting == map[] && s.past.lost == map[]
    && s.store.counters == map["a" := Entry(1, (k + 1) as real * IP_WINDOW)]
    && (forall v | v in s.store.trials :: |v| <= k)
    && |Created(s, "a")| == k + 1
    && (forall j | 0 <= j <= k :: Created(s, "a")[j] == j as real * HELD_UP)
  }

  /** A call that has stored its record waits for d and comes to its INCR when no counter is left. */
  lemma LateIncrement(es: seq<Event>, d: real) returns (fs: seq<Event>)
    requires OneAtATime(es) && d >= 0.0
    requires var s := Run(es);
             && s.calls.Keys == {0} && s.calls[0].ip == "a" && s.calls[0].pc.Increment?
             && CountOf(s.store, "a", s.now + d) == 0
    ensures OneAtATime(fs)
    ensures var s, t := Run(es), Run(fs);
            && t.now == s.now + d && t.calls == map[] && t.store.trials == s.store.trials
            && t.store.counters == s.store.counters["a" := Entry(1, s.now + d + IP_WINDOW)]
            && t.past == s.past.(increments := Noted(s.past.increments, "a", s.now + d),
                                 waiting := s.past.waiting - {0})
  {
    hide OneAtATime, Run, Noted, CountOf;
    Extended(es, Tick(d));
    Extended(es + [Tick(d)], Advance(0));
    var done := es + [Tick(d)] + [Advance(0)];
    Extended(done, Drop(0));
    fs := done + [Drop(0)];
    assert Run(done).past.waiting == Run(es).past.waiting - {0};
    assert Run(fs).calls.Keys == {};
  }

  lemma NotedFirst(ip: string, at: real)
    ensures Noted(map[], ip, at) == map[ip := [at]]
  {
    assert LogOf(map[], ip) + [at] == [at];
  }

  lemma FirstCall() returns (es: seq<Event>)
    ensures OneAtATime(es) && HeldUpState(Run(es), 0)
  {
    EmptyRunQuiet();
    OpeningRun([], Name(0));
    var opening: seq<Event> := [] + Opening(Name(0));
    hide OneAtATime, Run, Opening, Noted, CountOf, HeldUpState;
    NoCounter("a", 0.0, Run(opening).store);
    es := LateIncrement(opening, 0.0);
    FirstCallEnds(Run(es));
  }

  lemma FirstCallEnds(t: State)
    requires t.now == 0.0 && t.calls == map[] && t.past.lost == map[]
    requires t.store.trials == map[Name(0) := Entry(Trial(0.0, TRIAL_TTL, "a"), TRIAL_TTL)]
    requires t.store.counters == map["a" := Entry(1, IP_WINDOW)]
    requires t.past.created == Noted(map[], "a", 0.0) && t.past.waiting == map[0 := 0.0] - {0}
    ensures HeldUpState(t, 0)
  {
    NotedFirst("a", 0.0);
    assert t.past.waiting == map[];
    hide Noted;
  }

  lemma NoCounter(ip: string, now: real, store: Store)
    requires store.counters == map[]
    ensures CountOf(store, ip, now) == 0
  {
  }

  lemma LateOpening(es: seq<Event>, d: real, v: string) returns (fs: seq<Event>)
    requires OneAtATime(es) && Run(es).calls == map[] && v !in Run(es).store.trials && d >= 0.0
    requires CountOf(Run(es).store, "a", Run(es).now + d) < IP_MAX
    ensures OneAtATime(fs)
    ensures var s, t := Run(es), Run(fs);
            var at := s.now + d;
            var mine := Trial(at, at + TRIAL_TTL, "a");
            && t.now == at && t.calls == map[0 := Call(v, "a", Increment(mine, true))]
            && t.store == s.store.(trials := s.store.trials[v := Entry(mine, at + TRIAL_TTL)])
            && t.past == s.past.(created := Noted(s.past.created, "a", at), waiting := s.past.waiting[0 := at])
  {
    hide OneAtATime, Run, Noted, Opening, CountOf;
    Extended(es, Tick(d));
    OpeningRun(es + [Tick(d)], v);
    fs := es + [Tick(d)] + Opening(v);
  }

  lemma HeldUpCall(es: seq<Event>, k: nat) returns (fs: seq<Event>)
    requires OneAtATime(es) && HeldUpState(Run(es), k) && k < 9
    ensures OneAtATime(fs) && HeldUpState(Run(fs), k + 1)
  {
    var d := (k + 1) as real * HELD_UP - k as real * IP_WINDOW;
    var v := Name(k + 1);
    assert d <= IP_WINDOW && d >= 0.0;
    var s := Run(es);
    HeldUpCounter(s, k, d, v);
    hide OneAtATime, Run, Noted, Name, Created, CountOf, HeldUpState;
    var opening := LateOpening(es, d, v);
    SameCounters(Run(opening).store, s.store, "a", s.now + IP_WINDOW);
    assert Run(opening).calls.Keys == {0};
    fs := LateIncrement(opening, IP_WINDOW - d);
    HeldUpCallEnds(s, Run(fs), k, v, d);
  }

  lemma SameCounters(store: Store, other: Store, ip: string, now: real)
    requires store.counters == other.counters
    ensures CountOf(store, ip, now) == CountOf(other, ip, now)
  {
  }

  lemma HeldUpCounter(s: State, k: nat, d: real, v: string)
    requires HeldUpState(s, k) && d >= 0.0 && v == Name(k + 1)
    ensures s.calls == map[] && v !in s.store.trials && |v| == k + 1 && s.now == k as real * IP_WINDOW
    ensures CountOf(s.store, "a", s.now + d) < IP_MAX && CountOf(s.store, "a", s.now + IP_WINDOW) == 0
  {
    assert |v| == k + 1;
  }

  lemma HeldUpCallEnds(s: State, t: State, k: nat, v: string, d: real)
    requires HeldUpState(s, k) && k < 9 && |v| == k + 1 && s.now + d == (k + 1) as real * HELD_UP
    requires t.now == s.now + IP_WINDOW && t.calls == map[] && t.past.lost == s.past.lost
    requires t.store.trials
             == s.store.trials[v := Entry(Trial(s.now + d, s.now + d + TRIAL_TTL, "a"), s.now + d + TRIAL_TTL)]
    requires t.store.counters == s.store.counters["a" := Entry(1, s.now + IP_WINDOW + IP_WINDOW)]
    requires t.past.created == Noted(s.past.created, "a", s.now + d)
    requires t.past.waiting == s.past.waiting[0 := s.now + d] - {0}
    ensures HeldUpState(t, k + 1)
  {
    hide Noted, Created;
    CreatedAfter(s, t, k);
    assert t.past.waiting == map[];
  }

  lemma CreatedAfter(s: State, t: State, k: nat)
    requires |Created(s, "a")| == k + 1 && forall j | 0 <= j <= k :: Created(s, "a")[j] == j as real * HELD_UP
    requires t.past.created == Noted(s.past.created, "a", (k + 1) as real * HELD_UP)
    ensures |Created(t, "a")| == k + 2 && forall j | 0 <= j <= k + 1 :: Created(t, "a")[j] == j as real * HELD_UP
  {
  }

  /** A hold-up between SET and INCR breaks the rule of six without any crash: ten creations, never two calls at once,
      each less than a window after the one before. */
  lemma HoldUpsBreakNeighbours()
    ensures exists es :: var c := Created(Run(es), "a");
              && AtMostPending(es, "a", 1) && Run(es).past.lost == map[] && |c| == 10
              && forall j | 0 <= j < 9 :: c[j + 1] - c[j] < IP_WINDOW
  {
    var es := FirstCall();
    for k := 0 to 9
      invariant OneAtATime(es) && HeldUpState(Run(es), k)
    {
      es := HeldUpCall(es, k);
    }
  }

  // ---------- A trial is created once ----------

  lemma {:induction false} TimeAdvances(s: State, es: seq<Event>)
    ensures s.now <= RunFrom(s, es).now
  {
    if es != [] { TimeAdvances(s, es[..|es| - 1]); }
  }

  /** The call `id` gets its answer in this step. */
  predicate AnswersNow(s: State, e: Event, id: nat) {
    e == Advance(id) && id in s.calls && !s.calls[id].pc.Done? && Apply(s, e).calls[id].pc.Done?
  }

  lemma LiveTrialStep(s: State, e: Event, visitor: string)
    requires visitor in s.store.trials && Apply(s, e).now < s.store.trials[visitor].expiry
    ensures visitor in Apply(s, e).store.trials && Apply(s, e).store.trials[visitor] == s.store.trials[visitor]
    ensures forall id | AnswersNow(s, e, id) && s.calls[id].visitor == visitor ::
              var a := Apply(s, e).calls[id].pc.answer;
              a.FromStore? ==> a.trial == s.store.trials[visitor].value
  {
  }

  /** Whatever else happens, a live trial stays as it is until it expires, and every answer read from the store
      meanwhile carries that very record. */
  lemma {:induction false} LiveTrialKept(s: State, es: seq<Event>, visitor: string)
    requires visitor in s.store.trials && RunFrom(s, es).now < s.store.trials[visitor].expiry
    ensures visitor in RunFrom(s, es).store.trials
    ensures RunFrom(s, es).store.trials[visitor] == s.store.trials[visitor]
    ensures forall k, id | 0 <= k < |es| && AnswersNow(RunFrom(s, es[..k]), es[k], id)
                           && RunFrom(s, es[..k]).calls[id].visitor == visitor ::
              var a := Apply(RunFrom(s, es[..k]), es[k]).calls[id].pc.answer;
              a.FromStore? ==> a.trial == s.store.trials[visitor].value
  {
    if es != [] {
      var n := |es| - 1;
      var t := RunFrom(s, es[..n]);
      NeverBack(t, es[n]);
      LiveTrialKept(s, es[..n], visitor);
      LiveTrialStep(t, es[n], visitor);
      assert forall k | 0 <= k < n :: es[..n][..k] == es[..k] && es[..n][k] == es[k];
      assert es[..n] == es[..n][..n];
      hide Apply;
    }
  }

  /** A SET NX for the visitor takes in this step. */
  predicate Stores(s: State, e: Event, visitor: string) {
    e.Advance? && Creates(s, e.id) && s.calls[e.id].visitor == visitor
  }

  /** The visitor's key is there at the end of the run: the record it had has not expired, or a SET NX took meanwhile
      that has not. */
  predicate KeyAlive(s: State, es: seq<Event>, visitor: string) {
    var end := RunFrom(s, es).now;
    || (visitor in s.store.trials && end < s.store.trials[visitor].expiry)
    || exists k | 0 <= k < |es| :: Stores(RunFrom(s, es[..k]), es[k], visitor)
                                   && end < RunFrom(s, es[..k]).now + TRIAL_TTL
  }

  lemma StoreStep(s: State, e: Event, visitor: string)
    ensures var t := Apply(s, e);
            if Stores(s, e, visitor) then
              && visitor in t.store.trials && t.store.trials[visitor].expiry == s.now + TRIAL_TTL
              && (visitor in s.store.trials ==> s.store.trials[visitor].expiry <= s.now)
            else
              && (visitor in t.store.trials <==> visitor in s.store.trials)
              && (visitor in s.store.trials ==> t.store.trials[visitor] == s.store.trials[visitor])
  {
    hide Remember, CountOf;
  }

  /** The key only ever gets a later expiry. */
  lemma {:induction false} KeyOutlives(s: State, es: seq<Event>, visitor: string)
    ensures var t := RunFrom(s, es);
            && (visitor in s.store.trials ==>
                  visitor in t.store.trials && t.store.trials[visitor].expiry >= s.store.trials[visitor].expiry)
            && (forall k | 0 <= k < |es| && Stores(RunFrom(s, es[..k]), es[k], visitor) ::
                  visitor in t.store.trials
                  && t.store.trials[visitor].expiry >= RunFrom(s, es[..k]).now + TRIAL_TTL)
  {
    hide Apply, Stores;
    if es != [] {
      var n := |es| - 1;
      KeyOutlives(s, es[..n], visitor);
      StoreStep(RunFrom(s, es[..n]), es[n], visitor);
      var t := RunFrom(s, es);
      assert t == Apply(RunFrom(s, es[..n]), es[n]);
      hide RunFrom;
      forall k | 0 <= k < |es| && Stores(RunFrom(s, es[..k]), es[k], visitor)
        ensures visitor in t.store.trials && t.store.trials[visitor].expiry >= RunFrom(s, es[..k]).now + TRIAL_TTL
      {
        if k < n { assert es[..n][..k] == es[..k] && es[..n][k] == es[k]; }
      }
    }
  }

  /** The expiry it has comes from the beginning or from some SET NX on the way. */
  lemma {:induction false} KeyOrigin(s: State, es: seq<Event>, visitor: string)
    ensures var t := RunFrom(s, es);
            visitor in t.store.trials ==>
              || (visitor in s.store.trials && t.store.trials[visitor] == s.store.trials[visitor])
              || exists k | 0 <= k < |es| :: Stores(RunFrom(s, es[..k]), es[k], visitor)
                   && t.store.trials[visitor].expiry == RunFrom(s, es[..k]).now + TRIAL_TTL
  {
    hide Apply, Stores;
    if es != [] {
      var n := |es| - 1;
      KeyOrigin(s, es[..n], visitor);
      StoreStep(RunFrom(s, es[..n]), es[n], visitor);
      assert forall k | 0 <= k < n :: es[..n][..k] == es[..k] && es[..n][k] == es[k];
      assert es[..n][..n] == es[..n];
    }
  }

  /** A call that lost its SET NX answers with the stored record exactly when, by its second read, the key that won has
      not expired or another SET NX has taken that has not; in every other case it answers with its own record, which
      nobody stored. Whatever happens meanwhile. */
  lemma RereadAnswersIff(s: State, es: seq<Event>, id: nat)
    requires id in s.calls && s.calls[id].pc.Reread?
    requires id in RunFrom(s, es).calls && RunFrom(s, es).calls[id] == s.calls[id]
    ensures var (c, t) := (s.calls[id], RunFrom(s, es));
            var next := Apply(t, Advance(id)).calls[id].pc;
            if KeyAlive(s, es, c.visitor) then
              c.visitor in t.store.trials && next == Done(FromStore(t.store.trials[c.visitor].value))
            else next == Increment(c.pc.mine, false)
  {
    KeyOutlives(s, es, s.calls[id].visitor);
    KeyOrigin(s, es, s.calls[id].visitor);
    hide Stores, RunFrom, Remember, CountOf;
  }

  /** From every state in which a call is about to read back, once the clock has passed the key's expiry its answer is
      a record nobody stored, and the IP's counter goes up for it. */
  lemma FallThrough(s: State, id: nat, d: real)
    requires id in s.calls && s.calls[id].pc.Reread? && d >= 0.0
    requires s.calls[id].visitor in s.store.trials ==> s.now + d >= s.store.trials[s.calls[id].visitor].expiry
    ensures var (c, t) := (s.calls[id], RunFrom(s, [Tick(d), Advance(id), Advance(id)]));
            && id in t.calls && t.calls[id].pc == Done(Own(c.pc.mine, false))
            && Get(t.store.trials, c.visitor, t.now).None?
            && CountOf(t.store, c.ip, t.now) == CountOf(s.store, c.ip, t.now) + 1
  {
    var es := [Tick(d), Advance(id), Advance(id)];
    assert es[..2] == [Tick(d), Advance(id)] && es[..2][..1] == [Tick(d)] && [Tick(d)][..0] == [];
    var s1 := Apply(s, Tick(d));
    assert RunFrom(s, [Tick(d)]) == s1;
    var s2 := Apply(s1, Advance(id));
    assert RunFrom(s, es[..2]) == s2;
    assert s2.calls[id].pc == Increment(s.calls[id].pc.mine, false);
    assert RunFrom(s, es) == Apply(s2, Advance(id));
    hide Remember, RunFrom;
  }

  lemma NeverBack(s: State, e: Event)
    ensures s.now <= Apply(s, e).now
  {
  }

  lemma RunAppend(es: seq<Event>, e: Event)
    ensures Run(es + [e]) == Apply(Run(es), e)
  {
    assert (es + [e])[..|es|] == es;
  }

  /** Two calls for one new visitor, both past the check: call 0 wins the SET NX, call 1 is about to read back. */
  lemma RaceRun() returns (es: seq<Event>)
    ensures var mine := Trial(0.0, TRIAL_TTL, "a");
            Run(es) == State(0.0, Store(map["v" := Entry(mine, TRIAL_TTL)], map[]),
                             map[0 := Call("v", "a", Increment(mine, true)), 1 := Call("v", "a", Reread(mine))],
                             Past(map[], map["a" := [0.0]], map[0 := 0.0], map[]))
  {
    var mine := Trial(0.0, TRIAL_TTL, "a");
    var (first, second, third) := (Call("v", "a", AskTrial), Call("v", "a", AskCount), Call("v", "a", SetTrial(mine)));
    es := [];
    RunAppend(es, Arrive(0, "v", "a"));  es := es + [Arrive(0, "v", "a")];
    RunAppend(es, Arrive(1, "v", "a"));  es := es + [Arrive(1, "v", "a")];
    assert Run(es).calls == map[0 := first, 1 := first];
    RunAppend(es, Advance(0));  es := es + [Advance(0)];
    RunAppend(es, Advance(1));  es := es + [Advance(1)];
    assert Run(es).calls == map[0 := second, 1 := second];
    RunAppend(es, Advance(0));  es := es + [Advance(0)];
    RunAppend(es, Advance(1));  es := es + [Advance(1)];
    assert Run(es).calls == map[0 := third, 1 := third];
    RunAppend(es, Advance(0));  es := es + [Advance(0)];
    RunAppend(es, Advance(1));  es := es + [Advance(1)];
    assert Run(es).calls == map[0 := Call("v", "a", Increment(mine, true)), 1 := Call("v", "a", Reread(mine))];
    assert Run(es).past.created == map["a" := [0.0]] by {
      assert LogOf(map[], "a") + [0.0] == [0.0];
    }
  }

  /** The gap in the SET NX protocol: when the record that won the race expires before it is read back, the loser
      answers with a record that nobody stored, and still counts it. */
  lemma FallThroughAnswersUnstoredRecord()
    ensures exists es :: var s := Run(es);
              && 1 in s.calls && s.calls[1].pc.Done? && s.calls[1].pc.answer.Own? && !s.calls[1].pc.answer.stored
              && Get(s.store.trials, s.calls[1].visitor, s.now).None?
              && CountOf(s.store, s.calls[1].ip, s.now) == 1
  {
    var es := RaceRun();
    RunAppend(es, Tick(TRIAL_TTL));
    RunAppend(es + [Tick(TRIAL_TTL)], Advance(1));
    RunAppend(es + [Tick(TRIAL_TTL)] + [Advance(1)], Advance(1));
    var s := Run(es + [Tick(TRIAL_TTL)] + [Advance(1)] + [Advance(1)]);
    assert s.calls[1].pc == Done(Own(Trial(0.0, TRIAL_TTL, "a"), false));
  }

  // ---------- Reading a trial ----------

  datatype Status = Status(createdAt: real, expiresAt: real, remainingSeconds: nat, expired: bool)

  /** Whole seconds left, never negative. */
  function Remaining(expiresAt: real, now: real): nat {
    if expiresAt - now <= 0.0 then 0 else (expiresAt - now).Floor
  }

  function GetTrial(store: Store, visitor: string, now: real): Option<Status> {
    var t := Get(store.trials, visitor, now);
    if t.None? then None
    else
      var left := Remaining(t.value.expiresAt, now);
      Some(Status(t.value.createdAt, t.value.expiresAt, left, left == 0))
  }

  function IsTrialActive(store: Store, visitor: string, now: real): bool {
    var t := GetTrial(store, visitor, now);
    t.Some? && !t.value.expired
  }

  /** A trial is reported exactly while its key lives, with the stored times and the whole seconds left on its record,
      rounded down; it counts as expired when none is left. */
  lemma ReportedTrial(store: Store, visitor: string, now: real)
    ensures GetTrial(store, visitor, now).Some?
            <==> visitor in store.trials && now < store.trials[visitor].expiry
    ensures GetTrial(store, visitor, now).Some? ==>
              var r, t := GetTrial(store, visitor, now).value, store.trials[visitor].value;
              && r.createdAt == t.createdAt && r.expiresAt == t.expiresAt
              && (r.expired <==> t.expiresAt < now + 1.0)
              && (if t.expiresAt <= now then r.remainingSeconds == 0
                  else r.remainingSeconds as real <= t.expiresAt - now < r.remainingSeconds as real + 1.0)
  {
    if visitor in store.trials {
      var left := store.trials[visitor].value.expiresAt - now;
      assert left > 0.0 ==> left.Floor >= 0 && left.Floor as real <= left < left.Floor as real + 1.0;
    }
  }

  predicate RecordsExpireBeforeKeys(s: State) {
    && (forall v | v in s.store.trials :: s.store.trials[v].value.expiresAt <= s.store.trials[v].expiry)
    && (forall id | id in s.calls && s.calls[id].pc.SetTrial? :: s.calls[id].pc.mine.expiresAt <= s.now + TRIAL_TTL)
  }

  lemma {:induction false} RecordExpiresBeforeKey(es: seq<Event>)
    ensures RecordsExpireBeforeKeys(Run(es))
  {
    if es != [] {
      var s, e := Run(es[..|es| - 1]), es[|es| - 1];
      RecordExpiresBeforeKey(es[..|es| - 1]);
      assert RecordsExpireBeforeKeys(Apply(s, e));
    }
  }

  /** In every reachable state a visitor is active exactly when a record is stored with a whole second or more
      left on it, however long its key still lives. */
  lemma ActiveIffASecondLeft(es: seq<Event>, visitor: string)
    ensures var s := Run(es);
            IsTrialActive(s.store, visitor, s.now) <==>
            visitor in s.store.trials && s.now + 1.0 <= s.store.trials[visitor].value.expiresAt
  {
    RecordExpiresBeforeKey(es);
  }
}
