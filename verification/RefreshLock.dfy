/** The signal-refresh lock and the consecutive-failure counter, under any interleaving of workers and crashes. */
module RefreshLock {
  import opened Common

  const LOCK_TTL := 600.0
  const ALERT_THRESHOLD := 3

  /** The key carries no owner; `owner` and `since` only say which SET NX put it there. */
  datatype Lock = Lock(owner: nat, since: real)

  function Expiry(l: Lock): real { l.since + LOCK_TTL }

  predicate Free(lock: Option<Lock>, now: real) { lock.None? || Expiry(lock.value) <= now }

  /** A worker that took the lock at `since`: it runs the pipeline, then releases. */
  datatype Worker = Working(since: real) | Releasing(since: real)

  datatype Execution = Execution(since: real, ok: bool)

  /** `history` lists the executions that reached the counter; `alerts` the lengths it had when an alert was raised. */
  datatype State = State(now: real, lock: Option<Lock>, counter: Option<int>, workers: map<nat, Worker>,
                         history: seq<Execution>, alerts: seq<nat>)

  const INIT := State(0.0, None, None, map[], [], [])

  datatype Event =
    | Tick(d: real)
    | Acquire(w: nat)                                 // SET NX EX, then either enter the pipeline or skip
    | Finish(w: nat, ok: bool, counterWorks: bool)    // the pipeline ends, and SET 0 or INCR follows
    | Release(w: nat, works: bool)                    // unconditional DELETE
    | Crash(w: nat)

  function Count(counter: Option<int>): int { if counter.Some? then counter.value else 0 }

  /** An event that is not possible changes nothing. */
  function Apply(s: State, e: Event): State {
    match e
    case Tick(d) => if d >= 0.0 then s.(now := s.now + d) else s
    case Acquire(w) =>
      if w in s.workers || !Free(s.lock, s.now) then s
      else s.(lock := Some(Lock(w, s.now)), workers := s.workers[w := Working(s.now)])
    case Finish(w, ok, counterWorks) =>
      if w !in s.workers || !s.workers[w].Working? then s
      else
        var since := s.workers[w].since;
        var counter := if !counterWorks then s.counter else if ok then Some(0) else Some(Count(s.counter) + 1);
        s.(counter := counter,
           workers := s.workers[w := Releasing(since)],
           history := s.history + [Execution(since, ok)],
           alerts := if !ok && counterWorks && Count(counter) >= ALERT_THRESHOLD then s.alerts + [|s.history| + 1]
                     else s.alerts)
    case Release(w, works) =>
      if w !in s.workers || !s.workers[w].Releasing? then s
      else s.(lock := if works then None else s.lock, workers := s.workers - {w})
    case Crash(w) => s.(workers := s.workers - {w})
  }

  function RunFrom(s: State, es: seq<Event>): State {
    if es == [] then s else Apply(RunFrom(s, es[..|es| - 1]), es[|es| - 1])
  }

  function Run(es: seq<Event>): State { RunFrom(INIT, es) }

  // ---------- Mutual exclusion ----------

  /** The worker's lock has not run out yet. */
  predicate WithinTtl(s: State, w: nat)
    requires w in s.workers
  {
    s.now < s.workers[w].since + LOCK_TTL
  }

  /** The event, if it is a release, comes within LOCK_TTL of the worker's acquisition. */
  predicate TimelyRelease(s: State, e: Event) {
    e.Release? && e.w in s.workers && s.workers[e.w].Releasing? ==> WithinTtl(s, e.w)
  }

  predicate Timely(es: seq<Event>) {
    forall k | 0 <= k < |es| :: TimelyRelease(Run(es[..k]), es[k])
  }

  /** The lock of every worker that has not outstayed it is in place. */
  predicate LocksHeld(s: State) {
    forall w | w in s.workers && WithinTtl(s, w) :: s.lock == Some(Lock(w, s.workers[w].since))
  }

  /** The DELETE of this event takes the lock away from another worker that is still within its TTL. */
  predicate Robs(s: State, e: Event) {
    && e.Release? && e.works && e.w in s.workers && s.workers[e.w].Releasing?
    && exists w | w in s.workers && w != e.w :: WithinTtl(s, w)
  }

  predicate NoRobbery(es: seq<Event>) {
    forall k | 0 <= k < |es| :: !Robs(Run(es[..k]), es[k])
  }

  /** At most one worker in the pipeline is within its TTL. */
  predicate Exclusive(s: State) {
    forall v, w | v in s.workers && w in s.workers && v != w :: !WithinTtl(s, v) || !WithinTtl(s, w)
  }

  lemma HonestStepKeepsLocks(s: State, e: Event)
    requires LocksHeld(s) && !Robs(s, e)
    ensures LocksHeld(Apply(s, e))
  {
  }

  lemma PrefixNoRobbery(es: seq<Event>, k: nat)
    requires NoRobbery(es) && k <= |es|
    ensures NoRobbery(es[..k])
  {
    forall j | 0 <= j < k ensures !Robs(Run(es[..k][..j]), es[..k][j]) {
      assert es[..k][..j] == es[..j] && es[..k][j] == es[j];
    }
  }

  /** As long as no release robs another worker, the lock of every worker within its TTL is in place. */
  lemma {:induction false} LocksStayInPlace(es: seq<Event>)
    requires NoRobbery(es)
    ensures LocksHeld(Run(es))
  {
    if es != [] {
      var n := |es| - 1;
      PrefixNoRobbery(es, n);
      LocksStayInPlace(es[..n]);
      assert !Robs(Run(es[..n]), es[n]);
      hide Apply, LocksHeld, Robs, NoRobbery;
      HonestStepKeepsLocks(Run(es[..n]), es[n]);
    }
  }

  lemma LocksExclude(s: State)
    requires LocksHeld(s)
    ensures Exclusive(s)
  {
  }

  lemma {:induction false} TimelyMeansHonest(es: seq<Event>)
    requires Timely(es)
    ensures NoRobbery(es)
  {
    if es != [] {
      var n := |es| - 1;
      assert forall k | 0 <= k < n :: es[..n][..k] == es[..k] && es[..n][k] == es[k];
      TimelyMeansHonest(es[..n]);
      LocksStayInPlace(es[..n]);
      LocksExclude(Run(es[..n]));
      assert TimelyRelease(Run(es[..n]), es[n]);
      assert !Robs(Run(es[..n]), es[n]);
      forall k | 0 <= k < |es| ensures !Robs(Run(es[..k]), es[k]) {
        if k < n { assert !Robs(Run(es[..n][..k]), es[..n][k]); }
      }
    }
  }

  lemma {:induction false} TimelyKeepsLocks(es: seq<Event>)
    requires Timely(es)
    ensures LocksHeld(Run(es))
  {
    TimelyMeansHonest(es);
    LocksStayInPlace(es);
  }

  /** If every release is timely, of two workers in the pipeline at least one has outstayed its lock: at most one
      worker holds a lock that has not run out. */
  lemma MutualExclusion(es: seq<Event>, v: nat, w: nat)
    requires Timely(es)
    requires v in Run(es).workers && w in Run(es).workers && v != w
    ensures !WithinTtl(Run(es), v) || !WithinTtl(Run(es), w)
  {
    TimelyKeepsLocks(es);
  }

  /** A robbery breaks exclusion at once: whoever tries next enters beside the worker that was robbed. */
  lemma RobberyBreaksExclusion(es: seq<Event>, e: Event, u: nat)
    requires Robs(Run(es), e) && u !in Run(es).workers
    ensures !Exclusive(Run(es + [e] + [Acquire(u)]))
  {
    RunAppend(es, e);
    RunAppend(es + [e], Acquire(u));
    var s, t := Run(es), Run(es + [e] + [Acquire(u)]);
    var w :| w in s.workers && w != e.w && WithinTtl(s, w);
    assert w in t.workers && WithinTtl(t, w) && u in t.workers && WithinTtl(t, u) && u != w;
  }

  /** Exclusion holds at every point of the run, whichever worker tries next. */
  ghost predicate AlwaysExclusive(es: seq<Event>) {
    forall k: nat, u: nat | k <= |es| :: ExclusiveNext(es[..k], u)
  }

  predicate ExclusiveNext(es: seq<Event>, u: nat) { Exclusive(Run(es)) && Exclusive(Run(es + [Acquire(u)])) }

  lemma AppendAcquire(es: seq<Event>, u: nat)
    requires NoRobbery(es)
    ensures NoRobbery(es + [Acquire(u)])
  {
    var all := es + [Acquire(u)];
    forall k | 0 <= k < |all| ensures !Robs(Run(all[..k]), all[k]) {
      if k < |es| { assert all[..k] == es[..k] && all[k] == es[k]; }
    }
  }

  lemma NotRobbedAt(es: seq<Event>, k: nat)
    requires AlwaysExclusive(es) && k < |es|
    ensures !Robs(Run(es[..k]), es[k])
  {
    hide Robs, Exclusive, Run;
    assert es[..k + 1] == es[..k] + [es[k]];
    var u := FreshNat(Run(es[..k]).workers);
    assert ExclusiveNext(es[..k + 1], u);
    if Robs(Run(es[..k]), es[k]) {
      RobberyBreaksExclusion(es[..k], es[k], u);
    }
  }

  lemma ExclusiveWithout(es: seq<Event>, u: nat)
    requires NoRobbery(es)
    ensures ExclusiveNext(es, u)
  {
    hide NoRobbery, Exclusive, LocksHeld, Run;
    LocksStayInPlace(es);
    LocksExclude(Run(es));
    AppendAcquire(es, u);
    LocksStayInPlace(es + [Acquire(u)]);
    LocksExclude(Run(es + [Acquire(u)]));
  }

  /** The exact condition for mutual exclusion without an owner token: at every point, and whichever worker tries next,
      at most one worker is within its TTL, if and only if no DELETE robs a worker that is. */
  lemma ExclusionIffNoRobbery(es: seq<Event>)
    ensures AlwaysExclusive(es) <==> NoRobbery(es)
  {
    hide Robs, ExclusiveNext, Run;
    if NoRobbery(es) {
      forall k: nat, u: nat | k <= |es| ensures ExclusiveNext(es[..k], u) {
        PrefixNoRobbery(es, k);
        ExclusiveWithout(es[..k], u);
      }
    }
    if AlwaysExclusive(es) {
      forall k | 0 <= k < |es| ensures !Robs(Run(es[..k]), es[k]) { NotRobbedAt(es, k); }
    }
  }

  predicate NoOverstay(es: seq<Event>) {
    forall k, w | 0 <= k <= |es| && w in Run(es[..k]).workers :: WithinTtl(Run(es[..k]), w)
  }

  lemma {:induction false} NoOverstayIsTimely(es: seq<Event>)
    requires NoOverstay(es)
    ensures Timely(es)
  {
  }

  /** If no worker ever outstays its lock, at most one is in the pipeline at any time. */
  lemma AtMostOneWorker(es: seq<Event>)
    requires NoOverstay(es)
    ensures |Run(es).workers| <= 1
  {
    NoOverstayIsTimely(es);
    var s := Run(es);
    assert es[..|es|] == es;
    if v :| v in s.workers {
      forall w | w in s.workers ensures w == v {
        assert WithinTtl(s, v) && WithinTtl(s, w);
        if w != v { MutualExclusion(es, v, w); }
      }
      assert s.workers.Keys == {v};
      assert |s.workers| == |s.workers.Keys|;
    }
  }

  /** Under the same assumption a DELETE removes the worker's own lock and no other. */
  lemma DeleteRemovesOwnLock(es: seq<Event>, w: nat, works: bool)
    requires Timely(es + [Release(w, works)])
    requires w in Run(es).workers && Run(es).workers[w].Releasing?
    ensures Run(es).lock == Some(Lock(w, Run(es).workers[w].since))
  {
    var all := es + [Release(w, works)];
    assert forall k | 0 <= k < |es| :: all[..k] == es[..k] && all[k] == es[k];
    assert all[..|es|] == es;
    assert TimelyRelease(Run(all[..|es|]), all[|es|]);
    TimelyKeepsLocks(es);
  }

  lemma RunAppend(es: seq<Event>, e: Event)
    ensures Run(es + [e]) == Apply(Run(es), e)
  {
    assert (es + [e])[..|es|] == es;
  }

  /** Without it the key's missing owner shows: one late release lets two workers in, both within their TTL. */
  lemma LateReleaseBreaksExclusion()
    ensures exists es :: var s := Run(es);
              1 in s.workers && 2 in s.workers && WithinTtl(s, 1) && WithinTtl(s, 2)
              && s.workers[1].Working? && s.workers[2].Working?
  {
    var es: seq<Event> := [];
    RunAppend(es, Acquire(0));              es := es + [Acquire(0)];
    RunAppend(es, Tick(LOCK_TTL));          es := es + [Tick(LOCK_TTL)];
    RunAppend(es, Acquire(1));              es := es + [Acquire(1)];
    assert Run(es).workers == map[0 := Working(0.0), 1 := Working(LOCK_TTL)];
    RunAppend(es, Finish(0, true, true));   es := es + [Finish(0, true, true)];
    RunAppend(es, Release(0, true));        es := es + [Release(0, true)];
    assert Run(es).workers == map[1 := Working(LOCK_TTL)] && Run(es).lock == None;
    RunAppend(es, Acquire(2));              es := es + [Acquire(2)];
    assert Run(es).workers == map[1 := Working(LOCK_TTL), 2 := Working(LOCK_TTL)];
  }

  /** The event is an acquisition that succeeds. */
  predicate Takes(s: State, e: Event) { e.Acquire? && e.w !in s.workers && Free(s.lock, s.now) }

  lemma {:induction false} LockNotOlder(es: seq<Event>)
    ensures Run(es).lock.Some? ==> Run(es).lock.value.since <= Run(es).now
  {
    if es != [] { LockNotOlder(es[..|es| - 1]); }
  }

  /** The event is a DELETE that works. */
  predicate Deletes(s: State, e: Event) {
    e.Release? && e.works && e.w in s.workers && s.workers[e.w].Releasing?
  }

  lemma StepKeepsLock(s: State, e: Event)
    requires s.lock.Some? && !Deletes(s, e) && Apply(s, e).now < Expiry(s.lock.value)
    ensures Apply(s, e).lock == s.lock && s.now <= Apply(s, e).now
  {
  }

  /** A lock is not freed by the crash of its worker, nor by anything else than a DELETE: until LOCK_TTL is over it
      stays, and every attempt in between is skipped. */
  lemma {:induction false} OnlyDeleteFrees(s: State, fs: seq<Event>)
    requires s.lock.Some? && RunFrom(s, fs).now < s.lock.value.since + LOCK_TTL
    requires forall k | 0 <= k < |fs| :: !Deletes(RunFrom(s, fs[..k]), fs[k])
    ensures RunFrom(s, fs).lock == s.lock
    ensures forall k | 0 <= k < |fs| :: !Takes(RunFrom(s, fs[..k]), fs[k])
  {
    if fs != [] {
      var n := |fs| - 1;
      var t := RunFrom(s, fs[..n]);
      assert fs[..n] == fs[..n][..n] && !Deletes(t, fs[n]);
      assert t.now <= RunFrom(s, fs).now;
      forall k | 0 <= k < n ensures !Deletes(RunFrom(s, fs[..n][..k]), fs[..n][k]) {
        assert fs[..n][..k] == fs[..k] && !Deletes(RunFrom(s, fs[..k]), fs[k]);
      }
      OnlyDeleteFrees(s, fs[..n]);
      forall k | 0 <= k < |fs| ensures !Takes(RunFrom(s, fs[..k]), fs[k]) {
        if k < n { assert fs[..n][..k] == fs[..k] && fs[..n][k] == fs[k]; }
      }
      hide Deletes;
      StepKeepsLock(t, fs[n]);
    }
  }

  /** Whatever crashes, a lock is gone LOCK_TTL later unless some worker has taken it anew in between. */
  lemma LockFreedWithinTtl(es: seq<Event>, fs: seq<Event>)
    requires !Free(RunFrom(Run(es), fs).lock, RunFrom(Run(es), fs).now)
    requires RunFrom(Run(es), fs).now >= Run(es).now + LOCK_TTL
    ensures exists k | 0 <= k < |fs| ::
              Takes(RunFrom(Run(es), fs[..k]), fs[k]) && fs[k].w == RunFrom(Run(es), fs).lock.value.owner
  {
    LockNotOlder(es);
    TakenSince(Run(es), fs);
  }

  lemma {:induction false} TakenSince(s: State, fs: seq<Event>)
    ensures RunFrom(s, fs).lock == s.lock || RunFrom(s, fs).lock.None?
            || exists k | 0 <= k < |fs| ::
                 Takes(RunFrom(s, fs[..k]), fs[k]) && fs[k].w == RunFrom(s, fs).lock.value.owner
  {
    if fs != [] {
      var n := |fs| - 1;
      TakenSince(s, fs[..n]);
      var t := RunFrom(s, fs[..n]);
      assert fs[..n] == fs[..n][..n];
      if Takes(t, fs[n]) {
        assert fs[n].w == RunFrom(s, fs).lock.value.owner;
      } else if RunFrom(s, fs).lock.Some? && t.lock != s.lock {
        assert t.lock == RunFrom(s, fs).lock;
        var k :| 0 <= k < n && Takes(RunFrom(s, fs[..n][..k]), fs[..n][k]) && fs[..n][k].w == t.lock.value.owner;
        assert fs[..n][..k] == fs[..k];
        assert Takes(RunFrom(s, fs[..k]), fs[k]);
      }
    }
  }

  // ---------- The failure counter ----------

  predicate CounterWorks(es: seq<Event>) {
    forall k | 0 <= k < |es| && es[k].Finish? :: es[k].counterWorks
  }

  /** The length of the trailing run of failures. */
  function TrailingFailures(history: seq<Execution>): nat {
    if history == [] || history[|history| - 1].ok then 0 else TrailingFailures(history[..|history| - 1]) + 1
  }

  /** An alert is due after the k-th execution: it failed and is at least the third failure in a row. */
  predicate AlertDue(history: seq<Execution>, k: nat) {
    1 <= k <= |history| && TrailingFailures(history[..k]) >= ALERT_THRESHOLD
  }

  lemma OneMoreExecution(history: seq<Execution>, x: Execution, k: nat)
    ensures TrailingFailures(history + [x]) == if x.ok then 0 else TrailingFailures(history) + 1
    ensures AlertDue(history + [x], k)
            <==> AlertDue(history, k) || (k == |history| + 1 && TrailingFailures(history + [x]) >= ALERT_THRESHOLD)
  {
    var all := history + [x];
    assert all[..|history|] == history && all[..|all|] == all;
    assert k <= |history| ==> all[..k] == history[..k];
  }

  /** With working counter operations the counter is the number of executions that have failed since the last
      success, and alerts were raised exactly where they were due. */
  lemma {:induction false} CounterIsTrailingFailures(es: seq<Event>)
    requires CounterWorks(es)
    ensures Count(Run(es).counter) == TrailingFailures(Run(es).history)
    ensures forall k: nat :: k in Run(es).alerts <==> AlertDue(Run(es).history, k)
  {
    if es != [] {
      var n := |es| - 1;
      assert forall k | 0 <= k < n :: es[..n][k] == es[k];
      CounterIsTrailingFailures(es[..n]);
      var s, t := Run(es[..n]), Run(es);
      hide AlertDue, TrailingFailures, Run, RunFrom;
      if t.history != s.history {
        var x := t.history[|s.history|];
        assert t.history == s.history + [x];
        forall k: nat ensures k in t.alerts <==> AlertDue(t.history, k) { OneMoreExecution(s.history, x, k); }
        OneMoreExecution(s.history, x, 0);
      }
    }
  }

  predicate InAcquisitionOrder(history: seq<Execution>) {
    forall i, j | 0 <= i < j < |history| :: history[i].since <= history[j].since
  }

  predicate HistoryOrdered(s: State) {
    && InAcquisitionOrder(s.history)
    && (forall x | x in s.history :: x.since <= s.now)
    && (forall w | w in s.workers :: s.workers[w].since <= s.now)
    && (forall w, x | w in s.workers && x in s.history :: x.since <= s.workers[w].since)
  }

  lemma StepKeepsHistoryOrdered(s: State, e: Event)
    requires HistoryOrdered(s) && forall v, w | v in s.workers && w in s.workers :: v == w
    ensures HistoryOrdered(Apply(s, e))
  {
  }

  /** If no worker outstays its lock, the counted order is also the order in which the executions began. */
  lemma {:induction false} HistoryInAcquisitionOrder(es: seq<Event>)
    requires NoOverstay(es)
    ensures HistoryOrdered(Run(es))
  {
    if es != [] {
      var n := |es| - 1;
      assert forall k | 0 <= k <= n :: es[..n][..k] == es[..k];
      assert NoOverstay(es[..n]);
      HistoryInAcquisitionOrder(es[..n]);
      NoOverstayIsTimely(es[..n]);
      var s := Run(es[..n]);
      TimelyKeepsLocks(es[..n]);
      assert es[..n] == es[..n][..n];
      forall v, w | v in s.workers && w in s.workers ensures v == w {
        assert WithinTtl(s, v) && WithinTtl(s, w);
      }
      hide HistoryOrdered, Apply, NoOverstay, Timely, LocksHeld;
      StepKeepsHistoryOrdered(s, es[n]);
    }
  }

  // ---------- The task itself ----------

  function Solo(w: nat, duration: real, ok: bool, counterWorks: bool, releaseWorks: bool): seq<Event> {
    [Acquire(w), Tick(duration), Finish(w, ok, counterWorks), Release(w, releaseWorks)]
  }

  lemma FourEvents(s: State, a: Event, b: Event, c: Event, d: Event)
    ensures RunFrom(s, [a, b, c, d]) == Apply(Apply(Apply(Apply(s, a), b), c), d)
  {
    var es := [a, b, c, d];
    assert es[..3] == [a, b, c] && [a, b, c][..2] == [a, b] && [a, b][..1] == [a] && [a][..0] == [];
    assert RunFrom(s, [a]) == Apply(s, a);
    assert RunFrom(s, [a, b]) == Apply(Apply(s, a), b);
    assert RunFrom(s, [a, b, c]) == Apply(Apply(Apply(s, a), b), c);
  }

  class RefreshTask {
    var lock: Option<Lock>
    var counter: Option<int>

    function Quiet(now: real): State
      reads this
    {
      State(now, lock, counter, map[], [], [])
    }

    /** One execution that nobody interrupts: `ok` says whether the two phases succeed. A held lock means it does
        nothing; otherwise the lock is gone at the end (or left to expire when the DELETE fails) and the counter is
        reset or raised. The failure is raised again after the release. */
    method GenerateAllSignals(w: nat, now: real, duration: real, ok: bool, counterWorks: bool, releaseWorks: bool)
      returns (skipped: bool, raised: bool, alerted: bool)
      requires duration >= 0.0
      modifies this
      ensures skipped <==> old(lock).Some? && now < old(lock).value.since + 600.0
      ensures skipped ==> lock == old(lock) && counter == old(counter)
      ensures raised <==> !skipped && !ok
      ensures !skipped ==> lock == if releaseWorks then None else Some(Lock(w, now))
      ensures !skipped && counterWorks ==>
                counter == Some(if ok then 0 else if old(counter).Some? then old(counter).value + 1 else 1)
      ensures !counterWorks ==> counter == old(counter)
      ensures alerted <==> raised && counterWorks && counter.value >= 3
      ensures var end := RunFrom(old(Quiet(now)), Solo(w, duration, ok, counterWorks, releaseWorks));
              end.lock == lock && end.counter == counter && (alerted <==> end.alerts != [])
    {
      FourEvents(Quiet(now), Acquire(w), Tick(duration), Finish(w, ok, counterWorks), Release(w, releaseWorks));
      alerted := false;
      if !Free(lock, now) {
        return true, false, false;
      }
      lock := Some(Lock(w, now));
      if ok {
        if counterWorks {
          counter := Some(0);
        }
      } else if counterWorks {
        counter := Some(Count(counter) + 1);
        if counter.value >= ALERT_THRESHOLD {
          alerted := true;
        }
      }
      if releaseWorks {
        lock := None;
      }
      skipped, raised := false, !ok;
    }
  }
}
