/** What holds of a tracker over whole runs, whatever happens to it and in whatever order. */
module HealthRuns {
  import opened Options
  import opened Health

  datatype Event =
    | KeepaliveOrEvent
    | ConnectionMade
    | DataArrived(later: Instant)
    | ProblemSeen(problem: Problem)
    | LagSeen
    | ReplayRequested
    | RefusalSeen(problem: Problem)
    | SilenceSeen
    | Over(end: End)

  datatype Timed = Timed(at: Instant, event: Event)

  function Next(t: Tracker, e: Timed): Tracker {
    match e.event
    case KeepaliveOrEvent => Activity(t, e.at, true)
    case ConnectionMade => Activity(CountConnection(t), e.at, false)
    case DataArrived(later) => Activity(t, e.at, true).(lastUpdate := Some(later))
    case ProblemSeen(problem) => Fail(t, e.at, problem)
    case LagSeen => Lag(t, e.at)
    case ReplayRequested => CatchUp(t)
    case RefusalSeen(problem) => Refuse(t, e.at, problem)
    case SilenceSeen => Stall(t, e.at)
    case Over(end) => Finish(t, e.at, end)
  }

  /** A run of a tracker that was created at `created`: events in the order of a clock that never goes back. */
  ghost predicate IsRun(created: Instant, run: seq<Timed>) {
    && (forall i :: 0 <= i < |run| ==> created <= run[i].at)
    && (forall i, j :: 0 <= i < j < |run| ==> run[i].at <= run[j].at)
  }

  /** The tracker after the first `n` events. */
  function After(created: Instant, run: seq<Timed>, n: nat): Tracker
    requires n <= |run|
  {
    if n == 0 then New(created) else Next(After(created, run, n - 1), run[n - 1])
  }

  function TimeOf(created: Instant, run: seq<Timed>, n: nat): Instant
    requires n <= |run|
  {
    if n == 0 then created else run[n - 1].at
  }

  // ----- Invariants -----

  /** What every tracker keeps to. */
  predicate Consistent(t: Tracker) {
    && !t.status.Untracked?
    && (t.status.Connecting? || t.Works() ==> t.failures == 0 && !t.lagging)
  }

  lemma ConsistentStep(t: Tracker, e: Timed)
    requires Consistent(t)
    ensures Consistent(Next(t, e))
  {}

  /**
   On every run, failures are counted only while the subscription does not work, and a consumer that lost events never
   sees a working subscription before the replay was requested.
   */
  lemma {:induction false} RunsStayConsistent(created: Instant, run: seq<Timed>, n: nat)
    requires n <= |run|
    ensures Consistent(After(created, run, n))
  {
    if n > 0 {
      RunsStayConsistent(created, run, n - 1);
      ConsistentStep(After(created, run, n - 1), run[n - 1]);
    }
  }

  /** A lag is released by a replay that was requested, and by nothing else. */
  lemma OnlyReplaysRelease(t: Tracker, e: Timed)
    requires t.lagging
    ensures Next(t, e).lagging <==> !e.event.ReplayRequested?
  {}

  /** Over any stretch of a run, whoever lags keeps lagging until a replay is requested. */
  lemma {:induction false} LagsUntilReplay(created: Instant, run: seq<Timed>, i: nat, n: nat)
    requires i <= n <= |run| && After(created, run, i).lagging
    requires forall k :: i <= k < n ==> !run[k].event.ReplayRequested?
    ensures After(created, run, n).lagging && !After(created, run, n).Works()
    decreases n - i
  {
    RunsStayConsistent(created, run, n);
    if i < n {
      LagsUntilReplay(created, run, i, n - 1);
      OnlyReplaysRelease(After(created, run, n - 1), run[n - 1]);
    }
    hide Next;
  }

  /** An ended subscription stays ended, for the reason it ended first. */
  lemma {:induction false} EndedForGood(created: Instant, run: seq<Timed>, i: nat, n: nat)
    requires i <= n <= |run| && After(created, run, i).status.Ended?
    ensures After(created, run, n).status == After(created, run, i).status
    decreases n - i
  {
    if i < n {
      EndedForGood(created, run, i, n - 1);
    }
  }

  // ----- Rejections -----

  /** Event `i` is a refusal whose error is yielded. */
  predicate Yields(created: Instant, run: seq<Timed>, i: nat)
    requires i < |run|
  {
    run[i].event.RefusalSeen? && IsNewRefusal(After(created, run, i))
  }

  /** Event `i` takes the subscription into a rejection. */
  predicate EntersRejection(created: Instant, run: seq<Timed>, i: nat)
    requires i < |run|
  {
    !After(created, run, i).status.Rejected? && After(created, run, i + 1).status.Rejected?
  }

  /** An error is yielded exactly when a rejection begins. */
  lemma YieldsOncePerRejection(created: Instant, run: seq<Timed>, i: nat)
    requires i < |run|
    ensures Yields(created, run, i) <==> EntersRejection(created, run, i)
  {}

  /** Between two errors the subscription was out of the rejection that the first one reported. */
  lemma RejectionsAreSeparate(created: Instant, run: seq<Timed>, i: nat, j: nat)
    requires i < j < |run| && Yields(created, run, i) && Yields(created, run, j)
    ensures exists k :: i < k <= j && !After(created, run, k).status.Rejected?
  {
    assert IsNewRefusal(After(created, run, j));
  }

  // ----- Outages -----

  datatype Outage = Outage(start: Instant, end: Instant)

  /** Whether event `i` ends an outage. */
  predicate Recovers(created: Instant, run: seq<Timed>, i: nat)
    requires i < |run|
  {
    !After(created, run, i).status.Recovered? && After(created, run, i + 1).status.Recovered?
  }

  /** The outages the first `n` events ended, in order. */
  function Outages(created: Instant, run: seq<Timed>, n: nat): seq<Outage>
    requires n <= |run|
  {
    if n == 0 then []
    else Outages(created, run, n - 1)
         + (if Recovers(created, run, n - 1)
            then [Outage(After(created, run, n - 1).outageSince, run[n - 1].at)] else [])
  }

  function Total(outages: seq<Outage>): int {
    if |outages| == 0 then 0
    else Total(outages[..|outages| - 1]) + (outages[|outages| - 1].end - outages[|outages| - 1].start)
  }

  /** When the subscription last recovered, or was created. */
  function LastRecovery(created: Instant, outages: seq<Outage>): Instant {
    if |outages| == 0 then created else outages[|outages| - 1].end
  }

  /** Nothing the tracker remembers lies before the last recovery. */
  predicate Sound(t: Tracker, created: Instant, recovered: Instant, now: Instant) {
    && t.created == created <= recovered <= now
    && (t.lastTransportActivity.Some? ==> t.lastTransportActivity.value <= now)
    && match t.status
       case Connecting => t.lastTransportActivity.None? && t.outageSince == created == recovered && !t.lagging
       case Healthy => t.lastTransportActivity.Some? && recovered <= t.lastTransportActivity.value
       case Recovered(_) => t.lastTransportActivity.Some? && recovered <= t.lastTransportActivity.value
       case Degraded => recovered <= t.outageSince <= now
       case Stalled => recovered <= t.outageSince <= now
       case Rejected => recovered <= t.outageSince <= now
       case Ended(_) => true
       case Untracked => false
  }

  /** Soundness moves on with the clock, and a recovery reports the outage that began at `outageSince`. */
  predicate MovesOn(t: Tracker, t': Tracker, created: Instant, recovered: Instant, now: Instant) {
    if !t.status.Recovered? && t'.status.Recovered? then
      && recovered <= t.outageSince <= now
      && t'.status.outage == now - t.outageSince
      && Sound(t', created, now, now)
    else Sound(t', created, recovered, now)
  }

  lemma SoundActivity(t: Tracker, now: Instant, endsRejection: bool, created: Instant, recovered: Instant,
                      before: Instant)
    requires Sound(t, created, recovered, before) && before <= now
    ensures MovesOn(t, Activity(t, now, endsRejection), created, recovered, now)
  {}

  lemma SoundFailure(t: Tracker, now: Instant, problem: Problem, created: Instant, recovered: Instant, before: Instant)
    requires Sound(t, created, recovered, before) && before <= now
    ensures MovesOn(t, Fail(t, now, problem), created, recovered, now)
    ensures MovesOn(t, Lag(t, now), created, recovered, now)
  {}

  lemma SoundStep(t: Tracker, e: Timed, created: Instant, recovered: Instant, before: Instant)
    requires Sound(t, created, recovered, before) && before <= e.at
    ensures MovesOn(t, Next(t, e), created, recovered, e.at)
  {
    match e.event
    case KeepaliveOrEvent => SoundActivity(t, e.at, true, created, recovered, before);
    case ConnectionMade => SoundActivity(CountConnection(t), e.at, false, created, recovered, before);
    case DataArrived(_) => SoundActivity(t, e.at, true, created, recovered, before);
    case ProblemSeen(problem) => SoundFailure(t, e.at, problem, created, recovered, before);
    case LagSeen => SoundFailure(t, e.at, Lagged, created, recovered, before);
    case _ =>
  }

  /** Outages that do not overlap, the first of which begins no earlier than `created`. */
  ghost predicate Disjoint(created: Instant, outages: seq<Outage>) {
    && (forall i :: 0 <= i < |outages| ==> created <= outages[i].start <= outages[i].end)
    && (forall i, j :: 0 <= i < j < |outages| ==> outages[i].end <= outages[j].start)
  }

  /** Everything an induction over the run needs to know of its first `n` events. */
  ghost predicate Accounted(created: Instant, run: seq<Timed>, n: nat)
    requires n <= |run|
  {
    var outages := Outages(created, run, n);
    && Sound(After(created, run, n), created, LastRecovery(created, outages), TimeOf(created, run, n))
    && Disjoint(created, outages)
    && 0 <= Total(outages) <= LastRecovery(created, outages) - created
  }

  lemma DisjointMore(created: Instant, outages: seq<Outage>, outage: Outage)
    requires Disjoint(created, outages) && created <= outage.start <= outage.end
    requires |outages| > 0 ==> outages[|outages| - 1].end <= outage.start
    ensures Disjoint(created, outages + [outage])
  {
    var last := |outages| - 1;
    forall i | 0 <= i < |outages|
      ensures outages[i].end <= outage.start
    {
      assert i < last ==> outages[i].end <= outages[last].start <= outages[last].end;
    }
  }

  lemma TotalMore(outages: seq<Outage>, outage: Outage)
    ensures Total(outages + [outage]) == Total(outages) + (outage.end - outage.start)
  {
    assert (outages + [outage])[..|outages|] == outages;
  }

  lemma AddOutage(created: Instant, outages: seq<Outage>, outage: Outage)
    requires Disjoint(created, outages) && 0 <= Total(outages) <= LastRecovery(created, outages) - created
    requires LastRecovery(created, outages) <= outage.start <= outage.end
    requires created <= LastRecovery(created, outages)
    ensures Disjoint(created, outages + [outage])
    ensures 0 <= Total(outages + [outage]) <= LastRecovery(created, outages + [outage]) - created
  {
    DisjointMore(created, outages, outage);
    TotalMore(outages, outage);
    hide Disjoint;
    hide Total;
  }

  lemma OutagesNext(created: Instant, run: seq<Timed>, n: nat)
    requires n < |run|
    ensures if Recovers(created, run, n) then
              Outages(created, run, n + 1)
              == Outages(created, run, n) + [Outage(After(created, run, n).outageSince, run[n].at)]
            else Outages(created, run, n + 1) == Outages(created, run, n)
  {
    hide Recovers;
    assert Outages(created, run, n) + [] == Outages(created, run, n);
  }

  lemma AccountedNext(created: Instant, run: seq<Timed>, n: nat)
    requires n < |run| && IsRun(created, run) && Accounted(created, run, n)
    ensures Accounted(created, run, n + 1)
  {
    var before, outages := After(created, run, n), Outages(created, run, n);
    var recovered := LastRecovery(created, outages);
    assert created <= recovered;
    SoundStep(before, run[n], created, recovered, TimeOf(created, run, n));
    OutagesNext(created, run, n);
    hide Sound;
    hide Next;
    hide Disjoint;
    hide Total;
    hide Outages;
    if Recovers(created, run, n) {
      AddOutage(created, outages, Outage(before.outageSince, run[n].at));
    }
  }

  lemma NothingToAccount(created: Instant, run: seq<Timed>)
    ensures Accounted(created, run, 0)
  {}

  lemma {:induction false} RunIsAccounted(created: Instant, run: seq<Timed>, n: nat)
    requires n <= |run| && IsRun(created, run)
    ensures Accounted(created, run, n)
  {
    hide *;
    if n == 0 {
      NothingToAccount(created, run);
    } else {
      RunIsAccounted(created, run, n - 1);
      AccountedNext(created, run, n - 1);
    }
  }

  /**
   Outage accounting: on every run the outages that were reported do not overlap, each lasted from its beginning to the
   recovery that reported it, and together they are no longer than the subscription has existed.
   */
  lemma OutagesAddUp(created: Instant, run: seq<Timed>)
    requires IsRun(created, run)
    ensures Disjoint(created, Outages(created, run, |run|))
    ensures Total(Outages(created, run, |run|)) <= TimeOf(created, run, |run|) - created
    ensures forall i :: 0 <= i < |run| && Recovers(created, run, i) ==>
              After(created, run, i + 1).status.outage == run[i].at - After(created, run, i).outageSince
  {
    RunIsAccounted(created, run, |run|);
    forall i | 0 <= i < |run| && Recovers(created, run, i)
      ensures After(created, run, i + 1).status.outage == run[i].at - After(created, run, i).outageSince
    {
      RunIsAccounted(created, run, i);
      SoundStep(After(created, run, i), run[i], created, LastRecovery(created, Outages(created, run, i)),
                TimeOf(created, run, i));
    }
  }

  // ----- Where outages begin -----

  /** The subscription does not work, but may work again. */
  predicate IsDown(t: Tracker) {
    t.status.Degraded? || t.status.Stalled? || t.status.Rejected?
  }

  /** Whether event `i` takes the subscription down. */
  predicate TakesDown(created: Instant, run: seq<Timed>, i: nat)
    requires i < |run|
  {
    !IsDown(After(created, run, i)) && IsDown(After(created, run, i + 1))
  }

  /**
   When the outage began that event `e` starts: for silence with the last sign of life, for a subscription that never
   connected with its creation, and otherwise with the event.
   */
  function Beginning(t: Tracker, e: Timed): Instant {
    if e.event.SilenceSeen? then LastSeen(t)
    else if t.status.Connecting? then t.created
    else e.at
  }

  lemma BeginsThere(t: Tracker, e: Timed, created: Instant, recovered: Instant, before: Instant)
    requires Sound(t, created, recovered, before) && before <= e.at && !IsDown(t) && IsDown(Next(t, e))
    ensures t.status.Connecting? || t.Works()
    ensures Next(t, e).outageSince == Beginning(t, e)
  {}

  lemma StaysThere(t: Tracker, e: Timed)
    requires IsDown(t) && IsDown(Next(t, e))
    ensures Next(t, e).outageSince == t.outageSince
  {}

  /** Event `b` took the subscription down, it has been down ever since, and the outage counts from there. */
  ghost predicate DownSince(created: Instant, run: seq<Timed>, b: nat, n: nat)
    requires b < n <= |run|
  {
    && TakesDown(created, run, b)
    && (forall k :: b < k <= n ==> IsDown(After(created, run, k)))
    && After(created, run, n).outageSince == Beginning(After(created, run, b), run[b])
  }

  lemma DownLonger(created: Instant, run: seq<Timed>, b: nat, n: nat)
    requires b < n < |run| && DownSince(created, run, b, n) && IsDown(After(created, run, n + 1))
    ensures DownSince(created, run, b, n + 1)
  {
    StaysThere(After(created, run, n), run[n]);
  }

  lemma DownNow(created: Instant, run: seq<Timed>, n: nat)
    requires n < |run| && IsRun(created, run) && TakesDown(created, run, n)
    ensures DownSince(created, run, n, n + 1)
  {
    RunIsAccounted(created, run, n);
    BeginsThere(After(created, run, n), run[n], created, LastRecovery(created, Outages(created, run, n)),
                TimeOf(created, run, n));
  }

  /**
   While a subscription is down, its outage counts from the one event that took it down: nothing that happened since
   moved the beginning, and it has not worked in between.
   */
  lemma {:induction false} OutageHasOneBeginning(created: Instant, run: seq<Timed>, n: nat)
    requires n <= |run| && IsRun(created, run) && IsDown(After(created, run, n))
    ensures exists b :: 0 <= b < n && DownSince(created, run, b, n)
  {
    if n > 0 {
      if IsDown(After(created, run, n - 1)) {
        OutageHasOneBeginning(created, run, n - 1);
        var b :| 0 <= b < n - 1 && DownSince(created, run, b, n - 1);
        DownLonger(created, run, b, n - 1);
      } else {
        DownNow(created, run, n - 1);
      }
    }
  }

  /** A sign of life. */
  predicate IsSignOfLife(e: Event) {
    e.KeepaliveOrEvent? || e.ConnectionMade? || e.DataArrived?
  }

  /** Event `k` is the last sign of life among the first `n` events, or there is none and `k` is -1. */
  ghost predicate IsLastSign(run: seq<Timed>, n: nat, k: int)
    requires n <= |run|
  {
    && -1 <= k < n
    && (k >= 0 ==> IsSignOfLife(run[k].event))
    && forall i :: k < i < n ==> !IsSignOfLife(run[i].event)
  }

  lemma SeenStep(t: Tracker, e: Timed)
    ensures LastSeen(Next(t, e)) == (if IsSignOfLife(e.event) then e.at else LastSeen(t))
    ensures Next(t, e).created == t.created
  {}

  /** What a tracker remembers as its last sign of life is the last there was, or its creation. */
  lemma {:induction false} LastSeenIsTheLast(created: Instant, run: seq<Timed>, n: nat, k: int)
    requires n <= |run| && IsLastSign(run, n, k)
    ensures LastSeen(After(created, run, n)) == if k >= 0 then run[k].at else created
    ensures After(created, run, n).created == created
  {
    if n > 0 {
      SeenStep(After(created, run, n - 1), run[n - 1]);
      if k == n - 1 {
        LastSignExists(run, n - 1);
        var k' :| IsLastSign(run, n - 1, k');
        LastSeenIsTheLast(created, run, n - 1, k');
      } else {
        LastSeenIsTheLast(created, run, n - 1, k);
      }
    }
  }

  lemma {:induction false} LastSignExists(run: seq<Timed>, n: nat)
    requires n <= |run|
    ensures exists k :: IsLastSign(run, n, k)
  {
    if n == 0 {
      assert IsLastSign(run, 0, -1);
    } else if IsSignOfLife(run[n - 1].event) {
      assert IsLastSign(run, n, n - 1);
    } else {
      LastSignExists(run, n - 1);
      var k :| IsLastSign(run, n - 1, k);
      assert IsLastSign(run, n, k);
    }
  }

  /**
   The beginning of the outage that event `b` starts, in terms of the run alone: the last sign of life or the creation
   for silence, the creation for a subscription that was still connecting, and the time of the event otherwise.
   */
  ghost predicate BeginsAt(created: Instant, run: seq<Timed>, b: nat, start: Instant)
    requires b < |run|
  {
    if run[b].event.SilenceSeen? then
      exists k :: IsLastSign(run, b, k) && start == if k >= 0 then run[k].at else created
    else start == if After(created, run, b).status.Connecting? then created else run[b].at
  }

  lemma BeginningIs(created: Instant, run: seq<Timed>, b: nat)
    requires b < |run|
    ensures BeginsAt(created, run, b, Beginning(After(created, run, b), run[b]))
  {
    LastSignExists(run, b);
    var k :| IsLastSign(run, b, k);
    LastSeenIsTheLast(created, run, b, k);
  }

  /** Outage `o` was reported by a recovery at event `r`, and began when event `b` took the subscription down. */
  ghost predicate IsTrueOutage(created: Instant, run: seq<Timed>, o: Outage, b: nat, r: nat)
    requires b < r < |run|
  {
    && Recovers(created, run, r) && o.end == run[r].at
    && TakesDown(created, run, b) && BeginsAt(created, run, b, o.start)
    && forall k :: b < k <= r ==> IsDown(After(created, run, k))
  }

  lemma RecoversFromDown(t: Tracker, e: Timed)
    requires !t.status.Recovered? && Next(t, e).status.Recovered?
    ensures IsDown(t)
  {}

  /** The outage is a true one, reported among the first `n` events. */
  ghost predicate IsTrue(created: Instant, run: seq<Timed>, o: Outage, n: nat)
    requires n <= |run|
  {
    exists b: nat, r: nat :: b < r < n && IsTrueOutage(created, run, o, b, r)
  }

  ghost predicate AllTrue(created: Instant, run: seq<Timed>, outages: seq<Outage>, n: nat)
    requires n <= |run|
  {
    forall i :: 0 <= i < |outages| ==> IsTrue(created, run, outages[i], n)
  }

  lemma RecoveryEndsOutage(created: Instant, run: seq<Timed>, r: nat)
    requires r < |run| && IsRun(created, run) && Recovers(created, run, r)
    ensures IsTrue(created, run, Outage(After(created, run, r).outageSince, run[r].at), r + 1)
  {
    RecoversFromDown(After(created, run, r), run[r]);
    OutageHasOneBeginning(created, run, r);
    var b :| 0 <= b < r && DownSince(created, run, b, r);
    BeginningIs(created, run, b);
    assert IsTrueOutage(created, run, Outage(After(created, run, r).outageSince, run[r].at), b, r);
  }

  lemma IsTrueLater(created: Instant, run: seq<Timed>, o: Outage, n: nat)
    requires n < |run| && IsTrue(created, run, o, n)
    ensures IsTrue(created, run, o, n + 1)
  {
    var b: nat, r: nat :| b < r < n && IsTrueOutage(created, run, o, b, r);
    assert b < r < n + 1 && IsTrueOutage(created, run, o, b, r);
  }

  lemma AllTrueMore(created: Instant, run: seq<Timed>, outages: seq<Outage>, n: nat)
    requires n < |run| && IsRun(created, run) && AllTrue(created, run, outages, n)
    ensures AllTrue(created, run, outages, n + 1)
    ensures Recovers(created, run, n) ==>
              AllTrue(created, run, outages + [Outage(After(created, run, n).outageSince, run[n].at)], n + 1)
  {
    hide IsTrue;
    forall i | 0 <= i < |outages|
      ensures IsTrue(created, run, outages[i], n + 1)
    {
      IsTrueLater(created, run, outages[i], n);
    }
    if Recovers(created, run, n) {
      RecoveryEndsOutage(created, run, n);
    }
    hide Recovers;
    hide After;
  }

  lemma NoOutageYet(created: Instant, run: seq<Timed>)
    ensures AllTrue(created, run, Outages(created, run, 0), 0)
  {}

  /**
   Every reported outage is a true one: it lasted from where the event that took the subscription down makes it begin to
   the recovery, and in between the subscription was down all the time.
   */
  lemma {:induction false} OutagesAreTrue(created: Instant, run: seq<Timed>, n: nat)
    requires n <= |run| && IsRun(created, run)
    ensures AllTrue(created, run, Outages(created, run, n), n)
  {
    hide *;
    if n == 0 {
      NoOutageYet(created, run);
    } else {
      OutagesAreTrue(created, run, n - 1);
      AllTrueMore(created, run, Outages(created, run, n - 1), n - 1);
      OutagesNext(created, run, n - 1);
    }
  }
}
