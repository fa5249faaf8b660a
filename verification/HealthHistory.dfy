/** What the health of a subscription says about everything that has happened to it. */
module HealthHistory {
  import opened Options
  import opened Health
  import opened HealthRuns

  // ----- Why a subscription is not working -----

  /** What health can show to be wrong. */
  datatype Sign = Lags | IsRefused | IsSilent | Fails | IsOver

  predicate Shows(t: Tracker, sign: Sign) {
    match sign
    case Lags => t.lagging
    case IsRefused => t.status.Rejected?
    case IsSilent => t.status.Stalled?
    case Fails => t.status.Degraded?
    case IsOver => t.status.Ended?
  }

  /** The event is a sign of life that ends an outage, other than a rejection. The consumer must not lag. */
  predicate Revives(t: Tracker, e: Timed) {
    IsSignOfLife(e.event) && !t.lagging
  }

  /** What begins it. */
  predicate Begins(sign: Sign, t: Tracker, e: Timed) {
    match sign
    case Lags => e.event.LagSeen?
    case IsRefused => e.event.RefusalSeen? && !t.status.Ended?
    case IsSilent => e.event.SilenceSeen? && !t.status.Rejected? && !t.status.Ended?
    case Fails =>
      (e.event.ProblemSeen? || e.event.LagSeen?) && (t.status.Connecting? || t.Works() || t.status.Degraded?)
    case IsOver => e.event.Over?
  }

  /** What puts an end to it. A new connection does not end a rejection. */
  predicate Ends(sign: Sign, t: Tracker, e: Timed) {
    match sign
    case Lags => e.event.ReplayRequested?
    case IsRefused => e.event.Over? || (Revives(t, e) && !e.event.ConnectionMade?)
    case IsSilent => e.event.Over? || Revives(t, e) || e.event.RefusalSeen?
    case Fails => e.event.Over? || Revives(t, e) || e.event.RefusalSeen? || e.event.SilenceSeen?
    case IsOver => false
  }

  /** It began among the first `n` events and has not ended since. */
  ghost predicate Since(sign: Sign, created: Instant, run: seq<Timed>, n: nat)
    requires n <= |run|
  {
    exists i :: 0 <= i < n && BegunAt(sign, created, run, i, n)
  }

  ghost predicate BegunAt(sign: Sign, created: Instant, run: seq<Timed>, i: nat, n: nat)
    requires i < n <= |run|
  {
    && Begins(sign, After(created, run, i), run[i])
    && forall k :: i < k < n ==> !Ends(sign, After(created, run, k), run[k])
  }

  lemma SignNext(sign: Sign, t: Tracker, e: Timed)
    requires Consistent(t)
    ensures Shows(Next(t, e), sign) <==> Begins(sign, t, e) || (Shows(t, sign) && !Ends(sign, t, e))
  {}

  lemma SinceNext(sign: Sign, created: Instant, run: seq<Timed>, n: nat)
    requires n < |run|
    ensures Since(sign, created, run, n + 1)
       <==> Begins(sign, After(created, run, n), run[n])
            || (Since(sign, created, run, n) && !Ends(sign, After(created, run, n), run[n]))
  {
    hide Begins;
    hide Ends;
    hide After;
    if Begins(sign, After(created, run, n), run[n]) {
      assert BegunAt(sign, created, run, n, n + 1);
    }
    if Since(sign, created, run, n) && !Ends(sign, After(created, run, n), run[n]) {
      var i :| 0 <= i < n && BegunAt(sign, created, run, i, n);
      assert BegunAt(sign, created, run, i, n + 1);
    }
    if Since(sign, created, run, n + 1) {
      var i :| 0 <= i < n + 1 && BegunAt(sign, created, run, i, n + 1);
      assert i < n ==> BegunAt(sign, created, run, i, n);
    }
  }

  lemma NothingAtFirst(sign: Sign, created: Instant, run: seq<Timed>)
    ensures !Shows(After(created, run, 0), sign) && !Since(sign, created, run, 0)
  {}

  lemma AfterNext(created: Instant, run: seq<Timed>, n: nat)
    requires n < |run|
    ensures After(created, run, n + 1) == Next(After(created, run, n), run[n])
  {
    hide Next;
  }

  /**
   Over every run, health shows what is wrong exactly as long as it is: a lag from the event that tells of it until a
   replay is requested, a rejection from a refusal until a keepalive, an event or the end, and so on.
   */
  lemma {:induction false} ShowsWhatIsWrong(sign: Sign, created: Instant, run: seq<Timed>, n: nat)
    requires n <= |run|
    ensures Shows(After(created, run, n), sign) <==> Since(sign, created, run, n)
  {
    hide *;
    if n == 0 {
      NothingAtFirst(sign, created, run);
    } else {
      ShowsWhatIsWrong(sign, created, run, n - 1);
      SinceNext(sign, created, run, n - 1);
      RunsStayConsistent(created, run, n - 1);
      SignNext(sign, After(created, run, n - 1), run[n - 1]);
      AfterNext(created, run, n - 1);
    }
  }

  /** After a lag the subscription lags, and works at no time, until a replay is requested. */
  lemma LagHoldsItDown(created: Instant, run: seq<Timed>, i: nat, n: nat)
    requires i < n <= |run| && run[i].event.LagSeen?
    requires forall k :: i < k < n ==> !run[k].event.ReplayRequested?
    ensures After(created, run, n).lagging && !After(created, run, n).Works()
  {
    assert BegunAt(Lags, created, run, i, n);
    ShowsWhatIsWrong(Lags, created, run, n);
    RunsStayConsistent(created, run, n);
  }

  /** Nothing has come and nothing gone wrong among the first `n` events. */
  ghost predicate NothingYet(created: Instant, run: seq<Timed>, n: nat)
    requires n <= |run|
  {
    forall k :: 0 <= k < n ==> run[k].event.ReplayRequested?
  }

  lemma ConnectingNext(t: Tracker, e: Timed)
    requires Consistent(t)
    ensures Next(t, e).status.Connecting? <==> t.status.Connecting? && e.event.ReplayRequested?
  {}

  /** A subscription is connecting until anything at all comes or goes wrong. */
  lemma {:induction false} ConnectsAtFirstOnly(created: Instant, run: seq<Timed>, n: nat)
    requires n <= |run|
    ensures After(created, run, n).status.Connecting? <==> NothingYet(created, run, n)
  {
    if n > 0 {
      ConnectsAtFirstOnly(created, run, n - 1);
      RunsStayConsistent(created, run, n - 1);
      ConnectingNext(After(created, run, n - 1), run[n - 1]);
      hide Next;
    }
  }

  lemma RecoversNow(t: Tracker, e: Timed)
    requires Consistent(t)
    ensures Next(t, e).Works() && IsDown(t) ==>
              Next(t, e).status == Recovered(SaturatingSince(e.at, t.outageSince))
    ensures Next(t, e).Works() && t.status.Connecting? ==> Next(t, e).status.Healthy?
    ensures Next(t, e).Works() && !IsDown(t) && !t.status.Connecting? ==> Next(t, e).status == t.status
  {}

  /**
   Over every run, a subscription that comes to work again reports the outage that ends then, from where it began; it is
   healthy only if it never was down.
   */
  lemma RecoversWithItsOutage(created: Instant, run: seq<Timed>, n: nat)
    requires n < |run| && IsRun(created, run) && After(created, run, n + 1).Works()
    ensures if IsDown(After(created, run, n)) then
              exists b :: 0 <= b < n && DownSince(created, run, b, n)
                          && After(created, run, n + 1).status
                             == Recovered(SaturatingSince(run[n].at, Beginning(After(created, run, b), run[b])))
            else if After(created, run, n).status.Connecting? then After(created, run, n + 1).status.Healthy?
            else After(created, run, n + 1).status == After(created, run, n).status
  {
    RunsStayConsistent(created, run, n);
    RecoversNow(After(created, run, n), run[n]);
    AfterNext(created, run, n);
    hide Next;
    if IsDown(After(created, run, n)) {
      OutageHasOneBeginning(created, run, n);
    }
  }

  // ----- Counts and memories -----

  /** The problem an event tells of. */
  function ProblemOf(e: Event): Option<Problem> {
    match e
    case ProblemSeen(problem) => Some(problem)
    case RefusalSeen(problem) => Some(problem)
    case LagSeen => Some(Lagged)
    case _ => None
  }

  function Failures(run: seq<Timed>): nat {
    if |run| == 0 then 0
    else Failures(run[..|run| - 1]) + (if ProblemOf(run[|run| - 1].event).Some? then 1 else 0)
  }

  function Connections(run: seq<Timed>): nat {
    if |run| == 0 then 0
    else Connections(run[..|run| - 1]) + (if run[|run| - 1].event.ConnectionMade? then 1 else 0)
  }

  function AtMost(n: nat, max: nat): nat {
    if n <= max then n else max
  }

  lemma ConnectionsNext(t: Tracker, e: Timed)
    ensures Next(t, e).connections
         == if e.event.ConnectionMade? then SaturatingNext(t.connections, U64_MAX) else t.connections
  {}

  /** Every connection is counted. */
  lemma {:induction false} ConnectionsAreCounted(created: Instant, run: seq<Timed>, n: nat)
    requires n <= |run|
    ensures After(created, run, n).connections == AtMost(Connections(run[..n]), U64_MAX)
  {
    if n > 0 {
      ConnectionsAreCounted(created, run, n - 1);
      ConnectionsNext(After(created, run, n - 1), run[n - 1]);
      hide Next;
      assert run[..n][..n - 1] == run[..n - 1];
    }
  }

  lemma FailuresNext(t: Tracker, e: Timed)
    requires Consistent(t) && !Next(t, e).Works()
    ensures Next(t, e).failures
         == if ProblemOf(e.event).Some? then SaturatingNext(t.failures, U32_MAX) else t.failures
  {}

  /** Failures are counted from the last time the subscription worked, or from the beginning. */
  lemma {:induction false} FailuresAreCounted(created: Instant, run: seq<Timed>, j: nat, n: nat)
    requires j <= n <= |run| && (j == 0 || After(created, run, j).Works())
    requires forall k :: j < k <= n ==> !After(created, run, k).Works()
    ensures After(created, run, n).failures == AtMost(Failures(run[j..n]), U32_MAX)
    decreases n
  {
    RunsStayConsistent(created, run, n);
    if j == n {
      assert run[j..n] == [];
    } else {
      FailuresAreCounted(created, run, j, n - 1);
      RunsStayConsistent(created, run, n - 1);
      FailuresNext(After(created, run, n - 1), run[n - 1]);
      hide Next;
      hide ProblemOf;
      assert run[j..n][..n - 1 - j] == run[j..n - 1];
    }
  }

  /** Event `i` is the last of the first `n` to tell of a problem. */
  ghost predicate LastTold(run: seq<Timed>, i: nat, n: nat)
    requires i < n <= |run|
  {
    ProblemOf(run[i].event).Some? && forall k :: i < k < n ==> ProblemOf(run[k].event).None?
  }

  lemma ProblemNext(t: Tracker, e: Timed)
    ensures Next(t, e).lastProblem == if ProblemOf(e.event).Some? then ProblemOf(e.event) else t.lastProblem
  {}

  /** The last problem is the one that was told of last. */
  lemma {:induction false} LastProblemIsTheLast(created: Instant, run: seq<Timed>, n: nat)
    requires n <= |run|
    ensures match After(created, run, n).lastProblem
            case Some(problem) =>
              exists i :: 0 <= i < n && LastTold(run, i, n) && ProblemOf(run[i].event) == Some(problem)
            case None => forall i :: 0 <= i < n ==> ProblemOf(run[i].event).None?
  {
    if n > 0 {
      LastProblemIsTheLast(created, run, n - 1);
      ProblemNext(After(created, run, n - 1), run[n - 1]);
      hide Next;
      hide ProblemOf;
      if ProblemOf(run[n - 1].event).Some? {
        assert LastTold(run, n - 1, n);
      } else if After(created, run, n - 1).lastProblem.Some? {
        var i :| 0 <= i < n - 1 && LastTold(run, i, n - 1)
                 && ProblemOf(run[i].event) == After(created, run, n - 1).lastProblem;
        assert LastTold(run, i, n);
      }
    }
  }

  /** Event `i` is the last update among the first `n`. */
  ghost predicate LastUpdated(run: seq<Timed>, i: nat, n: nat)
    requires i < n <= |run|
  {
    run[i].event.DataArrived? && forall k :: i < k < n ==> !run[k].event.DataArrived?
  }

  lemma UpdateNext(t: Tracker, e: Timed)
    ensures Next(t, e).lastUpdate == if e.event.DataArrived? then Some(e.event.later) else t.lastUpdate
  {}

  /** The last update is the one that was told of last. */
  lemma {:induction false} LastUpdateIsTheLast(created: Instant, run: seq<Timed>, n: nat)
    requires n <= |run|
    ensures match After(created, run, n).lastUpdate
            case Some(at) => exists i :: 0 <= i < n && LastUpdated(run, i, n) && run[i].event.later == at
            case None => forall i :: 0 <= i < n ==> !run[i].event.DataArrived?
  {
    if n > 0 {
      LastUpdateIsTheLast(created, run, n - 1);
      UpdateNext(After(created, run, n - 1), run[n - 1]);
      hide Next;
      if run[n - 1].event.DataArrived? {
        assert LastUpdated(run, n - 1, n);
      } else if After(created, run, n - 1).lastUpdate.Some? {
        var i :| 0 <= i < n - 1 && LastUpdated(run, i, n - 1)
                 && After(created, run, n - 1).lastUpdate == Some(run[i].event.later);
        assert LastUpdated(run, i, n);
      }
    }
  }

  lemma StatusNext(t: Tracker, e: Timed)
    ensures Next(t, e).statusSince == if Next(t, e).status != t.status then e.at else t.statusSince
  {}

  /** The status is as old as the last event that changed it, or as the subscription. */
  lemma {:induction false} StatusIsAsOldAsItsChange(created: Instant, run: seq<Timed>, i: nat, n: nat)
    requires i <= n <= |run| && (i > 0 ==> After(created, run, i).status != After(created, run, i - 1).status)
    requires forall k :: i < k <= n ==> After(created, run, k).status == After(created, run, k - 1).status
    ensures After(created, run, n).statusSince == TimeOf(created, run, i)
    decreases n
  {
    if n > 0 {
      StatusNext(After(created, run, n - 1), run[n - 1]);
      hide Next;
      if i < n {
        StatusIsAsOldAsItsChange(created, run, i, n - 1);
      }
    }
  }
}
