/** Health of one subscription: the automaton behind a health handle, and the tracker that drives it. */
module Health {
  import opened Options

  // Instants and durations count nanoseconds; the clock never goes back.
  type Instant = nat
  type Duration = nat

  const U32_MAX := 0xFFFF_FFFF
  const U64_MAX := 0xFFFF_FFFF_FFFF_FFFF

  /** Why a subscription ended. */
  datatype End = Completed | Cancelled | Failed

  /** What went wrong most recently. */
  datatype Problem = Transport | Timeout | HttpStatus(code: nat) | Closed | MalformedEvent | GraphQl | Lagged

  /** Where a subscription is in its life. */
  datatype Status =
    | Connecting
    | Healthy
    | Degraded
    | Stalled
    | Rejected
    | Recovered(outage: Duration)
    | Ended(end: End)
    | Untracked

  /** The health a handle reports, and what the tracker remembers besides. */
  datatype Tracker = Tracker(
    status: Status,
    statusSince: Instant,
    lastTransportActivity: Option<Instant>,
    lastUpdate: Option<Instant>,
    failures: nat,
    lastProblem: Option<Problem>,
    connections: nat,
    created: Instant,
    outageSince: Instant,
    lagging: bool)
  {
    /** The connection works and the consumer has everything it delivered, as far as is known. */
    predicate Works() {
      status.Healthy? || status.Recovered?
    }
  }

  function New(now: Instant): Tracker {
    Tracker(Connecting, now, None, None, 0, None, 0, now, now, false)
  }

  function SaturatingNext(n: nat, max: nat): nat {
    if n < max then n + 1 else n
  }

  /** The time from `since` to `now`, or nothing when `since` lies ahead. */
  function SaturatingSince(now: Instant, since: Instant): Duration {
    if since <= now then now - since else 0
  }

  function WithStatus(t: Tracker, status: Status, now: Instant): Tracker {
    t.(status := status, statusSince := now)
  }

  // ----- What happens to a tracker -----

  /** A sign of life. It ends an outage, unless the consumer still misses events. */
  function Activity(t: Tracker, now: Instant, endsRejection: bool): Tracker {
    var seen := t.(lastTransportActivity := Some(now));
    if t.lagging then seen
    else if t.status.Connecting? then WithStatus(seen.(failures := 0), Healthy, now)
    else if t.status.Degraded? || t.status.Stalled? || (t.status.Rejected? && endsRejection) then
      WithStatus(seen.(failures := 0), Recovered(SaturatingSince(now, t.outageSince)), now)
    else seen
  }

  function CountConnection(t: Tracker): Tracker {
    t.(connections := SaturatingNext(t.connections, U64_MAX))
  }

  function CountFailure(t: Tracker, problem: Problem): Tracker {
    t.(failures := SaturatingNext(t.failures, U32_MAX), lastProblem := Some(problem))
  }

  /** A failure. It starts an outage, which for a subscription that never connected began with its creation. */
  function Fail(t: Tracker, now: Instant, problem: Problem): Tracker {
    var failed := CountFailure(t, problem);
    if t.Works() then WithStatus(failed.(outageSince := now), Degraded, now)
    else if t.status.Connecting? then WithStatus(failed.(outageSince := t.created), Degraded, now)
    else failed
  }

  function Lag(t: Tracker, now: Instant): Tracker {
    Fail(t.(lagging := true), now, Lagged)
  }

  function CatchUp(t: Tracker): Tracker {
    t.(lagging := false)
  }

  /** A refusal. */
  function Refuse(t: Tracker, now: Instant, problem: Problem): Tracker {
    var failed := CountFailure(t, problem);
    if t.status.Rejected? || t.status.Ended? then failed
    else WithStatus(if t.Works() then failed.(outageSince := now) else failed, Rejected, now)
  }

  /** Whether a refusal starts a new rejection, which is when its error is yielded. */
  predicate IsNewRefusal(t: Tracker) {
    !t.status.Rejected? && !t.status.Ended?
  }

  /** When the subscription counts as stalled if nothing arrives until then. */
  function StallDeadline(t: Tracker, threshold: Duration): Option<Instant> {
    if t.status.Stalled? || t.status.Rejected? || t.status.Ended? then None
    else Some(LastSeen(t) + threshold)
  }

  function LastSeen(t: Tracker): Instant {
    match t.lastTransportActivity case Some(seen) => seen case None => t.created
  }

  /** Silence. The outage began with the last sign of life, or with the failure that came before. */
  function Stall(t: Tracker, now: Instant): Tracker {
    if t.status.Connecting? || t.Works() then WithStatus(t.(outageSince := LastSeen(t)), Stalled, now)
    else if t.status.Degraded? then WithStatus(t, Stalled, now)
    else t
  }

  function Finish(t: Tracker, now: Instant, end: End): Tracker {
    if t.status.Ended? then t else WithStatus(t, Ended(end), now)
  }

  // ----- The tracker -----

  /** Write side of a subscription's health. */
  class HealthTracker {
    var status: Status
    var statusSince: Instant
    var lastTransportActivity: Option<Instant>
    var lastUpdate: Option<Instant>
    var failures: nat
    var lastProblem: Option<Problem>
    var connections: nat
    const created: Instant
    var outageSince: Instant
    var lagging: bool

    ghost function Value(): Tracker
      reads this
    {
      Tracker(status, statusSince, lastTransportActivity, lastUpdate, failures, lastProblem, connections, created,
              outageSince, lagging)
    }

    constructor (now: Instant)
      ensures Value() == New(now)
    {
      status, statusSince := Connecting, now;
      lastTransportActivity, lastUpdate := None, None;
      failures, lastProblem, connections := 0, None, 0;
      created, outageSince, lagging := now, now, false;
    }

    method SetStatus(next: Status, now: Instant)
      modifies this`status, this`statusSince
      ensures status == next && statusSince == now
    {
      status := next;
      statusSince := now;
    }

    /** The connection delivered a keepalive or an event. */
    method TransportActivity(now: Instant)
      modifies this
      ensures Value() == Activity(old(Value()), now, true)
    {
      RecordActivity(now, true);
    }

    /** A connection was established. This does not end a rejection. */
    method Connected(now: Instant)
      modifies this
      ensures Value() == Activity(CountConnection(old(Value())), now, false)
    {
      connections := SaturatingNext(connections, U64_MAX);
      RecordActivity(now, false);
    }

    method RecordActivity(now: Instant, endsRejection: bool)
      modifies this
      ensures Value() == Activity(old(Value()), now, endsRejection)
    {
      lastTransportActivity := Some(now);
      var outage := SaturatingSince(now, outageSince);
      if lagging {
        return;
      }
      match status {
        case Connecting =>
          failures := 0;
          SetStatus(Healthy, now);
        case Degraded | Stalled =>
          failures := 0;
          SetStatus(Recovered(outage), now);
        case Rejected =>
          if endsRejection {
            failures := 0;
            SetStatus(Recovered(outage), now);
          }
        case _ =>
      }
    }

    /** An update was decoded and is about to be yielded. */
    method DataUpdate(now: Instant, later: Instant)
      modifies this
      ensures Value() == Activity(old(Value()), now, true).(lastUpdate := Some(later))
    {
      TransportActivity(now);
      lastUpdate := Some(later);
    }

    /** Something went wrong; the subscription keeps reconnecting. */
    method Problem(problem: Problem, now: Instant)
      modifies this
      ensures Value() == Fail(old(Value()), now, problem)
    {
      failures := SaturatingNext(failures, U32_MAX);
      lastProblem := Some(problem);
      match status {
        case Healthy | Recovered(_) =>
          SetStatus(Degraded, now);
          outageSince := now;
        case Connecting =>
          SetStatus(Degraded, now);
          outageSince := created;
        case _ =>
      }
    }

    /** The consumer did not keep up and lost events. */
    method Lagging(now: Instant)
      modifies this
      ensures Value() == Lag(old(Value()), now)
    {
      lagging := true;
      Problem(Lagged, now);
    }

    /** A new connection replays what the consumer missed. */
    method CaughtUp()
      modifies this
      ensures Value() == CatchUp(old(Value()))
    {
      lagging := false;
    }

    /** The server refused the subscription. Returns whether this starts a new rejection. */
    method Reject(problem: Problem, now: Instant) returns (first: bool)
      modifies this
      ensures Value() == Refuse(old(Value()), now, problem)
      ensures first == IsNewRefusal(old(Value()))
    {
      failures := SaturatingNext(failures, U32_MAX);
      lastProblem := Some(problem);
      match status {
        case Rejected | Ended(_) =>
          return false;
        case Healthy | Recovered(_) =>
          outageSince := now;
        case _ =>
      }
      SetStatus(Rejected, now);
      return true;
    }

    /** Nothing has come over the connection for the stall threshold. */
    method MarkStalled(now: Instant)
      modifies this
      ensures Value() == Stall(old(Value()), now)
    {
      match status {
        case Connecting | Healthy | Recovered(_) =>
          var since := if lastTransportActivity.Some? then lastTransportActivity.value else created;
          SetStatus(Stalled, now);
          outageSince := since;
        case Degraded =>
          SetStatus(Stalled, now);
        case _ =>
      }
    }

    /** The subscription is over. */
    method Finished(end: End, now: Instant)
      modifies this
      ensures Value() == Finish(old(Value()), now, end)
    {
      if !status.Ended? {
        SetStatus(Ended(end), now);
      }
    }

    /** Dropping the tracker cancels a subscription that did not end on its own. */
    method Drop(now: Instant)
      modifies this
      ensures Value() == Finish(old(Value()), now, Cancelled)
    {
      Finished(Cancelled, now);
    }
  }
}
