/**
 What a frame comes to for a subscription, on the shared connection and on one of its own: whether it is told of a
 refusal, whether it stays, and what its health shows.
 */
module FrameEffects {
  import opened Options
  import opened Health
  import opened HealthRuns
  import opened Json
  import opened Combiner
  import opened Routing
  import opened Dispatch
  import Backoff
  import Hub

  // ----- Refusals -----

  predicate EntersRejection<V>(v: View<V>, v': View<V>) {
    !v.health.status.Rejected? && v'.health.status.Rejected?
  }

  /** The errors that refuse the owner of an alias: its own if it has any, and the document's otherwise. */
  function Reasons(frame: Frame, targets: map<string, Target>, alias: string): seq<GraphQlError>
    requires !IsBroken(frame)
  {
    var errors := ErrorsOf(frame.errors);
    if |ErrorsAt(errors, alias)| > 0 then ErrorsAt(errors, alias) else DocumentErrors(errors, targets)
  }

  /** A refusal that takes effect is told at once if there is room, and otherwise makes the slot lag. */
  lemma RefusalIsTold<V>(v: View<V>, errors: seq<GraphQlError>, full: bool, now: Instant)
    ensures var v' := TakeRefusal(v, errors, full, now);
            && v'.moved == v.moved
            && (EntersRejection(v, v') <==> IsNewRefusal(v.health))
            && v'.sent == (if EntersRejection(v, v') && !full then v.sent + [Error(errors)] else v.sent)
            && v'.lagging == (v.lagging || (EntersRejection(v, v') && full))
  {}

  lemma ValueIsNoRefusal<V>(v: View<V>, value: V, full: bool, now: Instant)
    ensures var v' := TakeValue(v, value, full, now);
            && v'.moved == v.moved && v'.lagging == (v.lagging || full)
            && v'.sent == (if full then v.sent else v.sent + [Data(value)])
            && (v'.health.status.Rejected? ==> v.health.status.Rejected?)
  {}

  lemma ActivityIsNoRefusal<V>(v: View<V>, now: Instant)
    ensures var v' := TakeActivity(v, now);
            && v'.moved == v.moved && v'.sent == v.sent && v'.lagging == v.lagging
            && (v'.health.status.Rejected? ==> v.health.status.Rejected?)
    ensures Live(v, now) == v.(health := Live(v, now).health)
    ensures Live(v, now).health.status.Rejected? ==> v.health.status.Rejected?
  {}

  lemma GarbageIsNoRefusal<V>(v: View<V>, now: Instant)
    ensures TakeGarbage(v, now).sent == v.sent && TakeBroken(v, now).sent == v.sent
    ensures EntersRejection(v, TakeGarbage(v, now)) || EntersRejection(v, TakeBroken(v, now)) ==> false
  {}

  /**
   On the shared connection: a frame that takes a slot into a rejection tells it why, with the slot's own errors if it
   has any and those of the document otherwise, or makes it lag if its queue is full; no other frame tells it an error.
   */
  lemma RejectionsAreTold<V>(v: View<V>, frame: Frame, targets: map<string, Target>, alias: string,
                             decode: Json -> Option<V>, full: bool, now: Instant)
    requires alias in targets
    ensures var v' := TakeFrame(v, frame, targets, alias, decode, full, now);
            if EntersRejection(v, v') then
              && !IsBroken(frame)
              && v'.sent == (if full then v.sent else v.sent + [Error(Reasons(frame, targets, alias))])
              && (full ==> v'.lagging)
            else v'.sent == v.sent || exists value :: v'.sent == v.sent + [Data(value)]
  {
    hide DocumentErrors;
    hide ErrorsAt;
    hide TakeValue;
    hide TakeRefusal;
    hide Activity;
    hide Fail;
    if IsBroken(frame) {
      GarbageIsNoRefusal(v, now);
    } else if v.moved.None? {
      var outcome := OutcomeOf(frame, alias, targets[alias].field);
      var documentErrors := DocumentErrors(ErrorsOf(frame.errors), targets);
      RefusalIsTold(v, documentErrors, full, now);
      assert VerdictOn(frame, targets).Refused? ==> !outcome.Payload?;
      match outcome
      case Nothing =>
        ActivityIsNoRefusal(v, now);
      case Payload(payload) =>
        GarbageIsNoRefusal(v, now);
        if decode(payload).Some? {
          ValueIsNoRefusal(v, decode(payload).value, full, now);
          ActivityIsNoRefusal(TakeValue(v, decode(payload).value, full, now), now);
        }
      case Refusal(errors) =>
        RefusalIsTold(v, errors, full, now);
    }
    hide HasPayloads;
  }

  /** So it is on a connection of the slot's own, which waits for room. */
  lemma RejectionsAreToldAlone<V>(v: View<V>, frame: Frame, alias: string, target: Target, decode: Json -> Option<V>,
                                  now: Instant)
    ensures var v' := TakeFrameAlone(v, frame, alias, target, decode, now);
            if EntersRejection(v, v') then
              && !IsBroken(frame)
              && v'.sent == v.sent + [Error(Reasons(frame, map[alias := target], alias))]
            else v'.sent == v.sent || exists value :: v'.sent == v.sent + [Data(value)]
  {
    hide DocumentErrors;
    hide ErrorsAt;
    hide TakeValue;
    hide TakeRefusal;
    hide Activity;
    hide Fail;
    GarbageIsNoRefusal(v, now);
    if !IsBroken(frame) {
      var outcome := OutcomeOf(frame, alias, target.field);
      var documentErrors := DocumentErrors(ErrorsOf(frame.errors), map[alias := target]);
      RefusalIsTold(v, documentErrors, false, now);
      match outcome
      case Nothing =>
        ActivityIsNoRefusal(v, now);
      case Payload(payload) =>
        if decode(payload).Some? {
          ValueIsNoRefusal(v, decode(payload).value, false, now);
          ActivityIsNoRefusal(TakeValue(v, decode(payload).value, false, now), now);
        }
      case Refusal(errors) =>
        RefusalIsTold(v, errors, false, now);
        StaysRefused(v, errors, documentErrors, now);
        RefusalIsTold(TakeRefusal(v, errors, false, now), documentErrors, false, now);
    }
  }

  lemma StaysRefused<V>(v: View<V>, errors: seq<GraphQlError>, more: seq<GraphQlError>, now: Instant)
    ensures var refused := TakeRefusal(v, errors, false, now);
            && !IsNewRefusal(refused.health)
            && TakeRefusal(refused, more, false, now).health.status == refused.health.status
  {}

  // ----- Errors over a whole run -----

  /** What happens to a subscription whose queue has room. */
  datatype Happening =
    | SharedFrame(frame: Frame, targets: map<string, Target>, now: Instant)
    | OwnFrame(frame: Frame, now: Instant)
    | Elsewhere(event: Timed)

  /** It stays under its alias, and what happens elsewhere is no refusal. */
  predicate Fits(h: Happening, alias: string, target: Target) {
    && (h.SharedFrame? ==> alias in h.targets && h.targets[alias] == target)
    && (h.Elsewhere? ==> !h.event.event.RefusalSeen?)
  }

  ghost function Happen<V>(v: View<V>, h: Happening, alias: string, target: Target, decode: Json -> Option<V>): View<V>
    requires Fits(h, alias, target)
  {
    match h
    case SharedFrame(frame, targets, now) => TakeFrame(v, frame, targets, alias, decode, false, now)
    case OwnFrame(frame, now) => TakeFrameAlone(v, frame, alias, target, decode, now)
    case Elsewhere(event) => v.(health := Next(v.health, event))
  }

  /** The views a subscription goes through. */
  ghost predicate IsLife<V(!new)>(views: seq<View<V>>, happenings: seq<Happening>, alias: string, target: Target,
                                  decode: Json -> Option<V>)
  {
    && |views| == |happenings| + 1
    && forall i :: 0 <= i < |happenings| ==>
         Fits(happenings[i], alias, target) && views[i + 1] == Happen(views[i], happenings[i], alias, target, decode)
  }

  function Errors<V>(events: seq<SlotEvent<V>>): seq<SlotEvent<V>> {
    if |events| == 0 then []
    else Errors(events[..|events| - 1]) + (if events[|events| - 1].Error? then [events[|events| - 1]] else [])
  }

  /** How often the subscription enters a rejection before view `n`. */
  function Rejections<V>(views: seq<View<V>>, n: nat): nat
    requires n < |views|
  {
    if n == 0 then 0 else Rejections(views, n - 1) + (if EntersRejection(views[n - 1], views[n]) then 1 else 0)
  }

  lemma ErrorsMore<V>(events: seq<SlotEvent<V>>, e: SlotEvent<V>)
    ensures Errors(events + [e]) == Errors(events) + (if e.Error? then [e] else [])
  {
    assert (events + [e])[..|events|] == events;
  }

  lemma HappenTells<V(!new)>(v: View<V>, h: Happening, alias: string, target: Target, decode: Json -> Option<V>)
    requires Fits(h, alias, target)
    ensures var v' := Happen(v, h, alias, target, decode);
            if EntersRejection(v, v') then exists reasons :: v'.sent == v.sent + [Error(reasons)]
            else v'.sent == v.sent || exists value :: v'.sent == v.sent + [Data(value)]
  {
    var v' := Happen(v, h, alias, target, decode);
    match h
    case SharedFrame(frame, targets, now) =>
      RejectionsAreTold(v, frame, targets, alias, decode, false, now);
    case OwnFrame(frame, now) =>
      RejectionsAreToldAlone(v, frame, alias, target, decode, now);
    case Elsewhere(event) =>
      OthersDoNotRefuse(v.health, event);
  }

  lemma OthersDoNotRefuse(t: Tracker, event: Timed)
    requires !event.event.RefusalSeen?
    ensures Next(t, event).status.Rejected? ==> t.status.Rejected?
  {}

  /** Over any life, a subscription whose queue has room is told as many errors as it enters rejections. */
  lemma {:induction false} OneErrorPerRejection<V(!new)>(views: seq<View<V>>, happenings: seq<Happening>, alias: string,
                                                         target: Target, decode: Json -> Option<V>, n: nat)
    requires IsLife(views, happenings, alias, target, decode) && n <= |happenings|
    ensures |views| == |happenings| + 1
    ensures |Errors(views[n].sent)| == |Errors(views[0].sent)| + Rejections(views, n)
  {
    if n > 0 {
      OneErrorPerRejection(views, happenings, alias, target, decode, n - 1);
      var v, v' := views[n - 1], views[n];
      assert Fits(happenings[n - 1], alias, target) && v' == Happen(v, happenings[n - 1], alias, target, decode);
      HappenTells(v, happenings[n - 1], alias, target, decode);
      hide Happen;
      hide Fits;
      if v'.sent != v.sent {
        var e :| v'.sent == v.sent + [e] && (e.Error? <==> EntersRejection(v, v'));
        ErrorsMore(v.sent, e);
      }
      hide Errors;
    }
  }

  // ----- Staying, moving, lagging -----

  /**
   A slot leaves the shared connection if and only if its own part of a frame fails, for the cause that is recorded, and
   what finds its queue full is lost.
   */
  lemma SharedFrameMoves<V>(v: View<V>, frame: Frame, targets: map<string, Target>, alias: string,
                            decode: Json -> Option<V>, full: bool, now: Instant)
    requires alias in targets && v.moved.None? && !IsBroken(frame)
    ensures var outcome := OutcomeOf(frame, alias, targets[alias].field);
            var v' := TakeFrame(v, frame, targets, alias, decode, full, now);
            && (v'.moved.None? <==> outcome.Nothing? || Decodes(outcome, decode))
            && (v'.moved == Some(Hub.MalformedCause) <==> outcome.Payload? && !Decodes(outcome, decode))
            && (v'.moved == Some(Hub.RejectedCause) <==> outcome.Refusal?)
            && v'.lagging == (v.lagging || (full && (Decodes(outcome, decode) || EntersRejection(v, v'))))
            && v'.health.lagging == (v.health.lagging || (v'.lagging && !v.lagging))
  {
    var outcome := OutcomeOf(frame, alias, targets[alias].field);
    hide DocumentErrors;
    assert VerdictOn(frame, targets).Refused? ==> !outcome.Payload?;
    hide OutcomeOf;
    hide HasPayloads;
  }

  lemma RefusalShows<V>(v: View<V>, errors: seq<GraphQlError>, full: bool, now: Instant)
    ensures var v' := TakeRefusal(v, errors, full, now);
            && v'.moved == v.moved
            && v'.health.lastTransportActivity == v.health.lastTransportActivity
            && v'.health.lastUpdate == v.health.lastUpdate
            && v'.health.lastProblem == Some(if v'.lagging && !v.lagging then Lagged else GraphQl)
  {}

  lemma ValueShows<V>(v: View<V>, value: V, full: bool, now: Instant)
    ensures var v' := TakeValue(v, value, full, now);
            && v'.moved == v.moved
            && v'.health.lastUpdate == (if full then v.health.lastUpdate else Some(now))
            && v'.health.lastProblem == (if v'.lagging && !v.lagging then Some(Lagged) else v.health.lastProblem)
  {}

  lemma ActivityShows<V>(v: View<V>, now: Instant)
    ensures var v' := TakeActivity(v, now);
            && v' == v.(health := v'.health)
            && v'.health.lastTransportActivity
               == (if v.moved.None? then Some(now) else v.health.lastTransportActivity)
            && v'.health.lastUpdate == v.health.lastUpdate && v'.health.lastProblem == v.health.lastProblem
  {}

  lemma GarbageShows<V>(v: View<V>, now: Instant)
    ensures var v' := TakeGarbage(v, now);
            && v'.moved.Some? && v'.lagging == v.lagging
            && v'.health.lastTransportActivity == v.health.lastTransportActivity
            && v'.health.lastUpdate == v.health.lastUpdate && v'.health.lastProblem == Some(MalformedEvent)
  {}

  /**
   A frame that is accepted is a sign of life for whoever stays, and a payload an update if it is queued; what went
   wrong is remembered.
   */
  lemma SharedFrameShows<V>(v: View<V>, frame: Frame, targets: map<string, Target>, alias: string,
                            decode: Json -> Option<V>, full: bool, now: Instant)
    requires alias in targets && v.moved.None? && !IsBroken(frame)
    ensures var outcome := OutcomeOf(frame, alias, targets[alias].field);
            var v' := TakeFrame(v, frame, targets, alias, decode, full, now);
            && v'.health.lastTransportActivity
               == (if VerdictOn(frame, targets).Handled? && v'.moved.None? then Some(now)
                   else v.health.lastTransportActivity)
            && v'.health.lastUpdate == (if Decodes(outcome, decode) && !full then Some(now) else v.health.lastUpdate)
            && v'.health.lastProblem
               == (if v'.lagging && !v.lagging then Some(Lagged)
                   else if outcome.Payload? && !Decodes(outcome, decode) then Some(MalformedEvent)
                   else if outcome.Refusal? || VerdictOn(frame, targets).Refused? then Some(GraphQl)
                   else v.health.lastProblem)
  {
    var outcome := OutcomeOf(frame, alias, targets[alias].field);
    var documentErrors := DocumentErrors(ErrorsOf(frame.errors), targets);
    hide DocumentErrors;
    assert VerdictOn(frame, targets).Refused? ==> !outcome.Payload?;
    hide OutcomeOf;
    hide HasPayloads;
    RefusalShows(v, documentErrors, full, now);
    GarbageShows(v, now);
    var taken := TakeOutcome(v, outcome, decode, full, now);
    ActivityShows(taken, now);
    if Decodes(outcome, decode) {
      ValueShows(v, decode(outcome.value).value, full, now);
    }
    if outcome.Refusal? {
      RefusalShows(v, outcome.errors, full, now);
    }
    hide TakeValue;
    hide TakeRefusal;
    hide TakeActivity;
    hide TakeGarbage;
  }

  /** A broken frame is a failure of every slot that is on the connection, and says nothing else. */
  lemma BrokenFrameMeans<V>(v: View<V>, frame: Frame, targets: map<string, Target>, alias: string,
                            decode: Json -> Option<V>, full: bool, now: Instant)
    requires alias in targets && v.moved.None? && IsBroken(frame)
    ensures var v' := TakeFrame(v, frame, targets, alias, decode, full, now);
            && v' == v.(health := v'.health) && !v'.health.Works()
            && v'.health.lastProblem == Some(MalformedEvent)
            && v'.health.failures == SaturatingNext(v.health.failures, U32_MAX)
  {}

  ghost predicate HasNoPayload(frame: Frame, alias: string)
    requires !IsBroken(frame)
  {
    var members, errors := MembersOf(frame.data).value, ErrorsOf(frame.errors);
    !HasData(members, alias) && (alias in members ==> HasErrors(errors, alias))
  }

  /** A frame refuses everybody if and only if it has a payload for nobody and an error that starts at no alias. */
  lemma RefusesAllMeans(frame: Frame, targets: map<string, Target>)
    requires !IsBroken(frame)
    ensures VerdictOn(frame, targets).Refused?
       <==> && (exists error :: error in ErrorsOf(frame.errors) && StartsNowhere(error, targets))
            && forall alias :: alias in targets ==> HasNoPayload(frame, alias)
  {
    var members, errors := MembersOf(frame.data).value, ErrorsOf(frame.errors);
    var documentErrors := DocumentErrors(errors, targets);
    if |documentErrors| > 0 {
      ErrorIsNowhere(errors, targets, documentErrors[0]);
    }
    if error :| error in errors && StartsNowhere(error, targets) {
      ErrorIsNowhere(errors, targets, error);
    }
    hide DocumentErrors;
    hide StartsNowhere;
    forall alias | alias in targets
      ensures OutcomeOf(frame, alias, targets[alias].field).Payload? <==> !HasNoPayload(frame, alias)
    {
      SomeErrorsAt(errors, alias);
    }
    hide HasErrors;
    hide ErrorsAt;
    hide OutcomeOf;
  }

  /** On a connection of the slot's own the slot stays, and nothing is lost. */
  lemma OwnFrameKeeps<V>(v: View<V>, frame: Frame, alias: string, target: Target, decode: Json -> Option<V>,
                         now: Instant)
    ensures var v' := TakeFrameAlone(v, frame, alias, target, decode, now);
            v'.moved == v.moved && v'.lagging == v.lagging && v'.health.lagging == v.health.lagging
  {
    hide DocumentErrors;
    hide OutcomeOf;
  }

  /** A frame that is handled there is a sign of life, a payload an update, and what went wrong is remembered. */
  lemma OwnFrameShows<V>(v: View<V>, frame: Frame, alias: string, target: Target, decode: Json -> Option<V>,
                         now: Instant)
    ensures var v' := TakeFrameAlone(v, frame, alias, target, decode, now);
            var decodes := !IsBroken(frame) && Decodes(OutcomeOf(frame, alias, target.field), decode);
            && v'.health.lastTransportActivity
               == (if VerdictAlone(frame, alias, target, decode).Handled? then Some(now)
                   else v.health.lastTransportActivity)
            && v'.health.lastUpdate == (if decodes then Some(now) else v.health.lastUpdate)
            && v'.health.lastProblem
               == (match VerdictAlone(frame, alias, target, decode)
                   case Handled => v.health.lastProblem
                   case Malformed => Some(MalformedEvent)
                   case Refused => Some(GraphQl))
  {
    hide DocumentErrors;
    hide OutcomeOf;
    hide IsBroken;
  }

  // ----- What health is told -----

  /** The tracker once it was told of some events at the same time. */
  function Told(t: Tracker, events: seq<Event>, now: Instant): Tracker
    decreases |events|
  {
    if |events| == 0 then t else Told(Next(t, Timed(now, events[0])), events[1..], now)
  }

  /** A loss is told of the first time. */
  function LossOf<V>(v: View<V>, lost: bool): seq<Event> {
    if lost && !v.lagging then [LagSeen] else []
  }

  /** What a frame tells the health of a slot that is still on the shared connection. */
  ghost function SharedEvents<V>(v: View<V>, frame: Frame, targets: map<string, Target>, alias: string,
                                 decode: Json -> Option<V>, full: bool): seq<Event>
    requires alias in targets
  {
    if IsBroken(frame) then [ProblemSeen(MalformedEvent)]
    else match OutcomeOf(frame, alias, targets[alias].field)
      case Payload(payload) =>
        if decode(payload).None? then [ProblemSeen(MalformedEvent)]
        else if full then LossOf(v, true) + [KeepaliveOrEvent]
        else [KeepaliveOrEvent]
      case Refusal(_) => [RefusalSeen(GraphQl)] + LossOf(v, full && IsNewRefusal(v.health))
      case Nothing =>
        if VerdictOn(frame, targets).Refused? then [RefusalSeen(GraphQl)] + LossOf(v, full && IsNewRefusal(v.health))
        else [KeepaliveOrEvent]
  }

  /** An update is remembered besides. */
  function WithUpdate(t: Tracker, updated: bool, now: Instant): Tracker {
    if updated then t.(lastUpdate := Some(now)) else t
  }

  lemma ToldOne(t: Tracker, e: Event, now: Instant)
    ensures Told(t, [e], now) == Next(t, Timed(now, e))
  {
    assert Told(Next(t, Timed(now, e)), [e][1..], now) == Next(t, Timed(now, e));
    hide Next;
  }

  lemma ToldTwo(t: Tracker, e: Event, f: Event, now: Instant)
    ensures Told(t, [e] + [f], now) == Next(Next(t, Timed(now, e)), Timed(now, f))
    ensures Told(t, [e] + [], now) == Next(t, Timed(now, e))
    ensures Told(t, [] + [f], now) == Next(t, Timed(now, f))
  {
    ToldOne(Next(t, Timed(now, e)), f, now);
    ToldOne(t, e, now);
    ToldOne(t, f, now);
    assert ([e] + [f])[0] == e && ([e] + [f])[1..] == [f];
    assert [e] + [] == [e] && [] + [f] == [f];
    hide Next;
  }

  lemma RefusalTells<V>(v: View<V>, errors: seq<GraphQlError>, full: bool, now: Instant)
    ensures TakeRefusal(v, errors, full, now).health
         == Told(v.health, [RefusalSeen(GraphQl)] + LossOf(v, full && IsNewRefusal(v.health)), now)
  {
    ToldTwo(v.health, RefusalSeen(GraphQl), LagSeen, now);
    hide Told;
    hide Refuse;
    hide Lag;
  }

  lemma ValueTells<V>(v: View<V>, value: V, full: bool, now: Instant)
    requires v.moved.None?
    ensures TakeActivity(TakeValue(v, value, full, now), now).health
         == WithUpdate(Told(v.health, LossOf(v, full) + [KeepaliveOrEvent], now), !full, now)
  {
    ToldTwo(v.health, LagSeen, KeepaliveOrEvent, now);
    hide Told;
    hide Lag;
  }

  /**
   On the shared connection a frame tells the health of a slot that is still on it exactly this: of a malformed event,
   of a refusal, of a loss, or of a sign of life; so all that holds of health over runs of events holds of frames.
   */
  lemma SharedFrameTells<V>(v: View<V>, frame: Frame, targets: map<string, Target>, alias: string,
                            decode: Json -> Option<V>, full: bool, now: Instant)
    requires alias in targets && v.moved.None?
    ensures var decodes := !IsBroken(frame) && Decodes(OutcomeOf(frame, alias, targets[alias].field), decode);
            var told := Told(v.health, SharedEvents(v, frame, targets, alias, decode, full), now);
            TakeFrame(v, frame, targets, alias, decode, full, now).health == WithUpdate(told, decodes && !full, now)
  {
    ToldOne(v.health, ProblemSeen(MalformedEvent), now);
    ToldOne(v.health, KeepaliveOrEvent, now);
    if !IsBroken(frame) {
      var outcome := OutcomeOf(frame, alias, targets[alias].field);
      var documentErrors := DocumentErrors(ErrorsOf(frame.errors), targets);
      hide DocumentErrors;
      assert VerdictOn(frame, targets).Refused? ==> !outcome.Payload?;
      RefusalTells(v, documentErrors, full, now);
      if Decodes(outcome, decode) {
        ValueTells(v, decode(outcome.value).value, full, now);
        assert [] + [KeepaliveOrEvent] == [KeepaliveOrEvent];
      }
      if outcome.Refusal? {
        RefusalTells(v, outcome.errors, full, now);
        RefusalShows(v, outcome.errors, full, now);
      }
      hide OutcomeOf;
      hide HasPayloads;
    }
    hide Told;
    hide LossOf;
    hide TakeValue;
    hide TakeRefusal;
    hide Fail;
    hide Activity;
  }

  /** What a frame tells the health of a slot on a connection of its own. */
  function OwnEvents<V>(frame: Frame, alias: string, target: Target, decode: Json -> Option<V>): seq<Event> {
    if IsBroken(frame) then [ProblemSeen(MalformedEvent)]
    else
      var refusesAll := |DocumentErrors(ErrorsOf(frame.errors), map[alias := target])| > 0;
      match OutcomeOf(frame, alias, target.field)
      case Payload(payload) => if decode(payload).None? then [ProblemSeen(MalformedEvent)] else [KeepaliveOrEvent]
      case Refusal(_) => if refusesAll then [RefusalSeen(GraphQl), RefusalSeen(GraphQl)] else [RefusalSeen(GraphQl)]
      case Nothing => if refusesAll then [RefusalSeen(GraphQl)] else [KeepaliveOrEvent]
  }

  lemma OwnValueTells<V>(v: View<V>, value: V, now: Instant)
    ensures Live(TakeValue(v, value, false, now), now).health
         == WithUpdate(Told(v.health, [KeepaliveOrEvent], now), true, now)
  {
    ToldOne(v.health, KeepaliveOrEvent, now);
    hide Told;
  }

  lemma OwnRefusalTells<V>(v: View<V>, errors: seq<GraphQlError>, more: seq<GraphQlError>, now: Instant)
    ensures TakeRefusal(v, errors, false, now).health == Told(v.health, [RefusalSeen(GraphQl)], now)
    ensures TakeRefusal(TakeRefusal(v, errors, false, now), more, false, now).health
         == Told(v.health, [RefusalSeen(GraphQl), RefusalSeen(GraphQl)], now)
  {
    ToldOne(v.health, RefusalSeen(GraphQl), now);
    ToldTwo(v.health, RefusalSeen(GraphQl), RefusalSeen(GraphQl), now);
    assert [RefusalSeen(GraphQl)] + [RefusalSeen(GraphQl)] == [RefusalSeen(GraphQl), RefusalSeen(GraphQl)];
    hide Told;
    hide Refuse;
  }

  /** So it is on a connection of the slot's own. */
  lemma OwnFrameTells<V>(v: View<V>, frame: Frame, alias: string, target: Target, decode: Json -> Option<V>,
                         now: Instant)
    ensures var decodes := !IsBroken(frame) && Decodes(OutcomeOf(frame, alias, target.field), decode);
            var told := Told(v.health, OwnEvents(frame, alias, target, decode), now);
            TakeFrameAlone(v, frame, alias, target, decode, now).health == WithUpdate(told, decodes, now)
  {
    ToldOne(v.health, ProblemSeen(MalformedEvent), now);
    ToldOne(v.health, KeepaliveOrEvent, now);
    if !IsBroken(frame) {
      var outcome := OutcomeOf(frame, alias, target.field);
      var documentErrors := DocumentErrors(ErrorsOf(frame.errors), map[alias := target]);
      OwnRefusalTells(v, documentErrors, documentErrors, now);
      if Decodes(outcome, decode) {
        OwnValueTells(v, decode(outcome.value).value, now);
      }
      if outcome.Refusal? {
        OwnRefusalTells(v, outcome.errors, documentErrors, now);
      }
      hide OutcomeOf;
      hide DocumentErrors;
    }
    hide Told;
    hide TakeValue;
    hide TakeRefusal;
    hide Fail;
    hide Activity;
  }

  // ----- Malformed events in a row -----

  /** A run of frames on one shared connection, with its count of malformed events. */
  ghost predicate Counts<V(!new)>(slots: seq<map<SlotId, View<V>>>, frames: seq<Frame>, failures: seq<nat>,
                                  targets: map<string, Target>, decode: SlotId -> Json -> Option<V>)
  {
    && |slots| == |failures| == |frames| + 1 && failures[0] == 0
    && forall i :: 0 <= i < |frames| ==>
         failures[i + 1] == FailuresAfter(failures[i], slots[i], frames[i], targets, decode)
  }

  ghost predicate DecodesSomewhere<V(!new)>(slots: map<SlotId, View<V>>, frame: Frame, targets: map<string, Target>,
                                            decode: SlotId -> Json -> Option<V>)
  {
    !IsBroken(frame) && DecodesAny(slots, frame, targets, decode)
  }

  function BrokenAmong(frames: seq<Frame>): nat {
    if |frames| == 0 then 0
    else BrokenAmong(frames[..|frames| - 1]) + (if IsBroken(frames[|frames| - 1]) then 1 else 0)
  }

  lemma CountNext<V(!new)>(failures: nat, slots: map<SlotId, View<V>>, frame: Frame, targets: map<string, Target>,
                           decode: SlotId -> Json -> Option<V>)
    ensures FailuresAfter(failures, slots, frame, targets, decode)
         == if DecodesSomewhere(slots, frame, targets, decode) then 0
            else failures + (if IsBroken(frame) then 1 else 0)
  {
    if DecodesSomewhere(slots, frame, targets, decode) {
      var alias :| alias in targets && targets[alias].id in slots && slots[targets[alias].id].moved.None?
                   && Decodes(OutcomeOf(frame, alias, targets[alias].field), decode(targets[alias].id));
      assert OutcomeOf(frame, alias, targets[alias].field).Payload?;
    }
    hide OutcomeOf;
    hide DocumentErrors;
  }

  /** The wait counts the broken frames since a payload last decoded for a slot on the connection. */
  lemma {:induction false} WaitCountsBrokenFrames<V(!new)>(slots: seq<map<SlotId, View<V>>>, frames: seq<Frame>,
                                                           failures: seq<nat>, targets: map<string, Target>,
                                                           decode: SlotId -> Json -> Option<V>, j: nat, n: nat)
    requires Counts(slots, frames, failures, targets, decode) && j <= n <= |frames|
    requires |slots| == |failures| == |frames| + 1
    requires j > 0 ==> DecodesSomewhere(slots[j - 1], frames[j - 1], targets, decode)
    requires forall i :: j <= i < n ==> !DecodesSomewhere(slots[i], frames[i], targets, decode)
    ensures failures[n] == BrokenAmong(frames[j..n])
  {
    hide *;
    if j < n {
      CountsNext(slots, frames, failures, targets, decode, n - 1);
      WaitCountsBrokenFrames(slots, frames, failures, targets, decode, j, n - 1);
      BrokenNext(frames, j, n - 1);
    } else {
      CountsFromNone(slots, frames, failures, targets, decode, j);
    }
  }

  lemma CountsFromNone<V(!new)>(slots: seq<map<SlotId, View<V>>>, frames: seq<Frame>, failures: seq<nat>,
                                targets: map<string, Target>, decode: SlotId -> Json -> Option<V>, j: nat)
    requires Counts(slots, frames, failures, targets, decode) && j <= |frames|
    requires |slots| == |failures| == |frames| + 1
    requires j > 0 ==> DecodesSomewhere(slots[j - 1], frames[j - 1], targets, decode)
    ensures failures[j] == 0 && BrokenAmong(frames[j..j]) == 0
  {
    hide DecodesSomewhere;
    if j > 0 {
      CountsNext(slots, frames, failures, targets, decode, j - 1);
    }
    hide IsBroken;
    hide FailuresAfter;
  }

  lemma CountsNext<V(!new)>(slots: seq<map<SlotId, View<V>>>, frames: seq<Frame>, failures: seq<nat>,
                            targets: map<string, Target>, decode: SlotId -> Json -> Option<V>, i: nat)
    requires Counts(slots, frames, failures, targets, decode) && i < |frames|
    ensures |slots| == |failures| == |frames| + 1
    ensures failures[i + 1] == if DecodesSomewhere(slots[i], frames[i], targets, decode) then 0
                               else failures[i] + (if IsBroken(frames[i]) then 1 else 0)
  {
    assert failures[i + 1] == FailuresAfter(failures[i], slots[i], frames[i], targets, decode);
    hide FailuresAfter;
    hide DecodesSomewhere;
    CountNext(failures[i], slots[i], frames[i], targets, decode);
  }

  lemma BrokenNext(frames: seq<Frame>, j: nat, n: nat)
    requires j <= n < |frames|
    ensures BrokenAmong(frames[j..n + 1]) == BrokenAmong(frames[j..n]) + (if IsBroken(frames[n]) then 1 else 0)
  {
    assert frames[j..n + 1][..n - j] == frames[j..n];
    hide IsBroken;
  }
}
