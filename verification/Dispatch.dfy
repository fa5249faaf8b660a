/**
 What the frames of one shared connection do to the subscriptions on it: to the events each is sent, to its health, and
 to whether it stays on the connection.
 */
module Dispatch {
  import opened Options
  import opened Health
  import opened HealthRuns
  import opened Json
  import opened Combiner
  import opened Routing
  import Backoff
  import Hub

  datatype SlotEvent<+V> = Data(value: V) | Error(errors: seq<GraphQlError>)

  /** `sent` are all events that were ever queued for the slot. A slot that `moved` is no longer on the connection. */
  datatype View<+V> = View(sent: seq<SlotEvent<V>>, lagging: bool, health: Tracker, moved: Option<Hub.Cause>)

  /** What a frame makes the connection do. */
  datatype Verdict = Handled | Malformed | Refused

  // ----- One slot, one frame -----

  /** Queues an event, or drops it when the queue is full, which the first time shows in the slot's health. */
  function Offer<V>(v: View<V>, e: SlotEvent<V>, full: bool, now: Instant): View<V> {
    if !full then v.(sent := v.sent + [e])
    else if v.lagging then v
    else v.(lagging := true, health := Lag(v.health, now))
  }

  function TakeValue<V>(v: View<V>, value: V, full: bool, now: Instant): View<V> {
    var offered := Offer(v, Data(value), full, now);
    if full then offered else offered.(health := Next(offered.health, Timed(now, DataArrived(now))))
  }

  /** A payload that does not decode moves the slot to a connection of its own. */
  function TakeGarbage<V>(v: View<V>, now: Instant): View<V> {
    v.(health := Fail(v.health, now, MalformedEvent), moved := Some(Hub.MalformedCause))
  }

  /** A refusal is yielded if it is new. */
  function TakeRefusal<V>(v: View<V>, errors: seq<GraphQlError>, full: bool, now: Instant): View<V> {
    var refused := v.(health := Refuse(v.health, now, GraphQl));
    if IsNewRefusal(v.health) then Offer(refused, Error(errors), full, now) else refused
  }

  function TakeOutcome<V>(v: View<V>, outcome: Outcome, decode: Json -> Option<V>, full: bool, now: Instant): View<V> {
    if v.moved.Some? then v
    else match outcome
      case Nothing => v
      case Payload(payload) =>
        (match decode(payload)
         case Some(value) => TakeValue(v, value, full, now)
         case None => TakeGarbage(v, now))
      case Refusal(errors) => TakeRefusal(v, errors, full, now).(moved := Some(Hub.RejectedCause))
  }

  /** A sign of life, for whoever is still on the connection. */
  function TakeActivity<V>(v: View<V>, now: Instant): View<V> {
    if v.moved.Some? then v else v.(health := Activity(v.health, now, true))
  }

  function TakeDocumentErrors<V>(v: View<V>, errors: seq<GraphQlError>, full: bool, now: Instant): View<V> {
    if v.moved.Some? then v else TakeRefusal(v, errors, full, now)
  }

  function TakeBroken<V>(v: View<V>, now: Instant): View<V> {
    if v.moved.Some? then v else v.(health := Fail(v.health, now, MalformedEvent))
  }

  // ----- One frame -----

  /** Whether the frame carries a payload for a known alias. */
  ghost predicate HasPayloads(frame: Frame, targets: map<string, Target>)
    requires !IsBroken(frame)
  {
    exists alias :: alias in targets && OutcomeOf(frame, alias, targets[alias].field).Payload?
  }

  /** A frame with data, or without errors of the document, is accepted; one with only such errors refuses them all. */
  ghost function VerdictOn(frame: Frame, targets: map<string, Target>): Verdict {
    if IsBroken(frame) then Malformed
    else if HasPayloads(frame, targets) || |DocumentErrors(ErrorsOf(frame.errors), targets)| == 0 then Handled
    else Refused
  }

  /** What a frame does to the owner of an alias. */
  ghost function TakeFrame<V>(v: View<V>, frame: Frame, targets: map<string, Target>, alias: string,
                              decode: Json -> Option<V>, full: bool, now: Instant): View<V>
    requires alias in targets
  {
    match VerdictOn(frame, targets)
    case Malformed => TakeBroken(v, now)
    case Handled => TakeActivity(TakeOutcome(v, OutcomeOf(frame, alias, targets[alias].field), decode, full, now), now)
    case Refused =>
      TakeDocumentErrors(TakeOutcome(v, OutcomeOf(frame, alias, targets[alias].field), decode, full, now),
                         DocumentErrors(ErrorsOf(frame.errors), targets), full, now)
  }

  // ----- Many frames -----

  /** What the server says to one subscription, frame by frame. */
  ghost function OutcomesAt(frames: seq<Frame>, targets: map<string, Target>, alias: string): seq<Outcome>
    requires alias in targets
    requires forall i :: 0 <= i < |frames| ==> !IsBroken(frames[i])
  {
    seq(|frames|, i requires 0 <= i < |frames| => OutcomeOf(frames[i], alias, targets[alias].field))
  }

  /** The values a subscription is owed: its own payloads, decoded, up to the first that fails. */
  function Owed<V>(outcomes: seq<Outcome>, decode: Json -> Option<V>): seq<V> {
    if |outcomes| == 0 then []
    else match outcomes[0]
      case Nothing => Owed(outcomes[1..], decode)
      case Payload(payload) =>
        (match decode(payload)
         case Some(value) => [value] + Owed(outcomes[1..], decode)
         case None => [])
      case Refusal(_) => []
  }

  /** The values among the events of a slot. */
  function Values<V>(events: seq<SlotEvent<V>>): seq<V> {
    if |events| == 0 then []
    else
      var last := events[|events| - 1];
      Values(events[..|events| - 1]) + (if last.Data? then [last.value] else [])
  }

  /** The slot after the frames, none of which found its queue full. */
  ghost function TakeFrames<V>(v: View<V>, frames: seq<Frame>, targets: map<string, Target>, alias: string,
                               decode: Json -> Option<V>, now: Instant): View<V>
    requires alias in targets
    decreases |frames|
  {
    if |frames| == 0 then v
    else
      var v' := TakeFrame(v, frames[0], targets, alias, decode, false, now);
      TakeFrames(v', frames[1..], targets, alias, decode, now)
  }

  lemma ValuesMore<V>(events: seq<SlotEvent<V>>, e: SlotEvent<V>)
    ensures Values(events + [e]) == Values(events) + (if e.Data? then [e.value] else [])
  {
    assert (events + [e])[..|events|] == events;
  }

  /** What one accepted frame adds. */
  lemma TakeHandled<V>(v: View<V>, frame: Frame, targets: map<string, Target>, alias: string,
                       decode: Json -> Option<V>, now: Instant)
    requires alias in targets && VerdictOn(frame, targets).Handled? && v.moved.None?
    ensures var outcome := OutcomeOf(frame, alias, targets[alias].field);
            var v' := TakeFrame(v, frame, targets, alias, decode, false, now);
            match outcome
            case Nothing => v'.moved.None? && Values(v'.sent) == Values(v.sent)
            case Payload(payload) =>
              (match decode(payload)
               case Some(value) => v'.moved.None? && Values(v'.sent) == Values(v.sent) + [value]
               case None => v'.moved.Some? && Values(v'.sent) == Values(v.sent))
            case Refusal(errors) => v'.moved.Some? && Values(v'.sent) == Values(v.sent)
  {
    var outcome := OutcomeOf(frame, alias, targets[alias].field);
    hide Values;
    hide OutcomeOf;
    hide VerdictOn;
    match outcome
    case Nothing =>
    case Payload(payload) => if decode(payload).Some? { ValuesMore(v.sent, Data(decode(payload).value)); }
    case Refusal(errors) => ValuesMore(v.sent, Error(errors));
  }

  lemma TakeMoved<V>(v: View<V>, frame: Frame, targets: map<string, Target>, alias: string,
                     decode: Json -> Option<V>, now: Instant)
    requires alias in targets && v.moved.Some?
    ensures TakeFrame(v, frame, targets, alias, decode, false, now) == v
  {}

  lemma {:induction false} TakeMovedAll<V>(v: View<V>, frames: seq<Frame>, targets: map<string, Target>, alias: string,
                                           decode: Json -> Option<V>, now: Instant)
    requires alias in targets && v.moved.Some?
    ensures TakeFrames(v, frames, targets, alias, decode, now) == v
    decreases |frames|
  {
    if |frames| > 0 {
      TakeMoved(v, frames[0], targets, alias, decode, now);
      TakeMovedAll(v, frames[1..], targets, alias, decode, now);
    }
  }

  ghost predicate AllHandled(frames: seq<Frame>, targets: map<string, Target>) {
    forall i :: 0 <= i < |frames| ==> VerdictOn(frames[i], targets).Handled?
  }

  lemma HandledIsWhole(frames: seq<Frame>, targets: map<string, Target>)
    requires AllHandled(frames, targets)
    ensures forall i :: 0 <= i < |frames| ==> !IsBroken(frames[i])
  {
    forall i | 0 <= i < |frames|
      ensures !IsBroken(frames[i])
    {
      assert VerdictOn(frames[i], targets).Handled?;
    }
  }

  lemma RestHandled(frames: seq<Frame>, targets: map<string, Target>, alias: string)
    requires AllHandled(frames, targets) && |frames| > 0 && alias in targets
    ensures AllHandled(frames[1..], targets) && VerdictOn(frames[0], targets).Handled?
    ensures forall i :: 0 <= i < |frames| ==> !IsBroken(frames[i])
    ensures OutcomesAt(frames, targets, alias)[1..] == OutcomesAt(frames[1..], targets, alias)
    ensures OutcomesAt(frames, targets, alias)[0] == OutcomeOf(frames[0], alias, targets[alias].field)
  {
    HandledIsWhole(frames, targets);
    hide OutcomeOf;
    hide VerdictOn;
  }

  /**
   Faithful demultiplexing: whatever else the frames carry, a subscription whose queue has room is sent exactly the
   decoded payloads under its own alias, in the order of the frames, up to the first of its frames that fails.
   */
  lemma {:induction false} Demultiplexes<V>(v: View<V>, frames: seq<Frame>, targets: map<string, Target>, alias: string,
                                            decode: Json -> Option<V>, now: Instant)
    requires alias in targets && v.moved.None? && AllHandled(frames, targets)
    requires forall i :: 0 <= i < |frames| ==> !IsBroken(frames[i])
    ensures Values(TakeFrames(v, frames, targets, alias, decode, now).sent)
         == Values(v.sent) + Owed(OutcomesAt(frames, targets, alias), decode)
    decreases |frames|
  {
    if |frames| == 0 {
      assert Values(v.sent) + [] == Values(v.sent);
    } else {
      RestHandled(frames, targets, alias);
      TakeHandled(v, frames[0], targets, alias, decode, now);
      var v' := TakeFrame(v, frames[0], targets, alias, decode, false, now);
      var outcomes := OutcomesAt(frames, targets, alias);
      assert outcomes[0] == OutcomeOf(frames[0], alias, targets[alias].field);
      assert TakeFrames(v, frames, targets, alias, decode, now)
          == TakeFrames(v', frames[1..], targets, alias, decode, now);
      if v'.moved.Some? {
        TakeMovedAll(v', frames[1..], targets, alias, decode, now);
      } else {
        Demultiplexes(v', frames[1..], targets, alias, decode, now);
      }
      hide *;
      OwedNext(outcomes, decode, Values(v.sent), Values(v'.sent), v'.moved.Some?);
    }
  }

  /** The values owed come one by one, after those already sent. */
  lemma OwedNext<V>(outcomes: seq<Outcome>, decode: Json -> Option<V>, sent: seq<V>, sent': seq<V>, moved: bool)
    requires |outcomes| > 0
    requires match outcomes[0]
             case Nothing => !moved && sent' == sent
             case Payload(payload) =>
               (match decode(payload)
                case Some(value) => !moved && sent' == sent + [value]
                case None => moved && sent' == sent)
             case Refusal(errors) => moved && sent' == sent
    ensures sent + Owed(outcomes, decode) == if moved then sent' else sent' + Owed(outcomes[1..], decode)
  {}

  /** What siblings are told makes no difference to the values a subscription is sent. */
  lemma SiblingsDoNotMatter<V>(v: View<V>, frames: seq<Frame>, others: seq<Frame>, targets: map<string, Target>,
                               alias: string, decode: Json -> Option<V>, now: Instant)
    requires alias in targets && v.moved.None? && AllHandled(frames, targets) && AllHandled(others, targets)
    requires forall i :: 0 <= i < |frames| ==> !IsBroken(frames[i])
    requires forall i :: 0 <= i < |others| ==> !IsBroken(others[i])
    requires OutcomesAt(frames, targets, alias) == OutcomesAt(others, targets, alias)
    ensures Values(TakeFrames(v, frames, targets, alias, decode, now).sent)
         == Values(TakeFrames(v, others, targets, alias, decode, now).sent)
  {
    Demultiplexes(v, frames, targets, alias, decode, now);
    Demultiplexes(v, others, targets, alias, decode, now);
  }

  lemma RefusalSendsNoValue<V>(v: View<V>, errors: seq<GraphQlError>, full: bool, now: Instant)
    ensures Values(TakeRefusal(v, errors, full, now).sent) == Values(v.sent)
    ensures Values(TakeDocumentErrors(v, errors, full, now).sent) == Values(v.sent)
  {
    ValuesMore(v.sent, Error(errors));
    hide Values;
    hide Refuse;
    hide Lag;
  }

  lemma ValueIsSent<V>(v: View<V>, value: V, now: Instant)
    ensures Values(TakeValue(v, value, false, now).sent) == Values(v.sent) + [value]
  {
    ValuesMore(v.sent, Data(value));
    hide Values;
    hide Next;
  }

  /** A frame that ends the connection sends nobody a value. */
  lemma LastFrameSendsNoValue<V>(v: View<V>, frame: Frame, targets: map<string, Target>, alias: string,
                                 decode: Json -> Option<V>, full: bool, now: Instant)
    requires alias in targets && !VerdictOn(frame, targets).Handled?
    ensures Values(TakeFrame(v, frame, targets, alias, decode, full, now).sent) == Values(v.sent)
  {
    if !IsBroken(frame) {
      var outcome := OutcomeOf(frame, alias, targets[alias].field);
      assert !outcome.Payload?;
      var w := TakeOutcome(v, outcome, decode, full, now);
      hide OutcomeOf;
      if outcome.Refusal? {
        RefusalSendsNoValue(v, outcome.errors, full, now);
      }
      RefusalSendsNoValue(w, DocumentErrors(ErrorsOf(frame.errors), targets), full, now);
      hide TakeRefusal;
      hide TakeDocumentErrors;
    }
    hide Values;
    hide DocumentErrors;
    hide HasPayloads;
  }

  /** A frame sends a slot at most one event, and an error only if it takes the slot into a rejection. */
  lemma ErrorsBeginRejections<V>(v: View<V>, frame: Frame, targets: map<string, Target>, alias: string,
                                 decode: Json -> Option<V>, full: bool, now: Instant)
    requires alias in targets
    ensures var v' := TakeFrame(v, frame, targets, alias, decode, full, now);
            && v.sent <= v'.sent && |v'.sent| <= |v.sent| + 1
            && (|v'.sent| > |v.sent| && v'.sent[|v.sent|].Error? ==>
                  !v.health.status.Rejected? && v'.health.status.Rejected?)
  {
    hide OutcomeOf;
    hide DocumentErrors;
    assert !IsBroken(frame) && !HasPayloads(frame, targets) ==>
             !OutcomeOf(frame, alias, targets[alias].field).Payload?;
    hide HasPayloads;
  }

  // ----- The connection -----

  /** The slots, those in `ids` after `step`. */
  function Each<V>(slots: map<SlotId, View<V>>, ids: set<SlotId>, step: (SlotId, View<V>) -> View<V>)
    : map<SlotId, View<V>>
  {
    map id | id in slots :: if id in ids then step(id, slots[id]) else slots[id]
  }

  lemma EachNone<V>(slots: map<SlotId, View<V>>, step: (SlotId, View<V>) -> View<V>)
    ensures Each(slots, {}, step) == slots
  {}

  lemma EachNext<V>(slots: map<SlotId, View<V>>, ids: set<SlotId>, step: (SlotId, View<V>) -> View<V>, id: SlotId)
    requires id !in ids
    ensures Each(slots, ids + {id}, step)
         == (if id in slots then Each(slots, ids, step)[id := step(id, slots[id])] else Each(slots, ids, step))
    ensures Each(slots, ids, step).Keys == slots.Keys
    ensures id in slots ==> Each(slots, ids, step)[id] == slots[id]
  {}

  /** What a routed response says to a slot. */
  function OutcomeFor(r: Routed, id: SlotId): Outcome {
    if id in r.payloads then Payload(r.payloads[id])
    else if id in r.slotErrors then Refusal(r.slotErrors[id])
    else Nothing
  }

  function OutcomeStep<V>(r: Routed, decode: SlotId -> Json -> Option<V>, full: set<SlotId>, now: Instant)
    : (SlotId, View<V>) -> View<V>
  {
    (id: SlotId, v: View<V>) => TakeOutcome(v, OutcomeFor(r, id), decode(id), id in full, now)
  }

  function ActivityStep<V>(now: Instant): (SlotId, View<V>) -> View<V> {
    (id: SlotId, v: View<V>) => TakeActivity(v, now)
  }

  function DocumentStep<V>(errors: seq<GraphQlError>, full: set<SlotId>, now: Instant): (SlotId, View<V>) -> View<V> {
    (id: SlotId, v: View<V>) => TakeDocumentErrors(v, errors, id in full, now)
  }

  function BrokenStep<V>(now: Instant): (SlotId, View<V>) -> View<V> {
    (id: SlotId, v: View<V>) => TakeBroken(v, now)
  }

  function TargetIds(targets: map<string, Target>): set<SlotId> {
    set alias | alias in targets :: targets[alias].id
  }

  /** Every slot on the connection has taken the frame, and no other slot has changed. */
  ghost predicate Dispatched<V(!new)>(before: map<SlotId, View<V>>, after: map<SlotId, View<V>>, frame: Frame,
                                      targets: map<string, Target>, decode: SlotId -> Json -> Option<V>,
                                      full: set<SlotId>, now: Instant)
  {
    && after.Keys == before.Keys
    && (forall alias :: alias in targets && targets[alias].id in before ==>
          var id := targets[alias].id;
          after[id] == TakeFrame(before[id], frame, targets, alias, decode(id), id in full, now))
    && forall id :: id in before && id !in TargetIds(targets) ==> after[id] == before[id]
  }

  lemma EachAt<V>(slots: map<SlotId, View<V>>, ids: set<SlotId>, step: (SlotId, View<V>) -> View<V>, id: SlotId)
    requires id in slots
    ensures id in Each(slots, ids, step)
    ensures Each(slots, ids, step)[id] == if id in ids then step(id, slots[id]) else slots[id]
  {}

  /** The slots once payloads and errors are delivered. */
  function WithOutcomes<V>(slots: map<SlotId, View<V>>, r: Routed, decode: SlotId -> Json -> Option<V>,
                           full: set<SlotId>, now: Instant): map<SlotId, View<V>>
  {
    var step := OutcomeStep(r, decode, full, now);
    Each(Each(slots, r.payloads.Keys, step), r.slotErrors.Keys, step)
  }

  lemma OutcomeTaken<V>(slots: map<SlotId, View<V>>, r: Routed, decode: SlotId -> Json -> Option<V>,
                        full: set<SlotId>, now: Instant, id: SlotId, outcome: Outcome)
    requires id in slots && RoutesTo(r, id, outcome)
    ensures id in WithOutcomes(slots, r, decode, full, now)
    ensures WithOutcomes(slots, r, decode, full, now)[id]
         == TakeOutcome(slots[id], outcome, decode(id), id in full, now)
  {
    var step := OutcomeStep(r, decode, full, now);
    EachAt(slots, r.payloads.Keys, step, id);
    EachAt(Each(slots, r.payloads.Keys, step), r.slotErrors.Keys, step, id);
    hide Each;
    hide TakeValue;
    hide TakeGarbage;
    hide TakeRefusal;
  }

  lemma NotATarget(r: Routed, targets: map<string, Target>, id: SlotId)
    requires OnlyTargets(r.payloads.Keys, targets) && OnlyTargets(r.slotErrors.Keys, targets)
    requires id !in TargetIds(targets)
    ensures id !in r.payloads && id !in r.slotErrors
  {}

  lemma PayloadsAreRouted(frame: Frame, targets: map<string, Target>, r: Routed)
    requires !IsBroken(frame) && IsRouted(frame, targets, r)
    ensures r.payloads.Keys != {} <==> HasPayloads(frame, targets)
  {
    hide OutcomeAt;
    if id :| id in r.payloads {
      var alias :| alias in targets && targets[alias].id == id;
      assert RoutesTo(r, id, OutcomeOf(frame, alias, targets[alias].field));
    }
    if alias :| alias in targets && OutcomeOf(frame, alias, targets[alias].field).Payload? {
      assert RoutesTo(r, targets[alias].id, OutcomeOf(frame, alias, targets[alias].field));
    }
  }

  /** The last step of a frame that is not broken. */
  function LastStep<V>(r: Routed, full: set<SlotId>, now: Instant): (SlotId, View<V>) -> View<V> {
    if r.payloads.Keys != {} || |r.documentErrors| == 0 then ActivityStep(now)
    else DocumentStep(r.documentErrors, full, now)
  }

  lemma FrameTaken<V>(slots: map<SlotId, View<V>>, frame: Frame, targets: map<string, Target>, r: Routed,
                      decode: SlotId -> Json -> Option<V>, full: set<SlotId>, now: Instant, alias: string)
    requires !IsBroken(frame) && IsRouted(frame, targets, r) && alias in targets && targets[alias].id in slots
    ensures var id := targets[alias].id;
            var after := Each(WithOutcomes(slots, r, decode, full, now), TargetIds(targets), LastStep(r, full, now));
            id in after && after[id] == TakeFrame(slots[id], frame, targets, alias, decode(id), id in full, now)
  {
    var id, step := targets[alias].id, LastStep<V>(r, full, now);
    PayloadsAreRouted(frame, targets, r);
    assert RoutesTo(r, id, OutcomeOf(frame, alias, targets[alias].field));
    OutcomeTaken(slots, r, decode, full, now, id, OutcomeOf(frame, alias, targets[alias].field));
    EachAt(WithOutcomes(slots, r, decode, full, now), TargetIds(targets), step, id);
    assert id in TargetIds(targets);
    hide Each;
    hide WithOutcomes;
    hide TakeOutcome;
    hide TakeActivity;
    hide TakeDocumentErrors;
    hide RoutesTo;
    hide OutcomeOf;
    hide HasPayloads;
    hide TargetIds;
    hide OnlyTargets;
  }

  lemma OthersTakeNothing<V>(slots: map<SlotId, View<V>>, frame: Frame, targets: map<string, Target>, r: Routed,
                             decode: SlotId -> Json -> Option<V>, full: set<SlotId>, now: Instant, id: SlotId)
    requires !IsBroken(frame) && IsRouted(frame, targets, r) && id in slots && id !in TargetIds(targets)
    ensures var after := Each(WithOutcomes(slots, r, decode, full, now), TargetIds(targets), LastStep(r, full, now));
            id in after && after[id] == slots[id]
  {
    var step := OutcomeStep(r, decode, full, now);
    NotATarget(r, targets, id);
    EachAt(slots, r.payloads.Keys, step, id);
    EachAt(Each(slots, r.payloads.Keys, step), r.slotErrors.Keys, step, id);
    EachAt(WithOutcomes(slots, r, decode, full, now), TargetIds(targets), LastStep(r, full, now), id);
    hide Each;
    hide TargetIds;
    hide IsRouted;
  }

  lemma RoutedIsDispatched<V(!new)>(slots: map<SlotId, View<V>>, frame: Frame, targets: map<string, Target>, r: Routed,
                                    decode: SlotId -> Json -> Option<V>, full: set<SlotId>, now: Instant)
    requires !IsBroken(frame) && IsRouted(frame, targets, r)
    ensures var after := Each(WithOutcomes(slots, r, decode, full, now), TargetIds(targets), LastStep(r, full, now));
            Dispatched(slots, after, frame, targets, decode, full, now)
    ensures VerdictOn(frame, targets)
         == if r.payloads.Keys != {} || |r.documentErrors| == 0 then Handled else Refused
  {
    var after := Each(WithOutcomes(slots, r, decode, full, now), TargetIds(targets), LastStep(r, full, now));
    PayloadsAreRouted(frame, targets, r);
    forall alias | alias in targets && targets[alias].id in slots
      ensures var id := targets[alias].id;
              id in after && after[id] == TakeFrame(slots[id], frame, targets, alias, decode(id), id in full, now)
    {
      FrameTaken(slots, frame, targets, r, decode, full, now, alias);
    }
    forall id | id in slots && id !in TargetIds(targets)
      ensures id in after && after[id] == slots[id]
    {
      OthersTakeNothing(slots, frame, targets, r, decode, full, now, id);
    }
    assert after.Keys == slots.Keys;
    hide Each;
    hide WithOutcomes;
    hide TakeFrame;
    hide TargetIds;
  }

  lemma BrokenIsDispatched<V(!new)>(slots: map<SlotId, View<V>>, frame: Frame, targets: map<string, Target>,
                                    decode: SlotId -> Json -> Option<V>, full: set<SlotId>, now: Instant)
    requires IsBroken(frame)
    ensures Dispatched(slots, Each(slots, TargetIds(targets), BrokenStep(now)), frame, targets, decode, full, now)
  {
    hide TakeBroken;
  }

  // ----- The wait after malformed events -----

  /** The wait that is remembered after `failures` malformed events in a row. */
  function Remembered(cfg: Backoff.Config, failures: nat): Option<Backoff.Duration> {
    if failures == 0 then None else Some(Backoff.MalformedDelay(cfg, failures))
  }

  /** Whether a payload in the frame decodes for a slot that is still on the connection. */
  ghost predicate DecodesAny<V>(slots: map<SlotId, View<V>>, frame: Frame, targets: map<string, Target>,
                                decode: SlotId -> Json -> Option<V>)
    requires !IsBroken(frame)
  {
    exists alias :: alias in targets && targets[alias].id in slots && slots[targets[alias].id].moved.None?
                    && Decodes(OutcomeOf(frame, alias, targets[alias].field), decode(targets[alias].id))
  }

  predicate Decodes<V>(outcome: Outcome, decode: Json -> Option<V>) {
    outcome.Payload? && decode(outcome.value).Some?
  }

  /** How many malformed events in a row there are after the frame. */
  ghost function FailuresAfter<V>(failures: nat, slots: map<SlotId, View<V>>, frame: Frame,
                                  targets: map<string, Target>, decode: SlotId -> Json -> Option<V>): nat
  {
    match VerdictOn(frame, targets)
    case Malformed => failures + 1
    case Handled => if DecodesAny(slots, frame, targets, decode) then 0 else failures
    case Refused => failures
  }

  /** The shared connection, as it goes through its slots one by one. */
  class SharedConnection<V(!new)> {
    var slots: map<SlotId, View<V>>
    const targets: map<string, Target>
    const decode: SlotId -> Json -> Option<V>
    const cfg: Backoff.Config
    var malformedDelay: Option<Backoff.Duration>
    ghost var failures: nat

    ghost predicate Valid()
      reads this
    {
      OneAliasEach(targets) && malformedDelay == Remembered(cfg, failures)
    }

    constructor (slots: map<SlotId, View<V>>, targets: map<string, Target>, decode: SlotId -> Json -> Option<V>,
                 cfg: Backoff.Config)
      requires OneAliasEach(targets)
      ensures Valid() && failures == 0
      ensures this.slots == slots && this.targets == targets && this.decode == decode && this.cfg == cfg
    {
      this.slots, this.targets, this.decode, this.cfg := slots, targets, decode, cfg;
      malformedDelay, failures := None, 0;
    }

    /** Takes the slots in `ids`, as far as they are registered, one step further. */
    method UpdateEach(ids: set<SlotId>, step: (SlotId, View<V>) -> View<V>)
      modifies this`slots
      ensures slots == Each(old(slots), ids, step)
    {
      hide Each;
      ghost var before := slots;
      ghost var done: set<SlotId> := {};
      EachNone(before, step);
      var todo := ids;
      while todo != {}
        invariant done !! todo && done + todo == ids
        invariant slots == Each(before, done, step)
        decreases |todo|
      {
        var id :| id in todo;
        EachNext(before, done, step, id);
        if id in slots {
          slots := slots[id := step(id, slots[id])];
        }
        todo, done := todo - {id}, done + {id};
      }
      assert done == ids;
    }

    /** Whether one of the payloads decodes for a slot that is still on the connection. */
    method DecodedAny(payloads: map<SlotId, Json>) returns (any: bool)
      ensures any <==> exists id :: id in payloads && id in slots && slots[id].moved.None?
                                    && decode(id)(payloads[id]).Some?
    {
      any := false;
      var todo := payloads.Keys;
      while todo != {}
        invariant todo <= payloads.Keys
        invariant any <==> exists id :: id in payloads.Keys - todo && id in slots && slots[id].moved.None?
                                        && decode(id)(payloads[id]).Some?
        decreases |todo|
      {
        var id :| id in todo;
        any := any || (id in slots && slots[id].moved.None? && decode(id)(payloads[id]).Some?);
        todo := todo - {id};
      }
    }

    /** Routes one frame to the subscriptions that own the aliases it contains. */
    method Dispatch(frame: Frame, full: set<SlotId>, now: Instant) returns (verdict: Verdict)
      requires Valid()
      modifies this
      ensures Valid() && verdict == VerdictOn(frame, targets)
      ensures Dispatched(old(slots), slots, frame, targets, decode, full, now)
      ensures failures == FailuresAfter(old(failures), old(slots), frame, targets, decode)
    {
      hide Dispatched;
      hide Each;
      hide OneAliasEach;
      hide IsRouted;
      hide TargetIds;
      ghost var before := slots;
      var ids := TargetIds(targets);
      var routed := None;
      if frame.Response? {
        routed := Route(frame, targets);
      }
      if routed.None? {
        BrokenIsDispatched(before, frame, targets, decode, full, now);
        UpdateEach(ids, BrokenStep(now));
        CountMalformed();
        return Malformed;
      }
      var r := routed.value;
      RoutedIsDispatched(before, frame, targets, r, decode, full, now);
      DecodedIsRouted(before, frame, targets, r, decode);
      hide VerdictOn;
      hide DecodesAny;
      var decodedAny := DecodedAny(r.payloads);
      UpdateEach(r.payloads.Keys, OutcomeStep(r, decode, full, now));
      UpdateEach(r.slotErrors.Keys, OutcomeStep(r, decode, full, now));
      var hadPayloads := r.payloads.Keys != {};
      if hadPayloads || |r.documentErrors| == 0 {
        UpdateEach(ids, ActivityStep(now));
        if decodedAny {
          malformedDelay, failures := None, 0;
        }
        verdict := Handled;
      } else {
        UpdateEach(ids, DocumentStep(r.documentErrors, full, now));
        verdict := Refused;
      }
    }

    /** Another malformed event: the wait grows. */
    method CountMalformed()
      requires Valid()
      modifies this`malformedDelay, this`failures
      ensures Valid() && failures == old(failures) + 1
    {
      var delay, next := Backoff.NextMalformedEventDelay(cfg, malformedDelay);
      malformedDelay, failures := next, failures + 1;
    }
  }

  lemma DecodedIsRouted<V>(slots: map<SlotId, View<V>>, frame: Frame, targets: map<string, Target>, r: Routed,
                           decode: SlotId -> Json -> Option<V>)
    requires !IsBroken(frame) && IsRouted(frame, targets, r)
    ensures DecodesAny(slots, frame, targets, decode)
       <==> exists id :: id in r.payloads && id in slots && slots[id].moved.None? && decode(id)(r.payloads[id]).Some?
  {
    hide OutcomeAt;
    if alias :| alias in targets && targets[alias].id in slots && slots[targets[alias].id].moved.None?
                && Decodes(OutcomeOf(frame, alias, targets[alias].field), decode(targets[alias].id)) {
      var id := targets[alias].id;
      assert RoutesTo(r, id, OutcomeOf(frame, alias, targets[alias].field));
      assert id in r.payloads && decode(id)(r.payloads[id]).Some?;
    }
    if id :| id in r.payloads && id in slots && slots[id].moved.None? && decode(id)(r.payloads[id]).Some? {
      var alias :| alias in targets && targets[alias].id == id;
      assert RoutesTo(r, id, OutcomeOf(frame, alias, targets[alias].field));
      assert Decodes(OutcomeOf(frame, alias, targets[alias].field), decode(id));
    }
  }

  // ----- A connection of a slot's own -----

  /** What a frame makes of a connection that carries one slot: any failure of the slot makes it reconnect. */
  function VerdictAlone<V>(frame: Frame, alias: string, target: Target, decode: Json -> Option<V>): Verdict {
    if IsBroken(frame) then Malformed
    else match OutcomeOf(frame, alias, target.field)
      case Payload(payload) => if decode(payload).Some? then Handled else Malformed
      case Refusal(_) => Refused
      case Nothing =>
        if |DocumentErrors(ErrorsOf(frame.errors), map[alias := target])| == 0 then Handled else Refused
  }

  /** What a frame does to that slot. The connection waits for room, and the slot stays on it. */
  function TakeFrameAlone<V>(v: View<V>, frame: Frame, alias: string, target: Target, decode: Json -> Option<V>,
                             now: Instant): View<V>
  {
    if IsBroken(frame) then v.(health := Fail(v.health, now, MalformedEvent))
    else
      var documentErrors := DocumentErrors(ErrorsOf(frame.errors), map[alias := target]);
      match OutcomeOf(frame, alias, target.field)
      case Payload(payload) =>
        (match decode(payload)
         case Some(value) => Live(TakeValue(v, value, false, now), now)
         case None => v.(health := Fail(v.health, now, MalformedEvent)))
      case Refusal(errors) =>
        var refused := TakeRefusal(v, errors, false, now);
        if |documentErrors| == 0 then refused else TakeRefusal(refused, documentErrors, false, now)
      case Nothing => if |documentErrors| == 0 then Live(v, now) else TakeRefusal(v, documentErrors, false, now)
  }

  function Live<V>(v: View<V>, now: Instant): View<V> {
    v.(health := Activity(v.health, now, true))
  }

  class OwnConnection<V> {
    var slot: View<V>
    const alias: string
    const target: Target
    const decode: Json -> Option<V>
    const cfg: Backoff.Config
    var malformedDelay: Option<Backoff.Duration>
    ghost var failures: nat

    ghost predicate Valid()
      reads this
    {
      malformedDelay == Remembered(cfg, failures)
    }

    constructor (slot: View<V>, alias: string, target: Target, decode: Json -> Option<V>, cfg: Backoff.Config)
      ensures Valid() && failures == 0
      ensures this.slot == slot && this.alias == alias && this.target == target && this.decode == decode
      ensures this.cfg == cfg
    {
      this.slot, this.alias, this.target, this.decode, this.cfg := slot, alias, target, decode, cfg;
      malformedDelay, failures := None, 0;
    }

    /** Routes one frame to the subscription. */
    method Dispatch(frame: Frame, now: Instant) returns (verdict: Verdict)
      requires Valid()
      modifies this
      ensures Valid() && verdict == VerdictAlone(frame, alias, target, decode)
      ensures slot == TakeFrameAlone(old(slot), frame, alias, target, decode, now)
      ensures failures == if verdict.Malformed? then old(failures) + 1
                          else if !IsBroken(frame) && Decodes(OutcomeOf(frame, alias, target.field), decode) then 0
                          else old(failures)
    {
      var targets := map[alias := target];
      var routed := None;
      if frame.Response? {
        routed := Route(frame, targets);
      }
      if routed.None? {
        slot := slot.(health := Fail(slot.health, now, MalformedEvent));
        CountMalformed();
        return Malformed;
      }
      var r := routed.value;
      AloneIsRouted(frame, alias, target, r);
      hide IsRouted;
      hide OutcomeOf;
      hide DocumentErrors;
      var malformed, decodedAny, refused, failed := false, false, false, false;
      if target.id in r.payloads {
        var value := decode(r.payloads[target.id]);
        if value.Some? {
          decodedAny := true;
          slot := TakeValue(slot, value.value, false, now);
        } else {
          failed, malformed := true, true;
          slot := slot.(health := Fail(slot.health, now, MalformedEvent));
        }
      }
      if target.id in r.slotErrors {
        failed, refused := true, true;
        slot := TakeRefusal(slot, r.slotErrors[target.id], false, now);
      }
      var hadPayloads := r.payloads.Keys != {};
      if (hadPayloads || |r.documentErrors| == 0) && !failed {
        slot := Live(slot, now);
      }
      if |r.documentErrors| > 0 && !hadPayloads {
        slot := TakeRefusal(slot, r.documentErrors, false, now);
        return Refused;
      }
      if malformed {
        CountMalformed();
        return Malformed;
      }
      if decodedAny {
        malformedDelay, failures := None, 0;
      }
      return if refused then Refused else Handled;
    }

    /** Another malformed event: the wait grows. */
    method CountMalformed()
      requires Valid()
      modifies this`malformedDelay, this`failures
      ensures Valid() && failures == old(failures) + 1
    {
      var delay, next := Backoff.NextMalformedEventDelay(cfg, malformedDelay);
      malformedDelay, failures := next, failures + 1;
    }
  }

  lemma AloneIsRouted(frame: Frame, alias: string, target: Target, r: Routed)
    requires !IsBroken(frame) && IsRouted(frame, map[alias := target], r)
    ensures r.documentErrors == DocumentErrors(ErrorsOf(frame.errors), map[alias := target])
    ensures RoutesTo(r, target.id, OutcomeOf(frame, alias, target.field))
    ensures r.payloads.Keys != {} <==> target.id in r.payloads
  {
    var targets := map[alias := target];
    assert alias in targets && targets[alias] == target;
    if r.payloads.Keys != {} {
      var id :| id in r.payloads;
      var other :| other in targets && targets[other].id == id;
      assert other == alias;
    }
  }

  lemma OwedOne<V>(outcome: Outcome, decode: Json -> Option<V>)
    ensures Owed([outcome], decode) == if Decodes(outcome, decode) then [decode(outcome.value).value] else []
  {
    assert Owed([outcome][1..], decode) == [];
  }

  lemma AloneGoesOn<V>(v: View<V>, frame: Frame, alias: string, target: Target, decode: Json -> Option<V>, now: Instant)
    requires VerdictAlone(frame, alias, target, decode).Handled?
    ensures !IsBroken(frame)
    ensures Values(TakeFrameAlone(v, frame, alias, target, decode, now).sent)
         == Values(v.sent) + Owed([OutcomeOf(frame, alias, target.field)], decode)
  {
    var outcome := OutcomeOf(frame, alias, target.field);
    OwedOne(outcome, decode);
    hide OutcomeOf;
    hide Owed;
    hide Values;
    hide Activity;
    hide DocumentErrors;
    if outcome.Payload? {
      ValueIsSent(v, decode(outcome.value).value, now);
    }
    hide TakeValue;
    assert Values(v.sent) + [] == Values(v.sent);
  }

  lemma AloneFails<V>(v: View<V>, frame: Frame, alias: string, target: Target, decode: Json -> Option<V>, now: Instant)
    requires !VerdictAlone(frame, alias, target, decode).Handled?
    ensures Values(TakeFrameAlone(v, frame, alias, target, decode, now).sent) == Values(v.sent)
  {
    hide Values;
    hide Fail;
    if !IsBroken(frame) {
      var outcome := OutcomeOf(frame, alias, target.field);
      var documentErrors := DocumentErrors(ErrorsOf(frame.errors), map[alias := target]);
      hide OutcomeOf;
      hide DocumentErrors;
      RefusalSendsNoValue(v, documentErrors, false, now);
      if outcome.Refusal? {
        RefusalSendsNoValue(v, outcome.errors, false, now);
        RefusalSendsNoValue(TakeRefusal(v, outcome.errors, false, now), documentErrors, false, now);
      }
      hide TakeRefusal;
    }
  }

  /** How many frames such a connection handles before one makes it reconnect. */
  function HandledAlone<V>(frames: seq<Frame>, alias: string, target: Target, decode: Json -> Option<V>): (n: nat)
    ensures n <= |frames|
    decreases |frames|
  {
    if |frames| == 0 || !VerdictAlone(frames[0], alias, target, decode).Handled? then 0
    else 1 + HandledAlone(frames[1..], alias, target, decode)
  }

  /** What the frames do to the slot, up to the first that makes the connection reconnect. */
  function TakeFramesAlone<V>(v: View<V>, frames: seq<Frame>, alias: string, target: Target, decode: Json -> Option<V>,
                              now: Instant): View<V>
    decreases |frames|
  {
    if |frames| == 0 then v
    else
      var v' := TakeFrameAlone(v, frames[0], alias, target, decode, now);
      if VerdictAlone(frames[0], alias, target, decode).Handled? then
        TakeFramesAlone(v', frames[1..], alias, target, decode, now)
      else v'
  }

  /** What the first `n` frames say to the slot. */
  function OutcomesAlone(frames: seq<Frame>, n: nat, alias: string, target: Target): seq<Outcome>
    requires n <= |frames| && forall i :: 0 <= i < n ==> !IsBroken(frames[i])
  {
    seq(n, i requires 0 <= i < n => OutcomeOf(frames[i], alias, target.field))
  }

  /** A frame is handled if and only if it is whole, nothing in it fails for the slot, and it refuses nobody. */
  lemma HandledMeans<V>(frame: Frame, alias: string, target: Target, decode: Json -> Option<V>)
    ensures VerdictAlone(frame, alias, target, decode).Handled?
       <==> && !IsBroken(frame)
            && (Decodes(OutcomeOf(frame, alias, target.field), decode)
                || (OutcomeOf(frame, alias, target.field).Nothing?
                    && |DocumentErrors(ErrorsOf(frame.errors), map[alias := target])| == 0))
  {
    hide DocumentErrors;
  }

  lemma {:induction false} HandledAreWhole<V>(frames: seq<Frame>, alias: string, target: Target,
                                              decode: Json -> Option<V>)
    ensures forall i :: 0 <= i < HandledAlone(frames, alias, target, decode) ==>
              VerdictAlone(frames[i], alias, target, decode).Handled? && !IsBroken(frames[i])
    ensures var n := HandledAlone(frames, alias, target, decode);
            n < |frames| ==> !VerdictAlone(frames[n], alias, target, decode).Handled?
    decreases |frames|
  {
    if |frames| > 0 && VerdictAlone(frames[0], alias, target, decode).Handled? {
      HandledMeans(frames[0], alias, target, decode);
      HandledAreWhole(frames[1..], alias, target, decode);
      hide VerdictAlone;
      hide IsBroken;
      forall i | 0 <= i < HandledAlone(frames, alias, target, decode)
        ensures VerdictAlone(frames[i], alias, target, decode).Handled? && !IsBroken(frames[i])
      {
        if i > 0 {
          assert frames[i] == frames[1..][i - 1];
        }
      }
    }
  }

  lemma OwedFirst<V>(outcome: Outcome, rest: seq<Outcome>, decode: Json -> Option<V>)
    requires Decodes(outcome, decode) || outcome.Nothing?
    ensures Owed([outcome] + rest, decode) == Owed([outcome], decode) + Owed(rest, decode)
  {
    OwedOne(outcome, decode);
    assert ([outcome] + rest)[1..] == rest;
    assert [] + Owed(rest, decode) == Owed(rest, decode);
  }

  lemma OutcomesFirst(frames: seq<Frame>, n: nat, alias: string, target: Target)
    requires n < |frames| && forall i :: 0 <= i < n + 1 ==> !IsBroken(frames[i])
    ensures forall i :: 0 <= i < n ==> !IsBroken(frames[1..][i])
    ensures OutcomesAlone(frames, n + 1, alias, target)
         == [OutcomeOf(frames[0], alias, target.field)] + OutcomesAlone(frames[1..], n, alias, target)
  {
    hide OutcomeOf;
    hide IsBroken;
  }

  /**
   A connection of a slot's own goes on over any frames exactly until one of them fails, and until then sends the slot
   every payload of its own, decoded and in order; the frame that fails sends no value.
   */
  lemma {:induction false} AloneSendsUntilItFails<V>(v: View<V>, frames: seq<Frame>, alias: string, target: Target,
                                                     decode: Json -> Option<V>, now: Instant)
    ensures forall i :: 0 <= i < HandledAlone(frames, alias, target, decode) ==> !IsBroken(frames[i])
    ensures Values(TakeFramesAlone(v, frames, alias, target, decode, now).sent)
         == Values(v.sent)
            + Owed(OutcomesAlone(frames, HandledAlone(frames, alias, target, decode), alias, target), decode)
    decreases |frames|
  {
    HandledAreWhole(frames, alias, target, decode);
    var n := HandledAlone(frames, alias, target, decode);
    if n == 0 {
      assert Values(v.sent) + [] == Values(v.sent);
      if |frames| > 0 {
        AloneFails(v, frames[0], alias, target, decode, now);
      }
      hide Values;
      hide TakeFrameAlone;
      hide VerdictAlone;
    } else {
      var v', outcome := TakeFrameAlone(v, frames[0], alias, target, decode, now),
                         OutcomeOf(frames[0], alias, target.field);
      HandledMeans(frames[0], alias, target, decode);
      AloneGoesOn(v, frames[0], alias, target, decode, now);
      hide TakeFrameAlone;
      hide VerdictAlone;
      hide OutcomeOf;
      hide IsBroken;
      hide Values;
      hide Owed;
      hide DocumentErrors;
      AloneSendsUntilItFails(v', frames[1..], alias, target, decode, now);
      OutcomesFirst(frames, n - 1, alias, target);
      OwedFirst(outcome, OutcomesAlone(frames[1..], n - 1, alias, target), decode);
      Regroup(Values(v.sent), Owed([outcome], decode),
              Owed(OutcomesAlone(frames[1..], n - 1, alias, target), decode));
    }
  }

  lemma Regroup<V>(a: seq<V>, b: seq<V>, c: seq<V>)
    ensures a + b + c == a + (b + c)
  {}
}
