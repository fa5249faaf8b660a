/**
 No silent loss: as long as an event that was dropped for a slot has not been made good by a snapshot that answers a
 resync request, something says so, and it is only ever passed on towards such a request.
 */
module Losses {
  import opened Health
  import opened HealthRuns
  import opened Hub
  import opened Protocol
  import opened Drivers
  import opened Lifecycle
  import opened Wakeups

  // ----- Connections carry registered slots -----

  ghost predicate KnownAt(s: State, t: Token, nextId: SlotId)
    requires t in s.sups
  {
    HasSlots(s.sups[t].pc) ==> forall id :: id in s.sups[t].pc.slots ==> id < nextId
  }

  ghost predicate AllKnown(s: State) {
    && (forall t :: t in s.sups ==> KnownAt(s, t, s.hub.nextId))
    && (forall id :: id in s.missed ==> id < s.hub.nextId)
  }

  // ----- Marks -----

  /** The call will set the slot's lag flag, or record its resync request. */
  predicate WillMark(call: Call, id: SlotId) {
    call == Flagging(id) || call == Resyncing(id)
  }

  ghost predicate MarkAhead(calls: map<Thread, Call>, id: SlotId) {
    exists th :: th in calls && WillMark(calls[th], id)
  }

  ghost predicate Marked(s: State, id: SlotId) {
    || id in s.lagging
    || (id in s.hub.slots && s.hub.slots[id].resync)
    || MarkAhead(s.calls, id)
  }

  /** Every loss of a registered slot is marked. */
  ghost predicate AllMarked(s: State) {
    forall id :: id in s.missed && id in s.hub.slots ==> Marked(s, id)
  }

  lemma MarkStaysAhead(calls: map<Thread, Call>, calls': map<Thread, Call>, th: Thread, id: SlotId)
    requires MarkAhead(calls, id)
    requires th in calls ==> !WillMark(calls[th], id)
    requires forall other :: other in calls && other != th ==> other in calls' && calls'[other] == calls[other]
    ensures MarkAhead(calls', id)
  {
    var ahead :| ahead in calls && WillMark(calls[ahead], id);
    assert ahead in calls' && WillMark(calls'[ahead], id);
  }

  /** Taking the lag flag, asking for a resync and setting the flag pass the mark on. */
  lemma MarkPassesOn(s: State, a: Action, id: SlotId)
    requires Enabled(s, a) && (a.TakeLag? || a.AskForResync? || a.Flag?)
    requires id in s.hub.slots && Marked(s, id)
    ensures Marked(Do(s, a), id)
  {
    OnlyOneThreadMoves(s, a);
    var s', th := Do(s, a), ThreadOf(s, a);
    if id in s.lagging || s.hub.slots[id].resync {
      assert a.TakeLag? ==> th in s'.calls && WillMark(s'.calls[th], a.id);
    } else {
      var ahead :| ahead in s.calls && WillMark(s.calls[ahead], id);
      if ahead != th {
        assert ahead in s'.calls && WillMark(s'.calls[ahead], id);
      }
    }
  }

  // ----- Steps that touch no mark -----

  /** Resync requests of the slots that stay are kept. */
  ghost predicate KeepsResyncs(h: HubState, h': HubState) {
    forall id :: id in h.slots && id in h'.slots && h.slots[id].resync ==> h'.slots[id].resync
  }

  lemma UpdateKeepsResyncs(h: HubState, scope: Scope, ids: set<SlotId>, event: Timed)
    ensures KeepsResyncs(h, UpdateHealth(h, scope, ids, event))
  {
    hide Next;
  }

  lemma StallKeepsResyncs(h: HubState, scope: Scope, threshold: Duration, now: Instant)
    ensures KeepsResyncs(h, MarkStalled(h, scope, threshold, now))
  {
    hide PastDeadline;
    hide Stall;
  }

  lemma SectionsKeepResyncs(h: HubState, id: SlotId, now: Instant, cause: Cause, created: Instant)
    requires forall other :: other in h.slots ==> other < h.nextId
    ensures KeepsResyncs(h, Remove(h, id, now)) && KeepsResyncs(h, MoveOff(h, id, cause))
    ensures KeepsResyncs(h, AskResync(h, id)) && KeepsResyncs(h, NextGeneration(h))
    ensures KeepsResyncs(h, Insert(h, New(created))) && KeepsResyncs(h, h)
  {}

  lemma StartKeepsResyncs(h: HubState, starts: map<Scope, Token>)
    ensures KeepsResyncs(h, StartAll(h, starts))
  {}

  lemma CallKeepsResyncs(s: State, a: Action)
    requires Enabled(s, a) && !a.Supervise? && forall other :: other in s.hub.slots ==> other < s.hub.nextId
    ensures KeepsResyncs(s.hub, Do(s, a).hub)
  {
    hide KeepsResyncs;
    hide UpdateHealth;
    hide StartAll;
    hide StartedBy;
    hide SpawnAll;
    hide Remove;
    hide MoveOff;
    hide NextGeneration;
    hide Insert;
    hide AskResync;
    SectionsKeepResyncs(s.hub, 0, 0, LaggedCause, 0);
    match a
    case Register(created) => SectionsKeepResyncs(s.hub, 0, 0, LaggedCause, created);
    case Drop(id, now) => SectionsKeepResyncs(s.hub, id, now, LaggedCause, 0);
    case AskForResync(th) => SectionsKeepResyncs(s.hub, s.calls[th].id, 0, LaggedCause, 0);
    case Isolate(th) => SectionsKeepResyncs(s.hub, s.calls[th].id, 0, s.calls[th].cause, 0);
    case Ensure(_, starts, _) => StartKeepsResyncs(s.hub, starts);
    case Report(th, now) => UpdateKeepsResyncs(s.hub, Shared, {s.calls[th].id}, Timed(now, LagSeen));
    case _ =>
  }

  lemma WorkKeepsResyncs(s: State, t: Token, work: Work)
    requires Free(s, t) && Ready(s, t, work) && !work.Snapshot?
    ensures KeepsResyncs(s.hub, AfterWork(s, t, work).hub)
  {
    hide Members;
    hide ReconnectNeeded;
    hide UpdateSlots;
    hide StallSlots;
    match work
    case Observe(ids, event) => UpdateKeepsResyncs(s.hub, s.scopes[t], ids, event);
    case Silence(threshold, now) => StallKeepsResyncs(s.hub, s.scopes[t], threshold, now);
    case _ =>
  }

  lemma MarkStays(s: State, s': State, th: Thread, id: SlotId)
    requires Marked(s, id) && id in s.hub.slots && id in s'.hub.slots
    requires s.lagging <= s'.lagging && KeepsResyncs(s.hub, s'.hub)
    requires th in s.calls ==> !WillMark(s.calls[th], id)
    requires forall other :: other in s.calls && other != th ==> other in s'.calls && s'.calls[other] == s.calls[other]
    ensures Marked(s', id)
  {
    if MarkAhead(s.calls, id) {
      MarkStaysAhead(s.calls, s'.calls, th, id);
    }
  }

  lemma CallKeepsMark(s: State, a: Action, id: SlotId)
    requires Enabled(s, a) && !a.Supervise? && !a.TakeLag? && !a.AskForResync? && !a.Flag?
    requires forall other :: other in s.hub.slots ==> other < s.hub.nextId
    requires id in s.hub.slots && id in Do(s, a).hub.slots && Marked(s, id)
    ensures Marked(Do(s, a), id)
  {
    CallKeepsResyncs(s, a);
    OnlyOneThreadMoves(s, a);
    LagFlagsStay(s, a);
    var th := ThreadOf(s, a);
    assert th in s.calls ==> !WillMark(s.calls[th], id);
    hide Do;
    hide Marked;
    hide KeepsResyncs;
    MarkStays(s, Do(s, a), th, id);
  }

  lemma LagFlagsStay(s: State, a: Action)
    requires Enabled(s, a) && !a.TakeLag? && !a.Supervise?
    ensures s.lagging <= Do(s, a).lagging
  {}

  /** A supervisor marks what it loses, and forgets only what its snapshot makes good. */
  lemma WorkKeepsMark(s: State, t: Token, work: Work, id: SlotId)
    requires Free(s, t) && Ready(s, t, work) && (id in s.missed ==> Marked(s, id)) && id in s.hub.slots
    requires id in AfterWork(s, t, work).missed && id in AfterWork(s, t, work).hub.slots
    ensures Marked(AfterWork(s, t, work), id)
  {
    var s' := AfterWork(s, t, work);
    if work.Snapshot? {
      SnapshotKeepsMark(s, t, id);
    } else {
      WorkKeepsResyncs(s, t, work);
      WorkFacts(s, t, work);
      if id in s.missed {
        hide AfterWork;
        hide Marked;
        hide KeepsResyncs;
        MarkStays(s, s', Supervisor(t), id);
      } else {
        assert Supervisor(t) in s'.calls && WillMark(s'.calls[Supervisor(t)], id);
      }
    }
  }

  lemma WorkFacts(s: State, t: Token, work: Work)
    requires Free(s, t) && Ready(s, t, work)
    ensures AfterWork(s, t, work).lagging == s.lagging
    ensures forall other :: other in s.calls ==>
              other in AfterWork(s, t, work).calls && AfterWork(s, t, work).calls[other] == s.calls[other]
    ensures !work.Snapshot? ==>
              AfterWork(s, t, work).missed == (if work.Lose? then s.missed + {work.id} else s.missed)
    ensures work.Lose? ==> Supervisor(t) in AfterWork(s, t, work).calls
                           && AfterWork(s, t, work).calls[Supervisor(t)] == Flagging(work.id)
  {
    hide Members;
    hide ReconnectNeeded;
    hide UpdateHealth;
    hide MarkStalled;
    hide TakeSnapshot;
    hide EndSlots;
  }

  lemma SnapshotKeepsMark(s: State, t: Token, id: SlotId)
    requires Free(s, t) && Ready(s, t, Snapshot) && id in s.hub.slots && Marked(s, id)
    requires id !in Replayed(s.hub, s.scopes[t])
    ensures Marked(AfterWork(s, t, Snapshot), id)
  {
    hide ReconnectNeeded;
    assert AfterWork(s, t, Snapshot).calls == s.calls;
  }

  // ----- Any step -----

  lemma KnownOwn(s: State, t: Token, work: Work)
    requires Free(s, t) && Ready(s, t, work) && KnownAt(s, t, s.hub.nextId) && !work.Release?
    requires OneDriverEach(s.hub, s.scopes, s.nextToken)
    ensures t in AfterWork(s, t, work).sups && KnownAt(AfterWork(s, t, work), t, s.hub.nextId)
  {
    assert PointsAt(s.hub, s.scopes[t], t);
    MembersAreKnown(s, s.scopes[t]);
    CarriesOwn(s, t, work);
    hide OneDriverEach;
    hide Members;
    hide AfterWork;
    hide Ready;
  }

  lemma KnownLater(s: State, s': State, t: Token, nextId: SlotId, nextId': SlotId)
    requires t in s.sups && t in s'.sups && s'.sups[t] == s.sups[t] && KnownAt(s, t, nextId) && nextId <= nextId'
    ensures KnownAt(s', t, nextId')
  {}

  lemma KnownSups(s: State, t: Token, work: Work, u: Token)
    requires Free(s, t) && Ready(s, t, work) && AllKnown(s)
    requires OneDriverEach(s.hub, s.scopes, s.nextToken) && u in AfterWork(s, t, work).sups
    ensures KnownAt(AfterWork(s, t, work), u, s.hub.nextId)
  {
    if work.Release? {
      ReleaseLeaves(s, t);
    } else {
      OthersStay(s, t, work);
      if u == t {
        KnownOwn(s, t, work);
      }
    }
    hide OneDriverEach;
    hide AfterWork;
    hide KnownAt;
    if u in s.sups && u != t {
      KnownLater(s, AfterWork(s, t, work), u, s.hub.nextId, s.hub.nextId);
    }
  }

  lemma KnownWork(s: State, t: Token, work: Work)
    requires Free(s, t) && Ready(s, t, work) && AllKnown(s)
    requires OneDriverEach(s.hub, s.scopes, s.nextToken)
    ensures AllKnown(AfterWork(s, t, work))
  {
    var s' := AfterWork(s, t, work);
    WorkShrinks(s, t, work);
    MissedIsKnown(s, t, work);
    hide OneDriverEach;
    hide AfterWork;
    hide Ready;
    hide KnownAt;
    forall u | u in s'.sups
      ensures KnownAt(s', u, s'.hub.nextId)
    {
      KnownSups(s, t, work, u);
    }
  }

  lemma MissedIsKnown(s: State, t: Token, work: Work)
    requires Free(s, t) && Ready(s, t, work) && AllKnown(s)
    ensures forall id :: id in AfterWork(s, t, work).missed ==> id < s.hub.nextId
  {
    MissedAfter(s, t, work);
    assert KnownAt(s, t, s.hub.nextId);
    hide AfterWork;
    hide Ready;
  }

  lemma MissedAfter(s: State, t: Token, work: Work)
    requires Free(s, t) && Ready(s, t, work)
    ensures forall id :: id in AfterWork(s, t, work).missed ==>
              id in s.missed || (HasSlots(s.sups[t].pc) && id in s.sups[t].pc.slots)
  {
    hide Members;
    hide Replayed;
    hide ReconnectNeeded;
    hide UpdateHealth;
    hide MarkStalled;
    hide TakeSnapshot;
    hide EndSlots;
  }

  lemma MembersAreKnown(s: State, scope: Scope)
    requires OneDriverEach(s.hub, s.scopes, s.nextToken)
    ensures forall id :: id in Members(s.hub, scope) ==> id < s.hub.nextId
  {}

  lemma SlotsAreKnown(s: State)
    requires OneDriverEach(s.hub, s.scopes, s.nextToken)
    ensures forall id :: id in s.hub.slots ==> id < s.hub.nextId
  {}

  lemma KnownCall(s: State, a: Action)
    requires Enabled(s, a) && !a.Supervise? && AllKnown(s)
    ensures AllKnown(Do(s, a))
  {
    OnlyOneThreadMoves(s, a);
    IdsGrow(s, a);
    if a.Ensure? {
      EnsureAddsSups(s, a);
    } else {
      CallsKeepSups(s, a);
    }
    hide Do;
    hide Enabled;
    hide ThreadOf;
  }

  lemma IdsGrow(s: State, a: Action)
    requires Enabled(s, a) && !a.Supervise?
    ensures s.hub.nextId <= Do(s, a).hub.nextId
    ensures forall id :: id < s.hub.nextId && id in Do(s, a).hub.slots ==> id in s.hub.slots
  {
    hide SpawnAll;
    hide StartedBy;
    hide Next;
  }

  lemma MarkedStep(s: State, a: Action, id: SlotId)
    requires Enabled(s, a) && AllKnown(s) && OneDriverEach(s.hub, s.scopes, s.nextToken) && AllMarked(s)
    requires id in Do(s, a).missed && id in Do(s, a).hub.slots
    ensures Marked(Do(s, a), id)
  {
    hide OneDriverEach;
    hide Do;
    hide Marked;
    hide AfterWork;
    SlotsAreKnown(s);
    if a.Supervise? {
      EnabledWork(s, a);
      WorkIs(s, a);
      WorkAddsNoSlot(s, a.token, a.work);
      WorkKeepsMark(s, a.token, a.work, id);
    } else {
      OnlyOneThreadMoves(s, a);
      IdsGrow(s, a);
      if a.TakeLag? || a.AskForResync? || a.Flag? {
        MarkPassesOn(s, a, id);
      } else {
        CallKeepsMark(s, a, id);
      }
    }
  }

  lemma WorkAddsNoSlot(s: State, t: Token, work: Work)
    requires Free(s, t) && Ready(s, t, work)
    ensures AfterWork(s, t, work).hub.slots.Keys <= s.hub.slots.Keys
  {
    WorkShrinks(s, t, work);
  }

  // ----- Runs -----

  /**
   No silent loss: in every state of every run, an event that was dropped for a registered slot and not made good since
   shows in the slot's lag flag or its resync request, or a thread is about to set one of them.
   */
  lemma {:induction false} NoSilentLoss(states: seq<State>, actions: seq<Action>, i: nat)
    requires IsHistory(states, actions) && i <= |actions|
    ensures |states| == |actions| + 1
    ensures AllKnown(states[i]) && AllMarked(states[i])
  {
    hide *;
    if i == 0 {
      MarkedAtFirst(states, actions);
    } else {
      HistoryStep(states, actions, i - 1);
      NoSilentLoss(states, actions, i - 1);
      NoDoubleDriver(states, actions, i - 1);
      KnownStep(states[i - 1], actions[i - 1]);
      MarkedAll(states[i - 1], actions[i - 1]);
    }
  }

  lemma MarkedAtFirst(states: seq<State>, actions: seq<Action>)
    requires IsHistory(states, actions)
    ensures |states| == |actions| + 1
    ensures AllKnown(states[0]) && AllMarked(states[0])
  {}

  lemma KnownStep(s: State, a: Action)
    requires Enabled(s, a) && AllKnown(s) && OneDriverEach(s.hub, s.scopes, s.nextToken)
    ensures AllKnown(Do(s, a))
  {
    hide OneDriverEach;
    hide AllKnown;
    hide Do;
    if a.Supervise? {
      EnabledWork(s, a);
      WorkIs(s, a);
      KnownWork(s, a.token, a.work);
    } else {
      KnownCall(s, a);
    }
  }

  lemma MarkedAll(s: State, a: Action)
    requires Enabled(s, a) && AllKnown(s) && OneDriverEach(s.hub, s.scopes, s.nextToken) && AllMarked(s)
    ensures AllMarked(Do(s, a))
  {
    hide Do;
    hide Enabled;
    hide Marked;
    hide OneDriverEach;
    forall id | id in Do(s, a).missed && id in Do(s, a).hub.slots
      ensures Marked(Do(s, a), id)
    {
      MarkedStep(s, a, id);
    }
  }

  /** A loss is forgotten only by a snapshot that answers a resync request of the slot. */
  lemma OnlyReplaysForgive(s: State, a: Action, id: SlotId)
    requires Enabled(s, a) && id in s.missed && id !in Do(s, a).missed
    ensures a.Supervise? && a.work.Snapshot? && id in Members(s.hub, s.scopes[a.token]) && s.hub.slots[id].resync
  {
    hide Do;
    if a.Supervise? {
      EnabledWork(s, a);
      WorkIs(s, a);
      WorkFacts(s, a.token, a.work);
    } else {
      OnlyOneThreadMoves(s, a);
    }
  }

  /**
   While no call is under way and every connection that carries the slot is up to date, a loss shows in the lag flag,
   which is the consumer's to take once it has drained its queue.
   */
  lemma LossesWaitForTheConsumer(states: seq<State>, actions: seq<Action>, i: nat, t: Token, id: SlotId)
    requires IsHistory(states, actions) && i < |states| && states[i].calls == map[]
    requires t in states[i].sups && t in states[i].scopes && states[i].sups[t].pc.Driving?
    requires states[i].sups[t].seen == states[i].version
    requires id in states[i].missed && id in Members(states[i].hub, states[i].scopes[t])
    ensures id in states[i].lagging
  {
    NoSilentLoss(states, actions, i);
    NoLostWakeup(states, actions, i, t);
    assert Marked(states[i], id);
    assert !Deserted(states[i].hub, states[i].scopes[t]);
    assert Serves(states[i].hub, states[i].scopes[t], states[i].sups[t].pc.slots);
  }
}
