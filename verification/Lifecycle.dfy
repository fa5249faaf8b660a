/** How subscriptions come and go: under ids of their own, on one connection after the other, each ending once. */
module Lifecycle {
  import opened Health
  import opened HealthRuns
  import opened Hub
  import opened Protocol

  // ----- Trackers -----

  predicate Alive(t: Tracker) {
    Consistent(t) && !t.status.Ended?
  }

  /**
   Every id that was ever given out belongs either to a registered slot, which has not ended, or to a slot that left,
   which has.
   */
  ghost predicate AllAccounted(h: HubState) {
    && (forall id :: id in h.slots ==> id < h.nextId && id !in h.departed && Alive(h.slots[id].health))
    && (forall id :: id in h.departed ==> id < h.nextId && h.departed[id].status.Ended?)
    && (forall id :: 0 <= id < h.nextId ==> id in h.slots || id in h.departed)
  }

  lemma AliveStep(t: Tracker, e: Timed)
    requires Alive(t) && !e.event.Over?
    ensures Alive(Next(t, e))
  {
    ConsistentStep(t, e);
  }

  lemma UpdateAccounted(h: HubState, scope: Scope, ids: set<SlotId>, event: Timed)
    requires AllAccounted(h) && !event.event.Over?
    ensures AllAccounted(UpdateHealth(h, scope, ids, event))
  {
    hide Alive;
    hide Next;
    var h' := UpdateHealth(h, scope, ids, event);
    forall id | id in h'.slots
      ensures Alive(h'.slots[id].health)
    {
      AliveStep(h.slots[id].health, event);
    }
  }

  lemma StallAccounted(h: HubState, scope: Scope, threshold: Duration, now: Instant)
    requires AllAccounted(h)
    ensures AllAccounted(MarkStalled(h, scope, threshold, now))
  {
    hide Alive;
    hide Stall;
    var h' := MarkStalled(h, scope, threshold, now);
    forall id | id in h'.slots
      ensures Alive(h'.slots[id].health)
    {
      StallIsAlive(h.slots[id].health, now);
    }
  }

  lemma StallIsAlive(t: Tracker, now: Instant)
    requires Alive(t)
    ensures Alive(Stall(t, now)) && Alive(CatchUp(t))
  {}

  lemma SnapshotAccounted(h: HubState, scope: Scope)
    requires AllAccounted(h)
    ensures AllAccounted(TakeSnapshot(h, scope))
  {
    hide Alive;
    var h' := TakeSnapshot(h, scope);
    forall id | id in h'.slots
      ensures Alive(h'.slots[id].health)
    {
      StallIsAlive(h.slots[id].health, 0);
    }
  }

  lemma EndAccounted(h: HubState, ids: set<SlotId>, end: End, now: Instant)
    requires AllAccounted(h)
    ensures AllAccounted(EndSlots(h, ids, end, now))
  {}

  lemma StartAccounted(h: HubState, starts: map<Scope, Token>)
    requires AllAccounted(h)
    ensures AllAccounted(StartAll(h, starts))
  {}

  lemma WorkAccounted(s: State, t: Token, work: Work)
    requires Free(s, t) && Ready(s, t, work) && AllAccounted(s.hub)
    ensures AllAccounted(AfterWork(s, t, work).hub)
  {
    hide AllAccounted;
    hide UpdateHealth;
    hide MarkStalled;
    hide TakeSnapshot;
    hide EndSlots;
    hide Members;
    hide ReconnectNeeded;
    match work
    case Observe(ids, event) => UpdateAccounted(s.hub, s.scopes[t], ids, event);
    case Silence(threshold, now) => StallAccounted(s.hub, s.scopes[t], threshold, now);
    case Snapshot => SnapshotAccounted(s.hub, s.scopes[t]);
    case EndAll(now) => EndAccounted(s.hub, s.sups[t].pc.slots, s.sups[t].pc.end, now);
    case _ =>
  }

  lemma InsertAccounted(h: HubState, created: Instant)
    requires AllAccounted(h)
    ensures AllAccounted(Insert(h, New(created)))
  {}

  lemma RemoveAccounted(h: HubState, id: SlotId, now: Instant)
    requires AllAccounted(h)
    ensures AllAccounted(Remove(h, id, now))
  {}

  lemma SlotAccounted(h: HubState, id: SlotId, cause: Cause)
    requires AllAccounted(h)
    ensures AllAccounted(AskResync(h, id)) && AllAccounted(MoveOff(h, id, cause)) && AllAccounted(NextGeneration(h))
  {}

  lemma AccountedStep(s: State, a: Action)
    requires Enabled(s, a) && AllAccounted(s.hub)
    ensures AllAccounted(Do(s, a).hub)
  {
    hide AllAccounted;
    hide UpdateHealth;
    hide StartAll;
    hide StartedBy;
    hide AfterWork;
    hide Ready;
    hide Insert;
    hide Remove;
    hide AskResync;
    hide MoveOff;
    hide NextGeneration;
    match a
    case Register(created) => InsertAccounted(s.hub, created);
    case Drop(id, now) => RemoveAccounted(s.hub, id, now);
    case AskForResync(th) => SlotAccounted(s.hub, s.calls[th].id, LaggedCause);
    case Isolate(th) => SlotAccounted(s.hub, s.calls[th].id, s.calls[th].cause);
    case Bump(_) => SlotAccounted(s.hub, 0, LaggedCause);
    case Supervise(t, work) => WorkAccounted(s, t, work);
    case Ensure(_, starts, _) => StartAccounted(s.hub, starts);
    case Report(th, now) => UpdateAccounted(s.hub, Shared, {s.calls[th].id}, Timed(now, LagSeen));
    case _ =>
  }

  /**
   In every state of every run, no registered slot has an ended tracker, and every slot that left has one.
   */
  lemma {:induction false} RegisteredIffNotEnded(states: seq<State>, actions: seq<Action>, i: nat)
    requires IsHistory(states, actions) && i <= |actions|
    ensures |states| == |actions| + 1
    ensures AllAccounted(states[i].hub)
  {
    if i > 0 {
      hide *;
      HistoryStep(states, actions, i - 1);
      RegisteredIffNotEnded(states, actions, i - 1);
      AccountedStep(states[i - 1], actions[i - 1]);
    }
  }

  // ----- No way back -----

  /** What `h` settled stays settled in `h'`. */
  ghost predicate Settled(h: HubState, h': HubState) {
    && h.nextId <= h'.nextId
    && (forall id :: 0 <= id < h.nextId && id !in h.slots ==> id !in h'.slots)
    && (forall id :: id in h.departed ==> id in h'.departed && h'.departed[id] == h.departed[id])
    && (forall id :: id in h.slots && id in h'.slots && h.slots[id].isolated.Some? ==>
          h'.slots[id].isolated.Some? && h'.slots[id].isolated.value.cause == h.slots[id].isolated.value.cause)
  }

  lemma UpdateSettled(h: HubState, scope: Scope, ids: set<SlotId>, event: Timed)
    ensures Settled(h, UpdateHealth(h, scope, ids, event))
  {}

  lemma EndSettled(h: HubState, ids: set<SlotId>, end: End, now: Instant)
    requires AllAccounted(h)
    ensures Settled(h, EndSlots(h, ids, end, now))
  {}

  lemma StartSettled(h: HubState, starts: map<Scope, Token>)
    ensures Settled(h, StartAll(h, starts))
  {}

  lemma ScopedSettled(h: HubState, scope: Scope, threshold: Duration, now: Instant)
    ensures Settled(h, TakeSnapshot(h, scope)) && Settled(h, MarkStalled(h, scope, threshold, now))
  {}

  lemma WorkSettled(s: State, t: Token, work: Work)
    requires Free(s, t) && Ready(s, t, work) && AllAccounted(s.hub)
    ensures Settled(s.hub, AfterWork(s, t, work).hub)
  {
    hide UpdateHealth;
    hide MarkStalled;
    hide TakeSnapshot;
    hide EndSlots;
    hide Members;
    hide ReconnectNeeded;
    hide AllAccounted;
    match work
    case Observe(ids, event) => UpdateSettled(s.hub, s.scopes[t], ids, event);
    case Silence(threshold, now) => ScopedSettled(s.hub, s.scopes[t], threshold, now);
    case Snapshot => ScopedSettled(s.hub, s.scopes[t], 0, 0);
    case EndAll(now) => EndSettled(s.hub, s.sups[t].pc.slots, s.sups[t].pc.end, now);
    case _ =>
  }

  lemma InsertSettled(h: HubState, health: Tracker)
    requires AllAccounted(h)
    ensures Settled(h, Insert(h, health))
  {}

  lemma RemoveSettled(h: HubState, id: SlotId, now: Instant)
    requires AllAccounted(h)
    ensures Settled(h, Remove(h, id, now))
  {}

  lemma SlotSettled(h: HubState, id: SlotId, cause: Cause)
    ensures Settled(h, AskResync(h, id)) && Settled(h, MoveOff(h, id, cause)) && Settled(h, NextGeneration(h))
    ensures Settled(h, h)
  {}

  lemma SettledStep(s: State, a: Action)
    requires Enabled(s, a) && AllAccounted(s.hub)
    ensures Settled(s.hub, Do(s, a).hub)
  {
    hide Settled;
    hide AllAccounted;
    hide UpdateHealth;
    hide StartAll;
    hide StartedBy;
    hide AfterWork;
    hide Ready;
    hide Insert;
    hide Remove;
    hide AskResync;
    hide MoveOff;
    hide NextGeneration;
    SlotSettled(s.hub, 0, LaggedCause);
    match a
    case Register(created) => InsertSettled(s.hub, New(created));
    case Drop(id, now) => RemoveSettled(s.hub, id, now);
    case AskForResync(th) => SlotSettled(s.hub, s.calls[th].id, LaggedCause);
    case Isolate(th) => SlotSettled(s.hub, s.calls[th].id, s.calls[th].cause);
    case Ensure(_, starts, _) => StartSettled(s.hub, starts);
    case Report(th, now) => UpdateSettled(s.hub, Shared, {s.calls[th].id}, Timed(now, LagSeen));
    case Supervise(t, work) => WorkSettled(s, t, work);
    case _ =>
  }

  lemma SettledOnwards(a: HubState, b: HubState, c: HubState)
    requires Settled(a, b) && Settled(b, c) && AllAccounted(a) && AllAccounted(c)
    ensures Settled(a, c)
  {
    hide Alive;
    forall id | id in a.slots && id in c.slots
      ensures id in b.slots
    {
      assert id < b.nextId;
    }
  }

  /**
   No way back: over any stretch of any run, ids are not given out again, a slot that left does not return and keeps
   the end it came to, and a slot that moved to a connection of its own stays there.
   */
  lemma {:induction false} NothingReturns(states: seq<State>, actions: seq<Action>, i: nat, j: nat)
    requires IsHistory(states, actions) && i <= j <= |actions|
    ensures |states| == |actions| + 1
    ensures Settled(states[i].hub, states[j].hub)
    decreases j
  {
    hide *;
    RegisteredIffNotEnded(states, actions, i);
    if i == j {
      SlotSettled(states[i].hub, 0, LaggedCause);
    } else {
      HistoryStep(states, actions, j - 1);
      NothingReturns(states, actions, i, j - 1);
      RegisteredIffNotEnded(states, actions, j - 1);
      RegisteredIffNotEnded(states, actions, j);
      SettledStep(states[j - 1], actions[j - 1]);
      SettledOnwards(states[i].hub, states[j - 1].hub, states[j].hub);
    }
  }

  // ----- Who ends and who touches a subscription -----

  /**
   A slot leaves in one of two ways: its stream is dropped, which cancels it, or a stopped connection that listed it
   ends it for the reason that connection stopped.
   */
  lemma LeavesForItsReason(s: State, a: Action, id: SlotId)
    requires Enabled(s, a) && AllAccounted(s.hub) && id in s.hub.slots && id !in Do(s, a).hub.slots
    ensures id in Do(s, a).hub.departed
    ensures (a.Drop? && a.id == id && Do(s, a).hub.departed[id].status == Ended(Cancelled))
         || (a.Supervise? && a.work.EndAll? && id in s.sups[a.token].pc.slots
             && Do(s, a).hub.departed[id].status == Ended(s.sups[a.token].pc.end))
  {
    hide UpdateHealth;
    hide Do;
    if a.Supervise? && a.work.EndAll? {
      WorkIs(s, a);
    } else if a.Drop? {
      DropIs(s, a);
    } else {
      NobodyElseEnds(s, a);
    }
  }

  lemma WorkIs(s: State, a: Action)
    requires Enabled(s, a) && a.Supervise?
    ensures Do(s, a) == AfterWork(s, a.token, a.work)
  {}

  lemma DropIs(s: State, a: Action)
    requires Enabled(s, a) && a.Drop?
    ensures Do(s, a).hub == Remove(s.hub, a.id, a.now)
  {}

  lemma NobodyElseEnds(s: State, a: Action)
    requires Enabled(s, a) && !a.Drop? && !(a.Supervise? && a.work.EndAll?)
    ensures s.hub.slots.Keys <= Do(s, a).hub.slots.Keys
  {
    hide AfterWork;
    match a
    case Supervise(t, work) => WorkKeepsSlots(s, t, work);
    case _ =>
  }

  lemma WorkKeepsSlots(s: State, t: Token, work: Work)
    requires Free(s, t) && Ready(s, t, work) && !work.EndAll?
    ensures AfterWork(s, t, work).hub.slots.Keys == s.hub.slots.Keys
  {
    hide Members;
    hide ReconnectNeeded;
  }

  /**
   A supervisor touches no slot of another connection, nor, when it reports what came over its own connection, a
   sibling it does not list. (Ending slots is another matter: see `Wakeups.EndingTakesOnlyOwnSlots`.)
   */
  lemma OnlyOwnSlotsChange(s: State, t: Token, work: Work, id: SlotId)
    requires Free(s, t) && Ready(s, t, work) && !work.EndAll? && id in s.hub.slots
    requires !BelongsTo(id, s.hub.slots[id], s.scopes[t]) || (work.Observe? && id !in work.ids)
    ensures id in AfterWork(s, t, work).hub.slots && AfterWork(s, t, work).hub.slots[id] == s.hub.slots[id]
  {
    hide Members;
    hide ReconnectNeeded;
    hide Next;
  }
}
