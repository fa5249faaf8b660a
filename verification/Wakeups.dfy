/**
 No lost wakeup: a supervisor that waits on its connection, with nothing unread and nothing about to be published,
 carries exactly what its scope needs. The one exception is a slot that another connection ended after the slot had
 left it.
 */
module Wakeups {
  import opened Health
  import opened HealthRuns
  import opened Hub
  import opened Protocol
  import opened Drivers
  import opened Lifecycle

  // ----- Supervisors -----

  predicate HasSlots(pc: Pc) {
    !pc.Spawned? && !pc.Starting? && !pc.Preparing? && !pc.Exiting?
  }

  /** A supervisor of a slot's own connection deals with that slot only, and no connection stops by being cancelled. */
  predicate InPlace(scope: Scope, pc: Pc) {
    && (scope.Isolated? && HasSlots(pc) ==> pc.slots <= {scope.id})
    && (pc.Stopping? || pc.Ending? ==> !pc.end.Cancelled?)
  }

  ghost predicate AllInPlace(s: State) {
    && s.sups.Keys == s.scopes.Keys
    && forall t :: t in s.sups ==> s.sups[t].seen <= s.version && InPlace(s.scopes[t], s.sups[t].pc)
  }

  /** A supervisor changes no other supervisor. */
  lemma OthersStay(s: State, t: Token, work: Work)
    requires Free(s, t) && Ready(s, t, work) && !work.Release?
    ensures AfterWork(s, t, work).sups.Keys == s.sups.Keys
    ensures forall u :: u in s.sups && u != t ==> AfterWork(s, t, work).sups[u] == s.sups[u]
    ensures AfterWork(s, t, work).version == s.version && AfterWork(s, t, work).scopes == s.scopes
  {
    hide UpdateHealth;
    hide MarkStalled;
    hide TakeSnapshot;
    hide EndSlots;
    hide ReconnectNeeded;
    hide Members;
    hide Replayed;
  }

  /** The slots a supervisor carries next are of its scope, or those it carries already. */
  lemma CarriesOwn(s: State, t: Token, work: Work)
    requires Free(s, t) && Ready(s, t, work) && !work.Release?
    ensures t in AfterWork(s, t, work).sups
    ensures var pc, pc' := s.sups[t].pc, AfterWork(s, t, work).sups[t].pc;
            HasSlots(pc') ==>
              || (s.scopes[t].Isolated? && pc'.slots == {s.scopes[t].id})
              || pc'.slots == Members(s.hub, s.scopes[t])
              || (HasSlots(pc) && pc'.slots <= pc.slots)
  {
    hide Members;
    hide Replayed;
    hide ReconnectNeeded;
    hide UpdateHealth;
    hide MarkStalled;
    hide TakeSnapshot;
    hide EndSlots;
  }

  lemma ReadsTheLatest(s: State, t: Token, work: Work)
    requires Free(s, t) && Ready(s, t, work) && s.sups[t].seen <= s.version && !work.Release?
    ensures t in AfterWork(s, t, work).sups && AfterWork(s, t, work).sups[t].seen <= s.version
  {
    hide Ready;
    hide UpdateHealth;
    hide MarkStalled;
    hide TakeSnapshot;
    hide EndSlots;
    hide ReconnectNeeded;
    hide Members;
    hide Replayed;
  }

  lemma StopsForAReason(s: State, t: Token, work: Work)
    requires Free(s, t) && Ready(s, t, work) && InPlace(s.scopes[t], s.sups[t].pc) && !work.Release?
    ensures t in AfterWork(s, t, work).sups
    ensures var pc := AfterWork(s, t, work).sups[t].pc; pc.Stopping? || pc.Ending? ==> !pc.end.Cancelled?
  {
    hide UpdateHealth;
    hide MarkStalled;
    hide TakeSnapshot;
    hide EndSlots;
    hide ReconnectNeeded;
    hide Members;
    hide Replayed;
  }

  lemma InPlaceWork(s: State, t: Token, work: Work)
    requires Free(s, t) && Ready(s, t, work) && AllInPlace(s) && !work.Release?
    ensures t in AfterWork(s, t, work).sups && AfterWork(s, t, work).sups[t].seen <= s.version
    ensures InPlace(s.scopes[t], AfterWork(s, t, work).sups[t].pc)
  {
    assert s.sups[t].seen <= s.version && InPlace(s.scopes[t], s.sups[t].pc);
    ReadsTheLatest(s, t, work);
    StopsForAReason(s, t, work);
    CarriesOwn(s, t, work);
    OwnMembers(s.hub, s.scopes[t]);
    hide AfterWork;
    hide AllInPlace;
    hide Ready;
    hide Members;
  }

  /** The connection of one slot has at most that slot. */
  lemma OwnMembers(h: HubState, scope: Scope)
    ensures scope.Isolated? ==> Members(h, scope) <= {scope.id}
  {}

  lemma CallsKeepSups(s: State, a: Action)
    requires Enabled(s, a) && !a.Supervise? && !a.Ensure?
    ensures Do(s, a).sups == s.sups && Do(s, a).scopes == s.scopes
    ensures s.version <= Do(s, a).version
  {}

  lemma EnsureAddsSups(s: State, a: Action)
    requires Enabled(s, a) && a.Ensure?
    ensures Do(s, a).sups == s.sups + SpawnAll(a.starts.Values) && Do(s, a).scopes == s.scopes + StartedBy(a.starts)
    ensures Do(s, a).version == s.version
  {
    hide SpawnAll;
    hide StartedBy;
  }

  lemma ReleaseDropsSup(s: State, a: Action)
    requires Enabled(s, a) && a.Supervise? && a.work.Release?
    ensures Do(s, a).sups == s.sups - {a.token} && Do(s, a).scopes == s.scopes - {a.token}
    ensures Do(s, a).version == s.version
  {}

  lemma InPlaceStep(s: State, a: Action)
    requires Enabled(s, a) && AllInPlace(s)
    ensures AllInPlace(Do(s, a))
  {
    hide Do;
    hide Enabled;
    hide AfterWork;
    if a.Ensure? {
      EnsureAddsSups(s, a);
    } else if !a.Supervise? {
      CallsKeepSups(s, a);
    } else if a.work.Release? {
      ReleaseDropsSup(s, a);
    } else {
      WorkIs(s, a);
      EnabledWork(s, a);
      OthersStay(s, a.token, a.work);
      InPlaceWork(s, a.token, a.work);
    }
  }

  lemma EnabledWork(s: State, a: Action)
    requires Enabled(s, a) && a.Supervise?
    ensures Free(s, a.token) && Ready(s, a.token, a.work)
  {}

  // ----- Wakeups -----

  predicate Wakes(call: Call) {
    call.Bumping? || call.Sending?
  }

  /** A resync request is recorded and its slot about to move, which wakes the shared connection. */
  predicate MovesResync(h: HubState, call: Call) {
    call.Moving? && CanMove(h, call.id) && h.slots[call.id].resync
  }

  /** A thread has still to publish a generation. */
  ghost predicate WakeupAhead(s: State, scope: Scope) {
    exists th :: th in s.calls && (Wakes(s.calls[th]) || (scope == Shared && MovesResync(s.hub, s.calls[th])))
  }

  predicate Covers(pc: Pc) {
    pc.Prepared? || pc.Driving? || pc.Delivering?
  }

  /** Whether it is time to connect without waiting any longer: nobody is left, or somebody joined. */
  predicate WaitOver(h: HubState, scope: Scope, slots: set<SlotId>) {
    Members(h, scope) == {} || !(Members(h, scope) <= slots)
  }

  /** The connection a supervisor has, or waits to open again, no longer fits its scope. */
  predicate IsOutdated(h: HubState, scope: Scope, pc: Pc) {
    if pc.Waiting? then WaitOver(h, scope, pc.slots) else Covers(pc) && ReconnectNeeded(h, scope, pc.slots)
  }

  /** The slot of the connection was ended, but not because its stream was dropped. */
  predicate Deserted(h: HubState, scope: Scope) {
    && scope.Isolated? && scope.id !in h.slots && scope.id in h.departed
    && h.departed[scope.id].status.Ended? && !h.departed[scope.id].status.end.Cancelled?
  }

  /** A supervisor whose connection no longer serves its scope has something to read, or will have. */
  ghost predicate Informed(s: State, t: Token, orderly: bool)
    requires t in s.scopes && t in s.sups
  {
    IsOutdated(s.hub, s.scopes[t], s.sups[t].pc) ==>
      || s.sups[t].seen < s.version
      || WakeupAhead(s, s.scopes[t])
      || (!orderly && Deserted(s.hub, s.scopes[t]))
  }

  ghost predicate AllInformed(s: State, orderly: bool) {
    forall t :: t in s.scopes && t in s.sups ==> Informed(s, t, orderly)
  }

  /** A stopped connection ends only slots that are still on it. */
  ghost predicate IsOrderly(s: State, a: Action)
    requires Enabled(s, a)
  {
    a.Supervise? && a.work.EndAll? ==>
      forall id :: id in s.sups[a.token].pc.slots && id in s.hub.slots ==>
        BelongsTo(id, s.hub.slots[id], s.scopes[a.token])
  }

  // ----- What leaves a supervisor informed -----

  /** The scope has the same slots, and none of them has a new resync request. */
  ghost predicate SameNeeds(h: HubState, h': HubState, scope: Scope) {
    && Members(h', scope) == Members(h, scope)
    && forall id :: id in Members(h, scope) && h'.slots[id].resync ==> h.slots[id].resync
  }

  lemma SameNeedsSuffice(h: HubState, h': HubState, scope: Scope, pc: Pc)
    requires SameNeeds(h, h', scope) && IsOutdated(h', scope, pc)
    ensures IsOutdated(h, scope, pc)
  {}

  lemma StaysInformed(s: State, s': State, t: Token, orderly: bool)
    requires t in s.scopes && t in s.sups && Informed(s, t, orderly)
    requires t in s'.scopes && t in s'.sups && s'.scopes[t] == s.scopes[t] && s'.sups[t] == s.sups[t]
    requires s.version <= s'.version && SameNeeds(s.hub, s'.hub, s.scopes[t])
    requires WakeupAhead(s, s.scopes[t]) ==> WakeupAhead(s', s.scopes[t])
    requires Deserted(s.hub, s.scopes[t]) ==> Deserted(s'.hub, s.scopes[t])
    ensures Informed(s', t, orderly)
  {
    hide IsOutdated;
    hide WakeupAhead;
    hide SameNeeds;
    if IsOutdated(s'.hub, s.scopes[t], s.sups[t].pc) {
      SameNeedsSuffice(s.hub, s'.hub, s.scopes[t], s.sups[t].pc);
    }
  }

  lemma AheadInforms(s: State, t: Token, th: Thread, orderly: bool)
    requires t in s.scopes && t in s.sups && th in s.calls && Wakes(s.calls[th])
    ensures Informed(s, t, orderly)
  {}

  lemma UpdateNeedsSame(h: HubState, changed: Scope, ids: set<SlotId>, event: Timed, scope: Scope)
    ensures SameNeeds(h, UpdateHealth(h, changed, ids, event), scope)
  {
    hide Next;
  }

  lemma StallNeedsSame(h: HubState, changed: Scope, threshold: Duration, now: Instant, scope: Scope)
    ensures SameNeeds(h, MarkStalled(h, changed, threshold, now), scope)
  {
    hide PastDeadline;
    hide Stall;
  }

  lemma SnapshotNeedsSame(h: HubState, changed: Scope, scope: Scope)
    ensures SameNeeds(h, TakeSnapshot(h, changed), scope)
  {}

  lemma StartNeedsSame(h: HubState, starts: map<Scope, Token>, scope: Scope)
    ensures SameNeeds(h, StartAll(h, starts), scope)
  {}

  // ----- One step -----

  /** A thread that goes on, or returns, takes no wakeup with it unless it was about to publish. */
  lemma AheadStays(s: State, s': State, th: Thread, scope: Scope)
    requires WakeupAhead(s, scope) && s'.hub == s.hub
    requires th in s.calls ==> !Wakes(s.calls[th]) && !(scope == Shared && MovesResync(s.hub, s.calls[th]))
    requires forall other :: other in s.calls && other != th ==> other in s'.calls && s'.calls[other] == s.calls[other]
    ensures WakeupAhead(s', scope)
  {
    var ahead :| ahead in s.calls
                 && (Wakes(s.calls[ahead]) || (scope == Shared && MovesResync(s.hub, s.calls[ahead])));
    assert ahead in s'.calls && s'.calls[ahead] == s.calls[ahead];
  }

  lemma NothingChanges(h: HubState, scope: Scope)
    ensures SameNeeds(h, h, scope)
  {}

  /** A resync request is recorded. */
  lemma InformedResync(s: State, a: Action, t: Token, orderly: bool)
    requires Enabled(s, a) && a.AskForResync?
    requires OneDriverEach(s.hub, s.scopes, s.nextToken)
    requires t in s.scopes && t in s.sups && Informed(s, t, orderly)
    ensures t in Do(s, a).sups && t in Do(s, a).scopes && Informed(Do(s, a), t, orderly)
  {
    var s', th := Do(s, a), a.thread;
    var id := s.calls[th].id;
    if id !in s.hub.slots {
      NothingChanges(s.hub, s.scopes[t]);
      if WakeupAhead(s, s.scopes[t]) {
        AheadStays(s, s', th, s.scopes[t]);
      }
      StaysInformed(s, s', t, orderly);
    } else if !CanMove(s.hub, id) {
      AheadInforms(s', t, th, orderly);
    } else if s.scopes[t] == Shared {
      assert th in s'.calls && MovesResync(s'.hub, s'.calls[th]);
    } else {
      ElsewhereResync(s, s', th, id, t, orderly);
    }
  }

  /** Another slot's own connection does not care for a resync request on the shared connection. */
  lemma ElsewhereResync(s: State, s': State, th: Thread, id: SlotId, t: Token, orderly: bool)
    requires CanMove(s.hub, id) && th in s.calls && s.calls[th].Resyncing?
    requires OneDriverEach(s.hub, s.scopes, s.nextToken)
    requires t in s.scopes && t in s.sups && Informed(s, t, orderly) && s.scopes[t] != Shared
    requires s' == Go(s.(hub := AskResync(s.hub, id)), th, Moving(id, LaggedCause))
    ensures Informed(s', t, orderly)
  {
    assert PointsAt(s.hub, s.scopes[t], t);
    assert SameNeeds(s.hub, s'.hub, s.scopes[t]);
    if WakeupAhead(s, s.scopes[t]) {
      var ahead :| ahead in s.calls && Wakes(s.calls[ahead]);
      assert ahead in s'.calls && s'.calls[ahead] == s.calls[ahead];
    }
    StaysInformed(s, s', t, orderly);
  }

  /** A slot moves, which the thread will publish, or cannot move. */
  lemma InformedMove(s: State, a: Action, t: Token, orderly: bool)
    requires Enabled(s, a) && a.Isolate?
    requires t in s.scopes && t in s.sups && Informed(s, t, orderly)
    ensures t in Do(s, a).sups && t in Do(s, a).scopes && Informed(Do(s, a), t, orderly)
  {
    var s', th := Do(s, a), a.thread;
    if CanMove(s.hub, s.calls[th].id) {
      AheadInforms(s', t, th, orderly);
    } else {
      NothingChanges(s.hub, s.scopes[t]);
      if WakeupAhead(s, s.scopes[t]) {
        AheadStays(s, s', th, s.scopes[t]);
      }
      StaysInformed(s, s', t, orderly);
    }
  }

  /** A lag is flagged or taken. */
  lemma InformedLag(s: State, a: Action, t: Token, orderly: bool)
    requires Enabled(s, a) && (a.TakeLag? || a.Flag?)
    requires t in s.scopes && t in s.sups && Informed(s, t, orderly)
    ensures t in Do(s, a).sups && t in Do(s, a).scopes && Informed(Do(s, a), t, orderly)
  {
    var s', th := Do(s, a), if a.TakeLag? then Consumer(a.id) else a.thread;
    NothingChanges(s.hub, s.scopes[t]);
    if WakeupAhead(s, s.scopes[t]) {
      AheadStays(s, s', th, s.scopes[t]);
    }
    StaysInformed(s, s', t, orderly);
  }

  /** Trackers change. */
  lemma UpdateKeepsAhead(s: State, s': State, th: Thread, changed: Scope, ids: set<SlotId>, event: Timed, scope: Scope)
    requires WakeupAhead(s, scope) && s'.hub == UpdateHealth(s.hub, changed, ids, event)
    requires th in s.calls ==> s.calls[th].Reporting?
    requires forall other :: other in s.calls && other != th ==> other in s'.calls && s'.calls[other] == s.calls[other]
    ensures WakeupAhead(s', scope)
  {
    hide Next;
    var ahead :| ahead in s.calls
                 && (Wakes(s.calls[ahead]) || (scope == Shared && MovesResync(s.hub, s.calls[ahead])));
    assert ahead in s'.calls && s'.calls[ahead] == s.calls[ahead];
  }

  lemma InformedReport(s: State, a: Action, t: Token, orderly: bool)
    requires Enabled(s, a) && a.Report?
    requires t in s.scopes && t in s.sups && Informed(s, t, orderly)
    ensures t in Do(s, a).sups && t in Do(s, a).scopes && Informed(Do(s, a), t, orderly)
  {
    hide UpdateSlots;
    hide Informed;
    hide WakeupAhead;
    var s', th := Do(s, a), a.thread;
    var ids, event := {s.calls[th].id}, Timed(a.now, LagSeen);
    UpdateNeedsSame(s.hub, Shared, ids, event, s.scopes[t]);
    UpdateKeepsDeserted(s.hub, Shared, ids, event, s.scopes[t]);
    if WakeupAhead(s, s.scopes[t]) {
      UpdateKeepsAhead(s, s', th, Shared, ids, event, s.scopes[t]);
    }
    StaysInformed(s, s', t, orderly);
  }

  lemma UpdateKeepsDeserted(h: HubState, changed: Scope, ids: set<SlotId>, event: Timed, scope: Scope)
    ensures Deserted(h, scope) ==> Deserted(UpdateHealth(h, changed, ids, event), scope)
  {}

  lemma InformedSend(s: State, a: Action, t: Token, orderly: bool)
    requires Enabled(s, a) && a.Send? && AllInPlace(s)
    requires t in s.scopes && t in s.sups
    ensures t in Do(s, a).sups && t in Do(s, a).scopes && Informed(Do(s, a), t, orderly)
  {}

  /** The steps of streams and threads, except the start of supervisors. */
  lemma InformedCall(s: State, a: Action, t: Token, orderly: bool)
    requires Enabled(s, a) && !a.Supervise? && !a.Ensure?
    requires AllInPlace(s) && OneDriverEach(s.hub, s.scopes, s.nextToken)
    requires t in s.scopes && t in s.sups && Informed(s, t, orderly)
    ensures t in Do(s, a).scopes && t in Do(s, a).sups && Informed(Do(s, a), t, orderly)
  {
    hide Informed;
    hide AllInPlace;
    hide OneDriverEach;
    CallsKeepSups(s, a);
    match a
    case Register(_) => AheadInforms(Do(s, a), t, Consumer(s.hub.nextId), orderly);
    case Drop(id, _) => AheadInforms(Do(s, a), t, Consumer(id), orderly);
    case Bump(th) => AheadInforms(Do(s, a), t, th, orderly);
    case Send(th) => InformedSend(s, a, t, orderly);
    case AskForResync(_) => InformedResync(s, a, t, orderly);
    case Isolate(_) => InformedMove(s, a, t, orderly);
    case Report(_, _) => InformedReport(s, a, t, orderly);
    case _ => InformedLag(s, a, t, orderly);
  }

  /** Supervisors start. */
  lemma EnsureKeepsAhead(s: State, a: Action, scope: Scope)
    requires Enabled(s, a) && a.Ensure? && WakeupAhead(s, scope)
    ensures WakeupAhead(Do(s, a), scope)
  {
    var s' := Do(s, a);
    var ahead :| ahead in s.calls
                 && (Wakes(s.calls[ahead]) || (scope == Shared && MovesResync(s.hub, s.calls[ahead])));
    assert ahead in s'.calls && s'.calls[ahead] == s.calls[ahead];
  }

  /** A supervisor that was there before keeps its place. */
  lemma EnsureKeepsSup(s: State, a: Action, t: Token)
    requires Enabled(s, a) && a.Ensure? && AllInPlace(s) && OneDriverEach(s.hub, s.scopes, s.nextToken)
    requires t in Do(s, a).scopes && t !in a.starts.Values
    ensures t in s.scopes && t in s.sups && Do(s, a).scopes[t] == s.scopes[t] && Do(s, a).sups[t] == s.sups[t]
  {
    EnsureAddsSups(s, a);
    StartedHasScope(s.scopes, a.starts, t);
    hide OneDriverEach;
    hide Do;
    hide StartedBy;
  }

  lemma StartedIsSpawned(s: State, a: Action, t: Token)
    requires Enabled(s, a) && a.Ensure? && t in a.starts.Values
    ensures t in Do(s, a).sups && Do(s, a).sups[t].pc.Spawned?
  {
    EnsureAddsSups(s, a);
    hide Do;
    hide Enabled;
  }

  lemma SpawnedIsInformed(s: State, t: Token, orderly: bool)
    requires t in s.scopes && t in s.sups && s.sups[t].pc.Spawned?
    ensures Informed(s, t, orderly)
  {}

  lemma EnsureHub(s: State, a: Action)
    requires Enabled(s, a) && a.Ensure?
    ensures Do(s, a).hub == StartAll(s.hub, a.starts) && Do(s, a).version == s.version
  {
    hide StartAll;
  }

  lemma StartKeepsDeserted(h: HubState, starts: map<Scope, Token>, scope: Scope)
    ensures Deserted(h, scope) ==> Deserted(StartAll(h, starts), scope)
  {}

  lemma InformedEnsure(s: State, a: Action, t: Token, orderly: bool)
    requires Enabled(s, a) && a.Ensure? && AllInPlace(s) && OneDriverEach(s.hub, s.scopes, s.nextToken)
    requires t in Do(s, a).sups && t in Do(s, a).scopes
    requires t in s.scopes && t in s.sups ==> Informed(s, t, orderly)
    ensures Informed(Do(s, a), t, orderly)
  {
    hide Informed;
    hide Do;
    hide Enabled;
    hide AllInPlace;
    hide OneDriverEach;
    hide WakeupAhead;
    hide SameNeeds;
    hide Deserted;
    if t in a.starts.Values {
      StartedIsSpawned(s, a, t);
      SpawnedIsInformed(Do(s, a), t, orderly);
    } else {
      EnsureKeepsSup(s, a, t);
      EnsureHub(s, a);
      StartNeedsSame(s.hub, a.starts, s.scopes[t]);
      StartKeepsDeserted(s.hub, a.starts, s.scopes[t]);
      if WakeupAhead(s, s.scopes[t]) {
        EnsureKeepsAhead(s, a, s.scopes[t]);
      }
      StaysInformed(s, Do(s, a), t, orderly);
    }
  }

  // ----- One step of a supervisor -----

  lemma WaitOverIsNeed(h: HubState, scope: Scope, slots: set<SlotId>)
    requires WaitOver(h, scope, slots)
    ensures ReconnectNeeded(h, scope, slots)
  {}

  /** A supervisor that starts or goes on waiting does so only for slots that are the ones of its scope. */
  lemma WaitsForItsOwn(s: State, t: Token, work: Work)
    requires Free(s, t) && Ready(s, t, work) && (work.Start? || work.CheckWait?)
    ensures t in AfterWork(s, t, work).sups && AfterWork(s, t, work).hub == s.hub
    ensures !IsOutdated(s.hub, s.scopes[t], AfterWork(s, t, work).sups[t].pc)
  {
    var scope := s.scopes[t];
    if work.Start? && scope.Isolated? && scope.id in s.hub.slots {
      assert scope.id in Members(s.hub, scope);
      OwnMembers(s.hub, scope);
    }
    hide Members;
    hide ReconnectNeeded;
  }

  /** The supervisor itself goes on: its connection is not outdated by that, unless it was before. */
  lemma OutdatedBefore(s: State, t: Token, work: Work)
    requires Free(s, t) && Ready(s, t, work)
    requires !work.Release? && !work.Snapshot? && !work.Observe? && !work.Silence? && !work.EndAll?
    ensures t in AfterWork(s, t, work).sups && AfterWork(s, t, work).hub == s.hub
    ensures IsOutdated(s.hub, s.scopes[t], AfterWork(s, t, work).sups[t].pc) ==>
              IsOutdated(s.hub, s.scopes[t], s.sups[t].pc) && AfterWork(s, t, work).sups[t].seen == s.sups[t].seen
  {
    if work.Start? || work.CheckWait? {
      WaitsForItsOwn(s, t, work);
    } else if work.Reconnect? && WaitOver(s.hub, s.scopes[t], s.sups[t].pc.slots) {
      WaitOverIsNeed(s.hub, s.scopes[t], s.sups[t].pc.slots);
    }
    hide WaitOver;
    hide ReconnectNeeded;
    hide Members;
  }

  lemma InformedOwnWork(s: State, t: Token, work: Work, orderly: bool)
    requires Free(s, t) && Ready(s, t, work) && Informed(s, t, orderly)
    requires !work.Release? && !work.Snapshot? && !work.Observe? && !work.Silence? && !work.EndAll?
    ensures t in AfterWork(s, t, work).sups && t in AfterWork(s, t, work).scopes
    ensures Informed(AfterWork(s, t, work), t, orderly)
  {
    var s' := AfterWork(s, t, work);
    OutdatedBefore(s, t, work);
    OwnWorkKeeps(s, t, work);
    if WakeupAhead(s, s.scopes[t]) {
      AheadStays(s, s', Supervisor(t), s.scopes[t]);
    }
    hide AfterWork;
    hide Ready;
    hide IsOutdated;
    hide WakeupAhead;
  }

  lemma OwnWorkKeeps(s: State, t: Token, work: Work)
    requires Free(s, t) && Ready(s, t, work)
    requires !work.Release? && !work.Snapshot? && !work.Observe? && !work.Silence? && !work.EndAll?
    ensures AfterWork(s, t, work).scopes == s.scopes && AfterWork(s, t, work).version == s.version
  {
    hide Members;
    hide ReconnectNeeded;
  }

  /** The supervisor takes a snapshot, which is what its scope needs. */
  lemma InformedSnapshot(s: State, t: Token, orderly: bool)
    requires Free(s, t) && Ready(s, t, Snapshot)
    ensures t in AfterWork(s, t, Snapshot).sups && t in AfterWork(s, t, Snapshot).scopes
    ensures Informed(AfterWork(s, t, Snapshot), t, orderly)
  {
    var scope, slots := s.scopes[t], Members(s.hub, s.scopes[t]);
    if slots != {} {
      SnapshotServes(s.hub, scope);
    }
    hide ReconnectNeeded;
    hide TakeSnapshot;
    hide WakeupAhead;
    hide Members;
  }

  lemma SnapshotServes(h: HubState, scope: Scope)
    requires Members(h, scope) != {}
    ensures !ReconnectNeeded(TakeSnapshot(h, scope), scope, Members(h, scope))
  {
    assert Members(TakeSnapshot(h, scope), scope) == Members(h, scope);
    assert Members(h, scope) - Members(h, scope) == {};
  }

  /** Some supervisor changes trackers. */
  lemma InformedTrackers(s: State, u: Token, work: Work, t: Token, orderly: bool)
    requires Free(s, u) && Ready(s, u, work) && (work.Observe? || work.Silence?)
    requires t in s.scopes && t in s.sups && Informed(s, t, orderly)
    ensures t in AfterWork(s, u, work).sups && t in AfterWork(s, u, work).scopes
    ensures Informed(AfterWork(s, u, work), t, orderly)
  {
    hide Informed;
    hide UpdateSlots;
    hide StallSlots;
    hide WakeupAhead;
    var s', scope := AfterWork(s, u, work), s.scopes[t];
    if work.Observe? {
      UpdateNeedsSame(s.hub, s.scopes[u], work.ids, work.event, scope);
      UpdateKeepsDeserted(s.hub, s.scopes[u], work.ids, work.event, scope);
      if WakeupAhead(s, scope) {
        UpdateKeepsAhead(s, s', Supervisor(u), s.scopes[u], work.ids, work.event, scope);
      }
    } else {
      StallNeedsSame(s.hub, s.scopes[u], work.threshold, work.now, scope);
      StallKeepsDeserted(s.hub, s.scopes[u], work.threshold, work.now, scope);
      if WakeupAhead(s, scope) {
        StallKeepsAhead(s, s', s.scopes[u], work.threshold, work.now, scope);
      }
    }
    StaysInformed(s, s', t, orderly);
  }

  lemma StallKeepsDeserted(h: HubState, changed: Scope, threshold: Duration, now: Instant, scope: Scope)
    ensures Deserted(h, scope) ==> Deserted(MarkStalled(h, changed, threshold, now), scope)
  {}

  lemma StallKeepsAhead(s: State, s': State, changed: Scope, threshold: Duration, now: Instant, scope: Scope)
    requires WakeupAhead(s, scope) && s'.hub == MarkStalled(s.hub, changed, threshold, now) && s'.calls == s.calls
    ensures WakeupAhead(s', scope)
  {
    hide PastDeadline;
    hide Stall;
    var ahead :| ahead in s.calls
                 && (Wakes(s.calls[ahead]) || (scope == Shared && MovesResync(s.hub, s.calls[ahead])));
    assert ahead in s'.calls && s'.calls[ahead] == s.calls[ahead];
  }

  /** Another supervisor goes on without touching slots. */
  lemma InformedOtherWork(s: State, u: Token, work: Work, t: Token, orderly: bool)
    requires Free(s, u) && Ready(s, u, work) && t != u
    requires t in s.scopes && t in s.sups && Informed(s, t, orderly)
    requires !work.Snapshot? && !work.Observe? && !work.Silence? && !work.EndAll?
    ensures t in AfterWork(s, u, work).sups && t in AfterWork(s, u, work).scopes
    ensures Informed(AfterWork(s, u, work), t, orderly)
  {
    hide ReconnectNeeded;
    hide Members;
    var s' := AfterWork(s, u, work);
    NothingChanges(s.hub, s.scopes[t]);
    if WakeupAhead(s, s.scopes[t]) {
      AheadStays(s, s', Supervisor(u), s.scopes[t]);
    }
    hide WakeupAhead;
    StaysInformed(s, s', t, orderly);
  }

  /** Another supervisor takes a snapshot of its own scope. */
  lemma InformedOtherSnapshot(s: State, u: Token, t: Token, orderly: bool)
    requires Free(s, u) && Ready(s, u, Snapshot) && t != u && OneDriverEach(s.hub, s.scopes, s.nextToken)
    requires t in s.scopes && t in s.sups && Informed(s, t, orderly)
    ensures t in AfterWork(s, u, Snapshot).sups && t in AfterWork(s, u, Snapshot).scopes
    ensures Informed(AfterWork(s, u, Snapshot), t, orderly)
  {
    var s' := AfterWork(s, u, Snapshot);
    SnapshotNeedsSame(s.hub, s.scopes[u], s.scopes[t]);
    if WakeupAhead(s, s.scopes[t]) {
      var ahead :| ahead in s.calls && (Wakes(s.calls[ahead])
                                        || (s.scopes[t] == Shared && MovesResync(s.hub, s.calls[ahead])));
      assert s'.calls == s.calls;
      assert PointsAt(s.hub, s.scopes[u], u);
      assert Wakes(s.calls[ahead]) || MovesResync(s'.hub, s'.calls[ahead]);
    }
    hide ReconnectNeeded;
    hide WakeupAhead;
    StaysInformed(s, s', t, orderly);
  }

  // ----- The end of a connection -----

  /** Whether a stopped connection would end a slot that has left it and that another supervisor serves. */
  ghost predicate TakesFrom(s: State, u: Token, id: SlotId)
    requires u in s.sups && u in s.scopes && s.sups[u].pc.Ending?
  {
    && id in s.sups[u].pc.slots && id in s.hub.slots && !BelongsTo(id, s.hub.slots[id], s.scopes[u])
    && exists t :: t in s.scopes && s.scopes[t] == Isolated(id)
  }

  lemma EndingElsewhere(s: State, u: Token, now: Instant, t: Token)
    requires Free(s, u) && s.sups[u].pc.Ending? && InPlace(s.scopes[u], s.sups[u].pc)
    requires t in s.scopes && t != u && OneDriverEach(s.hub, s.scopes, s.nextToken)
    requires s.scopes[t].Isolated? ==> !TakesFrom(s, u, s.scopes[t].id)
    ensures Members(EndSlots(s.hub, s.sups[u].pc.slots, s.sups[u].pc.end, now), s.scopes[t])
         == Members(s.hub, s.scopes[t])
  {
    assert PointsAt(s.hub, s.scopes[t], t) && PointsAt(s.hub, s.scopes[u], u);
    forall id | id in Members(s.hub, s.scopes[t])
      ensures id !in s.sups[u].pc.slots
    {}
  }

  /**
   A stopped connection leaves the slots of all other supervised connections alone if and only if none of the slots it
   listed has moved, since it listed them, to a connection of its own that is already supervised.
   */
  lemma EndingTakesOnlyOwnSlots(s: State, u: Token, now: Instant)
    requires Free(s, u) && s.sups[u].pc.Ending? && InPlace(s.scopes[u], s.sups[u].pc)
    requires OneDriverEach(s.hub, s.scopes, s.nextToken)
    ensures (forall t :: t in s.scopes && t != u ==>
               Members(AfterWork(s, u, EndAll(now)).hub, s.scopes[t]) == Members(s.hub, s.scopes[t]))
        <==> !exists id :: TakesFrom(s, u, id)
  {
    var h' := EndSlots(s.hub, s.sups[u].pc.slots, s.sups[u].pc.end, now);
    assert AfterWork(s, u, EndAll(now)).hub == h';
    if id :| TakesFrom(s, u, id) {
      var t :| t in s.scopes && s.scopes[t] == Isolated(id);
      assert id in Members(s.hub, Isolated(id)) && id !in Members(h', Isolated(id));
    } else {
      forall t | t in s.scopes && t != u
        ensures Members(h', s.scopes[t]) == Members(s.hub, s.scopes[t])
      {
        EndingElsewhere(s, u, now, t);
      }
    }
  }

  /** A slot taken from its own connection leaves that connection deserted. */
  lemma TakenIsDeserted(s: State, u: Token, now: Instant, id: SlotId)
    requires Free(s, u) && s.sups[u].pc.Ending? && InPlace(s.scopes[u], s.sups[u].pc) && AllAccounted(s.hub)
    requires id in s.sups[u].pc.slots && id in s.hub.slots
    ensures Deserted(EndSlots(s.hub, s.sups[u].pc.slots, s.sups[u].pc.end, now), Isolated(id))
  {
    assert Alive(s.hub.slots[id].health);
  }

  lemma EndKeepsDeserted(h: HubState, ids: set<SlotId>, end: End, now: Instant, scope: Scope)
    ensures Deserted(h, scope) ==> Deserted(EndSlots(h, ids, end, now), scope)
  {}

  lemma EndKeepsAhead(s: State, s': State, u: Token, now: Instant, scope: Scope, t: Token)
    requires Free(s, u) && s.sups[u].pc.Ending? && InPlace(s.scopes[u], s.sups[u].pc)
    requires t in s.scopes && t != u && s.scopes[t] == scope && OneDriverEach(s.hub, s.scopes, s.nextToken)
    requires s'.hub == EndSlots(s.hub, s.sups[u].pc.slots, s.sups[u].pc.end, now) && s'.calls == s.calls
    requires WakeupAhead(s, scope)
    ensures WakeupAhead(s', scope)
  {
    var ahead :| ahead in s.calls
                 && (Wakes(s.calls[ahead]) || (scope == Shared && MovesResync(s.hub, s.calls[ahead])));
    assert PointsAt(s.hub, s.scopes[u], u);
    assert Wakes(s'.calls[ahead]) || (scope == Shared && MovesResync(s'.hub, s'.calls[ahead]));
  }

  lemma InformedEnd(s: State, u: Token, now: Instant, t: Token, orderly: bool)
    requires Free(s, u) && Ready(s, u, EndAll(now)) && t != u && InPlace(s.scopes[u], s.sups[u].pc)
    requires OneDriverEach(s.hub, s.scopes, s.nextToken) && AllAccounted(s.hub)
    requires t in s.scopes && t in s.sups && Informed(s, t, orderly)
    requires orderly ==> forall id :: id in s.sups[u].pc.slots && id in s.hub.slots ==>
                           BelongsTo(id, s.hub.slots[id], s.scopes[u])
    ensures t in AfterWork(s, u, EndAll(now)).sups && t in AfterWork(s, u, EndAll(now)).scopes
    ensures Informed(AfterWork(s, u, EndAll(now)), t, orderly)
  {
    hide Informed;
    hide OneDriverEach;
    hide AllAccounted;
    hide WakeupAhead;
    hide EndSlots;
    var s', scope := AfterWork(s, u, EndAll(now)), s.scopes[t];
    if !orderly && scope.Isolated? && TakesFrom(s, u, scope.id) {
      TakenIsDeserted(s, u, now, scope.id);
      DesertedInforms(s', t);
    } else {
      EndingElsewhere(s, u, now, t);
      EndNeedsSame(s.hub, s.sups[u].pc.slots, s.sups[u].pc.end, now, scope);
      EndKeepsDeserted(s.hub, s.sups[u].pc.slots, s.sups[u].pc.end, now, scope);
      if WakeupAhead(s, scope) {
        EndKeepsAhead(s, s', u, now, scope, t);
      }
      StaysInformed(s, s', t, orderly);
    }
  }

  lemma EndNeedsSame(h: HubState, ids: set<SlotId>, end: End, now: Instant, scope: Scope)
    requires Members(EndSlots(h, ids, end, now), scope) == Members(h, scope)
    ensures SameNeeds(h, EndSlots(h, ids, end, now), scope)
  {
    var h' := EndSlots(h, ids, end, now);
    forall id | id in Members(h, scope)
      ensures h'.slots[id] == h.slots[id]
    {
      assert id in Members(h', scope);
    }
  }

  lemma DesertedInforms(s: State, t: Token)
    requires t in s.scopes && t in s.sups && Deserted(s.hub, s.scopes[t])
    ensures Informed(s, t, false)
  {}

  // ----- Any step -----

  lemma EndAllExits(s: State, t: Token, now: Instant)
    requires Free(s, t) && Ready(s, t, EndAll(now))
    ensures t in AfterWork(s, t, EndAll(now)).sups && AfterWork(s, t, EndAll(now)).sups[t].pc.Exiting?
  {}

  lemma ReleaseLeaves(s: State, t: Token)
    requires Free(s, t) && Ready(s, t, Release)
    ensures AfterWork(s, t, Release).sups == s.sups - {t}
  {}

  lemma InformedWork(s: State, u: Token, work: Work, t: Token, orderly: bool)
    requires Free(s, u) && Ready(s, u, work) && AllInPlace(s)
    requires OneDriverEach(s.hub, s.scopes, s.nextToken) && AllAccounted(s.hub) && AllInformed(s, orderly)
    requires orderly && work.EndAll? ==> forall id :: id in s.sups[u].pc.slots && id in s.hub.slots ==>
                                           BelongsTo(id, s.hub.slots[id], s.scopes[u])
    requires t in s.scopes && t in s.sups && t in AfterWork(s, u, work).scopes && t in AfterWork(s, u, work).sups
    ensures Informed(AfterWork(s, u, work), t, orderly)
  {
    assert Informed(s, t, orderly) && InPlace(s.scopes[u], s.sups[u].pc);
    hide Informed;
    hide InPlace;
    hide AllInPlace;
    hide OneDriverEach;
    hide AllAccounted;
    hide AllInformed;
    hide AfterWork;
    if work.Observe? || work.Silence? {
      InformedTrackers(s, u, work, t, orderly);
    } else if t == u {
      if work.Snapshot? {
        InformedSnapshot(s, t, orderly);
      } else if work.EndAll? {
        EndAllExits(s, t, work.now);
        ExitingIsInformed(AfterWork(s, u, work), t, orderly);
      } else if work.Release? {
        ReleaseLeaves(s, t);
      } else {
        InformedOwnWork(s, t, work, orderly);
      }
    } else if work.Snapshot? {
      InformedOtherSnapshot(s, u, t, orderly);
    } else if work.EndAll? {
      InformedEnd(s, u, work.now, t, orderly);
    } else {
      InformedOtherWork(s, u, work, t, orderly);
    }
  }

  lemma ExitingIsInformed(s: State, t: Token, orderly: bool)
    requires t in s.scopes && t in s.sups && s.sups[t].pc.Exiting?
    ensures Informed(s, t, orderly)
  {}

  lemma InformedStep(s: State, a: Action, orderly: bool, t: Token)
    requires Enabled(s, a) && AllInPlace(s) && OneDriverEach(s.hub, s.scopes, s.nextToken) && AllAccounted(s.hub)
    requires AllInformed(s, orderly) && (orderly ==> IsOrderly(s, a))
    requires t in Do(s, a).scopes && t in Do(s, a).sups
    ensures Informed(Do(s, a), t, orderly)
  {
    assert t in s.scopes && t in s.sups ==> Informed(s, t, orderly);
    hide Do;
    hide Informed;
    hide AfterWork;
    if a.Ensure? {
      InformedEnsure(s, a, t, orderly);
    } else if a.Supervise? {
      EnabledWork(s, a);
      WorkIs(s, a);
      WorkAddsNone(s, a.token, a.work);
      InformedWork(s, a.token, a.work, t, orderly);
    } else {
      CallsKeepSups(s, a);
      InformedCall(s, a, t, orderly);
    }
  }

  lemma WorkAddsNone(s: State, t: Token, work: Work)
    requires Free(s, t) && Ready(s, t, work)
    ensures AfterWork(s, t, work).sups.Keys <= s.sups.Keys && AfterWork(s, t, work).scopes.Keys <= s.scopes.Keys
  {
    hide ReconnectNeeded;
    hide Members;
    hide EndSlots;
    hide TakeSnapshot;
    hide UpdateHealth;
    hide MarkStalled;
  }

  // ----- Runs -----

  /** In this run, stopped connections end only slots that are still on them. */
  ghost predicate IsOrderlyRun(states: seq<State>, actions: seq<Action>)
    requires IsHistory(states, actions)
  {
    forall i :: 0 <= i < |actions| ==> IsOrderly(states[i], actions[i])
  }

  lemma {:induction false} RunStaysInformed(states: seq<State>, actions: seq<Action>, orderly: bool, i: nat)
    requires IsHistory(states, actions) && (orderly ==> IsOrderlyRun(states, actions)) && i <= |actions|
    ensures |states| == |actions| + 1
    ensures AllInPlace(states[i]) && AllInformed(states[i], orderly)
  {
    hide *;
    if i == 0 {
      InformedAtFirst(states, actions, orderly);
    } else {
      HistoryStep(states, actions, i - 1);
      RunStaysInformed(states, actions, orderly, i - 1);
      NoDoubleDriver(states, actions, i - 1);
      RegisteredIffNotEnded(states, actions, i - 1);
      InPlaceStep(states[i - 1], actions[i - 1]);
      if orderly {
        OrderlyAt(states, actions, i - 1);
      }
      InformedAll(states[i - 1], actions[i - 1], orderly);
    }
  }

  lemma InformedAtFirst(states: seq<State>, actions: seq<Action>, orderly: bool)
    requires IsHistory(states, actions)
    ensures |states| == |actions| + 1
    ensures AllInPlace(states[0]) && AllInformed(states[0], orderly)
  {}

  lemma OrderlyAt(states: seq<State>, actions: seq<Action>, i: nat)
    requires IsHistory(states, actions) && IsOrderlyRun(states, actions) && i < |actions|
    ensures |states| == |actions| + 1 && Enabled(states[i], actions[i]) && IsOrderly(states[i], actions[i])
  {
    hide Enabled;
    hide Do;
    hide IsOrderly;
  }

  lemma InformedAll(s: State, a: Action, orderly: bool)
    requires Enabled(s, a) && AllInPlace(s) && OneDriverEach(s.hub, s.scopes, s.nextToken) && AllAccounted(s.hub)
    requires AllInformed(s, orderly) && (orderly ==> IsOrderly(s, a))
    ensures AllInformed(Do(s, a), orderly)
  {
    hide Do;
    hide Enabled;
    hide Informed;
    hide AllInPlace;
    hide OneDriverEach;
    hide AllAccounted;
    hide IsOrderly;
    forall t | t in Do(s, a).scopes && t in Do(s, a).sups
      ensures Informed(Do(s, a), t, orderly)
    {
      InformedStep(s, a, orderly, t);
    }
  }

  /** A connection that carries `slots` serves its scope: it covers every slot, and next to nothing else. */
  ghost predicate Serves(h: HubState, scope: Scope, slots: set<SlotId>) {
    && Members(h, scope) != {}
    && Members(h, scope) <= slots
    && (forall id :: id in Members(h, scope) ==> !h.slots[id].resync)
    && |slots - Members(h, scope)| <= 32
  }

  /**
   No lost wakeup: in any run, a connection whose supervisor has read every generation, while no thread is about to
   publish another, serves its scope, unless another connection has ended its slot; only then it does not.
   */
  lemma NoLostWakeup(states: seq<State>, actions: seq<Action>, i: nat, t: Token)
    requires IsHistory(states, actions) && i < |states|
    requires t in states[i].sups && t in states[i].scopes && states[i].sups[t].pc.Driving?
    requires states[i].sups[t].seen == states[i].version && !WakeupAhead(states[i], states[i].scopes[t])
    ensures Serves(states[i].hub, states[i].scopes[t], states[i].sups[t].pc.slots)
       <==> !Deserted(states[i].hub, states[i].scopes[t])
  {
    RunStaysInformed(states, actions, false, i);
    assert Informed(states[i], t, false);
  }

  /**
   Nobody waits in vain: in any run, a supervisor that waits before it connects again, has read every generation and has
   no thread about to publish another, waits for slots that are on its connection still, and for all of them, unless
   another connection has ended its slot; only then it waits for nobody.
   */
  lemma NobodyWaitsInVain(states: seq<State>, actions: seq<Action>, i: nat, t: Token)
    requires IsHistory(states, actions) && i < |states|
    requires t in states[i].sups && t in states[i].scopes && states[i].sups[t].pc.Waiting?
    requires states[i].sups[t].seen == states[i].version && !WakeupAhead(states[i], states[i].scopes[t])
    ensures var members := Members(states[i].hub, states[i].scopes[t]);
            members != {} && members <= states[i].sups[t].pc.slots <==> !Deserted(states[i].hub, states[i].scopes[t])
  {
    RunStaysInformed(states, actions, false, i);
    assert Informed(states[i], t, false);
  }

  /** In orderly runs no connection is left without knowing it. */
  lemma NoLostWakeupInOrderlyRuns(states: seq<State>, actions: seq<Action>, i: nat, t: Token)
    requires IsHistory(states, actions) && IsOrderlyRun(states, actions) && i < |states|
    requires t in states[i].sups && t in states[i].scopes && states[i].sups[t].pc.Driving?
    requires states[i].sups[t].seen == states[i].version && !WakeupAhead(states[i], states[i].scopes[t])
    ensures Serves(states[i].hub, states[i].scopes[t], states[i].sups[t].pc.slots)
  {
    RunStaysInformed(states, actions, true, i);
    assert Informed(states[i], t, true);
  }
}
