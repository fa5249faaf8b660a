/**
 How long health shows a lag. A lag holds a subscription down until a snapshot answers a resync request, so there must
 always be one on its way.
 */
module Lags {
  import opened Health
  import opened HealthRuns
  import opened Hub
  import opened Protocol
  import opened Drivers
  import opened Lifecycle
  import opened Wakeups
  import opened Losses

  predicate LagShows(h: HubState, id: SlotId) {
    id in h.slots && h.slots[id].health.lagging
  }

  /** A supervisor of the shared connection is about to show the lag. */
  predicate IsReporter(s: State, th: Thread) {
    th.Supervisor? && th.token in s.scopes && s.scopes[th.token] == Shared
  }

  ghost predicate ReportAhead(s: State, id: SlotId) {
    exists th :: th in s.calls && s.calls[th] == Reporting(id)
  }

  predicate IsLoss(call: Call) {
    call.Flagging? || call.Reporting?
  }

  /** Only the shared connection loses events, and only those of slots that were registered. */
  ghost predicate OnlySharedReports(s: State) {
    forall th :: th in s.calls && IsLoss(s.calls[th]) ==> IsReporter(s, th) && s.calls[th].id < s.hub.nextId
  }

  /** The slot's health shows a lag, or is about to. */
  ghost predicate LagConcerns(s: State, id: SlotId) {
    LagShows(s.hub, id) || (id in Members(s.hub, Shared) && ReportAhead(s, id))
  }

  ghost predicate LagsAreMarked(s: State) {
    forall id :: LagConcerns(s, id) ==> Marked(s, id)
  }

  // ----- Who reports -----

  lemma WorkBeginsLoss(s: State, t: Token, work: Work, th: Thread)
    requires Free(s, t) && Ready(s, t, work)
    requires th in AfterWork(s, t, work).calls && IsLoss(AfterWork(s, t, work).calls[th])
    ensures (th in s.calls && s.calls[th] == AfterWork(s, t, work).calls[th])
         || (work.Lose? && th == Supervisor(t) && s.scopes[t] == Shared && work.id in s.sups[t].pc.slots
             && HasSlots(s.sups[t].pc) && AfterWork(s, t, work).calls[th] == Flagging(work.id))
  {
    hide Members;
    hide Replayed;
    hide ReconnectNeeded;
    hide UpdateHealth;
    hide MarkStalled;
    hide TakeSnapshot;
    hide EndSlots;
  }

  lemma CallBeginsLoss(s: State, a: Action, th: Thread)
    requires Enabled(s, a) && !a.Supervise? && th in Do(s, a).calls && IsLoss(Do(s, a).calls[th])
    ensures th in s.calls
    ensures s.calls[th] == Do(s, a).calls[th]
         || (a.Flag? && a.thread == th && s.calls[th].Flagging? && s.calls[th].id == Do(s, a).calls[th].id
             && s.calls[th].id in Do(s, a).lagging)
  {
    hide StartedBy;
    hide SpawnAll;
    hide StartAll;
    hide UpdateHealth;
    hide Insert;
    hide Remove;
    hide AskResync;
    hide MoveOff;
    hide NextGeneration;
    hide IsStart;
  }

  lemma ReportersStay(s: State, a: Action, th: Thread)
    requires Enabled(s, a) && IsReporter(s, th) && OneDriverEach(s.hub, s.scopes, s.nextToken)
    requires th in s.calls || (a.Supervise? && a.work.Lose?)
    ensures IsReporter(Do(s, a), th)
  {
    hide Do;
    hide AfterWork;
    if a.Ensure? {
      EnsureAddsSups(s, a);
      assert th.token < s.nextToken;
      assert th.token !in a.starts.Values;
      NotStarted(a.starts, th.token);
    } else if !a.Supervise? {
      CallsKeepSups(s, a);
    } else {
      EnabledWork(s, a);
      WorkIs(s, a);
      WorkShrinks(s, a.token, a.work);
    }
  }

  lemma NotStarted(starts: map<Scope, Token>, token: Token)
    requires token !in starts.Values
    ensures token !in StartedBy(starts)
  {}

  lemma OnlySharedReportsStep(s: State, a: Action)
    requires Enabled(s, a) && OnlySharedReports(s) && OneDriverEach(s.hub, s.scopes, s.nextToken) && AllKnown(s)
    ensures OnlySharedReports(Do(s, a))
  {
    hide Do;
    hide AfterWork;
    hide OneDriverEach;
    hide IsReporter;
    hide AllKnown;
    NextIdGrows(s, a);
    forall th | th in Do(s, a).calls && IsLoss(Do(s, a).calls[th])
      ensures IsReporter(Do(s, a), th) && Do(s, a).calls[th].id < s.hub.nextId
    {
      if a.Supervise? {
        EnabledWork(s, a);
        WorkIs(s, a);
        WorkBeginsLoss(s, a.token, a.work, th);
        if !(th in s.calls) {
          LoserReports(s, a.token, a.work);
        }
      } else {
        CallBeginsLoss(s, a, th);
      }
      ReportersStay(s, a, th);
    }
  }

  lemma LoserReports(s: State, t: Token, work: Work)
    requires Free(s, t) && work.Lose? && s.scopes[t] == Shared && HasSlots(s.sups[t].pc) && AllKnown(s)
    requires work.id in s.sups[t].pc.slots
    ensures IsReporter(s, Supervisor(t)) && work.id < s.hub.nextId
  {
    assert KnownAt(s, t, s.hub.nextId);
  }

  lemma NextIdGrows(s: State, a: Action)
    requires Enabled(s, a)
    ensures s.hub.nextId <= Do(s, a).hub.nextId
  {
    hide Do;
    hide AfterWork;
    if a.Supervise? {
      EnabledWork(s, a);
      WorkIs(s, a);
      WorkShrinks(s, a.token, a.work);
    } else {
      IdsGrow(s, a);
    }
  }

  // ----- Marks stay while a lag shows -----

  lemma WorkShowsNoLag(s: State, t: Token, work: Work, id: SlotId)
    requires Free(s, t) && Ready(s, t, work) && LagShows(AfterWork(s, t, work).hub, id)
    ensures LagShows(s.hub, id)
    ensures work.Snapshot? ==> !(id in Members(s.hub, s.scopes[t]) && s.hub.slots[id].resync)
  {
    hide ReconnectNeeded;
    hide PastDeadline;
    hide EndSlots;
    match work
    case Observe(ids, event) => EventsShowNoLag(s.hub, s.scopes[t], ids, event, id);
    case Silence(threshold, now) => SilenceShowsNoLag(s.hub, s.scopes[t], threshold, now, id);
    case EndAll(now) => EndShowsNoLag(s.hub, s.sups[t].pc.slots, s.sups[t].pc.end, now, id);
    case _ =>
      hide UpdateHealth;
      hide MarkStalled;
  }

  lemma EventsShowNoLag(h: HubState, scope: Scope, ids: set<SlotId>, event: Timed, id: SlotId)
    requires IsConnectionEvent(event) && LagShows(UpdateHealth(h, scope, ids, event), id)
    ensures LagShows(h, id)
  {}

  lemma SilenceShowsNoLag(h: HubState, scope: Scope, threshold: Duration, now: Instant, id: SlotId)
    requires LagShows(MarkStalled(h, scope, threshold, now), id)
    ensures LagShows(h, id)
  {}

  lemma EndShowsNoLag(h: HubState, ids: set<SlotId>, end: End, now: Instant, id: SlotId)
    requires LagShows(EndSlots(h, ids, end, now), id)
    ensures LagShows(h, id)
  {}

  lemma CallShowsLag(s: State, a: Action, id: SlotId)
    requires Enabled(s, a) && !a.Supervise? && LagShows(Do(s, a).hub, id)
    ensures LagShows(s.hub, id)
         || (a.Report? && a.thread in s.calls && s.calls[a.thread] == Reporting(id) && id in Members(s.hub, Shared))
  {
    hide StartedBy;
    hide SpawnAll;
  }

  /** A slot that is on the shared connection after a step was there before, or is new. */
  lemma SharedMembersShrink(s: State, a: Action, id: SlotId)
    requires Enabled(s, a) && id in Members(Do(s, a).hub, Shared) && id < s.hub.nextId && AllAccounted(s.hub)
    ensures id in Members(s.hub, Shared)
  {
    SettledStep(s, a);
    hide Do;
    hide AllAccounted;
  }

  lemma AnyWorkKeepsMark(s: State, t: Token, work: Work, id: SlotId)
    requires Free(s, t) && Ready(s, t, work) && id in s.hub.slots && Marked(s, id)
    requires id in AfterWork(s, t, work).hub.slots
    requires work.Snapshot? ==> !(id in Members(s.hub, s.scopes[t]) && s.hub.slots[id].resync)
    ensures Marked(AfterWork(s, t, work), id)
  {
    if work.Snapshot? {
      SnapshotKeepsMark(s, t, id);
    } else {
      WorkKeepsResyncs(s, t, work);
      WorkFacts(s, t, work);
      hide AfterWork;
      hide Marked;
      hide KeepsResyncs;
      MarkStays(s, AfterWork(s, t, work), Supervisor(t), id);
    }
  }

  /** While a supervisor of the shared connection is in a call, no snapshot is taken of the connection. */
  lemma ReporterHoldsSnapshots(s: State, t: Token, id: SlotId, th: Thread)
    requires Free(s, t) && th in s.calls && IsReporter(s, th) && id in Members(s.hub, Shared)
    requires OneDriverEach(s.hub, s.scopes, s.nextToken)
    ensures id !in Members(s.hub, s.scopes[t])
  {
    assert PointsAt(s.hub, s.scopes[t], t);
  }

  lemma ReportConcernedBefore(s: State, a: Action, id: SlotId) returns (th: Thread)
    requires Enabled(s, a) && ReportAhead(Do(s, a), id)
    ensures (th in s.calls && s.calls[th] == Reporting(id)) || id in Do(s, a).lagging
    ensures th in s.calls && IsLoss(s.calls[th]) && s.calls[th].id == id
  {
    hide Do;
    hide AfterWork;
    th :| th in Do(s, a).calls && Do(s, a).calls[th] == Reporting(id);
    if a.Supervise? {
      EnabledWork(s, a);
      WorkIs(s, a);
      WorkBeginsLoss(s, a.token, a.work, th);
    } else {
      CallBeginsLoss(s, a, th);
    }
  }

  lemma CallKeepsAnyMark(s: State, a: Action, id: SlotId)
    requires Enabled(s, a) && !a.Supervise? && OneDriverEach(s.hub, s.scopes, s.nextToken)
    requires id in s.hub.slots && id in Do(s, a).hub.slots && Marked(s, id)
    ensures Marked(Do(s, a), id)
  {
    SlotsAreKnown(s);
    hide Do;
    hide Marked;
    hide OneDriverEach;
    if a.TakeLag? || a.AskForResync? || a.Flag? {
      MarkPassesOn(s, a, id);
    } else {
      CallKeepsMark(s, a, id);
    }
  }

  /** A lag that shows after a step did so before, or was about to. */
  lemma LagConcernedBefore(s: State, a: Action, id: SlotId)
    requires Enabled(s, a) && AllAccounted(s.hub) && OnlySharedReports(s) && LagConcerns(Do(s, a), id)
    ensures id in Do(s, a).hub.slots
    ensures LagConcerns(s, id) || id in Do(s, a).lagging
  {
    hide Do;
    hide AfterWork;
    hide AllAccounted;
    if LagShows(Do(s, a).hub, id) {
      if a.Supervise? {
        EnabledWork(s, a);
        WorkIs(s, a);
        WorkShowsNoLag(s, a.token, a.work, id);
      } else {
        CallShowsLag(s, a, id);
      }
    } else {
      var th := ReportConcernedBefore(s, a, id);
      SharedMembersShrink(s, a, id);
    }
  }

  lemma ConcernIsOfSlot(s: State, id: SlotId)
    requires LagConcerns(s, id)
    ensures id in s.hub.slots
  {}

  lemma SnapshotSparesLags(s: State, t: Token, id: SlotId)
    requires Free(s, t) && Ready(s, t, Snapshot) && OnlySharedReports(s) && LagConcerns(s, id)
    requires OneDriverEach(s.hub, s.scopes, s.nextToken) && LagConcerns(AfterWork(s, t, Snapshot), id)
    ensures !(id in Members(s.hub, s.scopes[t]) && s.hub.slots[id].resync)
  {
    ConcernIsOfSlot(s, id);
    if LagShows(AfterWork(s, t, Snapshot).hub, id) {
      WorkShowsNoLag(s, t, Snapshot, id);
    } else {
      var s' := AfterWork(s, t, Snapshot);
      WorkKeepsCalls(s, t, Snapshot);
      var th :| th in s'.calls && s'.calls[th] == Reporting(id);
      WorkBeginsLoss(s, t, Snapshot, th);
      SnapshotMoves(s.hub, s.scopes[t], id);
      hide AfterWork;
      hide OneDriverEach;
      ReporterHoldsSnapshots(s, t, id, th);
    }
  }

  lemma SnapshotMoves(h: HubState, scope: Scope, id: SlotId)
    ensures id in Members(TakeSnapshot(h, scope), Shared) <==> id in Members(h, Shared)
  {}

  lemma LagMarkedStep(s: State, a: Action, id: SlotId)
    requires Enabled(s, a) && OneDriverEach(s.hub, s.scopes, s.nextToken) && AllAccounted(s.hub)
    requires OnlySharedReports(s) && LagsAreMarked(s) && LagConcerns(Do(s, a), id)
    ensures Marked(Do(s, a), id)
  {
    LagConcernedBefore(s, a, id);
    hide Do;
    hide AfterWork;
    hide OneDriverEach;
    hide AllAccounted;
    hide OnlySharedReports;
    hide LagConcerns;
    if LagConcerns(s, id) {
      ConcernIsOfSlot(s, id);
      assert Marked(s, id);
      hide LagsAreMarked;
      if a.Supervise? {
        EnabledWork(s, a);
        WorkIs(s, a);
        if a.work.Snapshot? {
          SnapshotSparesLags(s, a.token, id);
        }
        hide Marked;
        AnyWorkKeepsMark(s, a.token, a.work, id);
      } else {
        hide Marked;
        CallKeepsAnyMark(s, a, id);
      }
    }
  }

  lemma LagsAreMarkedStep(s: State, a: Action)
    requires Enabled(s, a) && OneDriverEach(s.hub, s.scopes, s.nextToken) && AllAccounted(s.hub)
    requires OnlySharedReports(s) && LagsAreMarked(s)
    ensures LagsAreMarked(Do(s, a))
  {
    hide *;
    MarkedIfConcerned(Do(s, a));
    forall id | LagConcerns(Do(s, a), id)
      ensures Marked(Do(s, a), id)
    {
      LagMarkedStep(s, a, id);
    }
  }

  lemma MarkedIfConcerned(s: State)
    ensures LagsAreMarked(s) <==> forall id :: LagConcerns(s, id) ==> Marked(s, id)
  {}

  // ----- Runs -----

  lemma NoLagAtFirst(states: seq<State>, actions: seq<Action>)
    requires IsHistory(states, actions)
    ensures |states| == |actions| + 1 && OnlySharedReports(states[0]) && LagsAreMarked(states[0])
  {}

  /**
   No lag shows for good: in every state of every run, a slot whose health shows a lag has its lag flag set or asks for
   a resync, or a thread is about to set one of them. So a lag is always on its way to the replay that releases it.
   */
  lemma {:induction false} NoLagShowsForGood(states: seq<State>, actions: seq<Action>, i: nat)
    requires IsHistory(states, actions) && i <= |actions|
    ensures |states| == |actions| + 1
    ensures OnlySharedReports(states[i]) && LagsAreMarked(states[i])
  {
    hide *;
    if i == 0 {
      NoLagAtFirst(states, actions);
    } else {
      HistoryStep(states, actions, i - 1);
      NoLagShowsForGood(states, actions, i - 1);
      NoSilentLoss(states, actions, i - 1);
      NoDoubleDriver(states, actions, i - 1);
      RegisteredIffNotEnded(states, actions, i - 1);
      OnlySharedReportsStep(states[i - 1], actions[i - 1]);
      LagsAreMarkedStep(states[i - 1], actions[i - 1]);
    }
  }

  /**
   At rest, a slot that its connection carries shows a lag only while its lag flag is set, which is the consumer's to
   take once it has drained its queue.
   */
  lemma LagsWaitForTheConsumer(states: seq<State>, actions: seq<Action>, i: nat, t: Token, id: SlotId)
    requires IsHistory(states, actions) && i < |states| && states[i].calls == map[]
    requires t in states[i].sups && t in states[i].scopes && states[i].sups[t].pc.Driving?
    requires states[i].sups[t].seen == states[i].version
    requires LagShows(states[i].hub, id) && id in Members(states[i].hub, states[i].scopes[t])
    ensures id in states[i].lagging
  {
    NoLagShowsForGood(states, actions, i);
    NoLostWakeup(states, actions, i, t);
    assert LagConcerns(states[i], id);
    assert Marked(states[i], id);
    assert !Deserted(states[i].hub, states[i].scopes[t]);
    assert Serves(states[i].hub, states[i].scopes[t], states[i].sups[t].pc.slots);
  }
}
