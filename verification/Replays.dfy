/**
 Whom the replay of a lagging slot reaches. The slot asks for the replay in one section and moves to a connection of its
 own in the next, so that its siblings are left alone; a shared connection that looks in between takes the request for
 its own and reconnects all of them.
 */
module Replays {
  import opened Options
  import opened Health
  import opened HealthRuns
  import opened Hub
  import opened Protocol
  import opened Lifecycle
  import opened Wakeups
  import opened Losses
  import opened Races

  /** A slot of the shared connection that asks for a resync. */
  predicate AsksOnShared(h: HubState, id: SlotId) {
    CanMove(h, id) && h.slots[id].resync
  }

  ghost predicate WillMove(calls: map<Thread, Call>, id: SlotId) {
    exists th :: th in calls && calls[th] == Moving(id, LaggedCause)
  }

  /** Whoever asks for a resync on the shared connection is about to leave it. */
  ghost predicate AllMove(s: State) {
    forall id :: AsksOnShared(s.hub, id) ==> WillMove(s.calls, id)
  }

  // ----- One step -----

  lemma WorkAsksNothing(s: State, t: Token, work: Work, id: SlotId)
    requires Free(s, t) && Ready(s, t, work) && AsksOnShared(AfterWork(s, t, work).hub, id)
    ensures AsksOnShared(s.hub, id)
  {
    hide Members;
    hide ReconnectNeeded;
    hide Next;
    hide PastDeadline;
    hide Stall;
  }

  lemma OthersKeepMoving(calls: map<Thread, Call>, calls': map<Thread, Call>, th: Thread, id: SlotId)
    requires WillMove(calls, id) && (th in calls ==> calls[th] != Moving(id, LaggedCause))
    requires forall other :: other in calls && other != th ==> other in calls' && calls'[other] == calls[other]
    ensures WillMove(calls', id)
  {
    var mover :| mover in calls && calls[mover] == Moving(id, LaggedCause);
    assert mover in calls' && calls'[mover] == calls[mover];
  }

  /** A slot newly asks on the shared connection only when a thread records its request and is about to move it. */
  lemma CallAsks(s: State, a: Action, id: SlotId)
    requires Enabled(s, a) && !a.Supervise? && AsksOnShared(Do(s, a).hub, id)
    ensures AsksOnShared(s.hub, id)
         || (a.AskForResync? && a.thread in Do(s, a).calls && Do(s, a).calls[a.thread] == Moving(id, LaggedCause))
  {
    hide StartedBy;
    hide SpawnAll;
    hide Next;
  }

  lemma MoverMoves(s: State, a: Action, id: SlotId)
    requires Enabled(s, a) && !a.Supervise? && AsksOnShared(Do(s, a).hub, id) && AsksOnShared(s.hub, id)
    ensures var th := ThreadOf(s, a);
            th in s.calls && s.calls[th] == Moving(id, LaggedCause) ==>
              th in Do(s, a).calls && Do(s, a).calls[th] == Moving(id, LaggedCause)
  {
    hide StartedBy;
    hide SpawnAll;
    hide StartAll;
    hide UpdateHealth;
  }

  lemma MoveStep(s: State, a: Action, id: SlotId)
    requires Enabled(s, a) && AllMove(s) && AsksOnShared(Do(s, a).hub, id)
    ensures WillMove(Do(s, a).calls, id)
  {
    hide Do;
    hide AfterWork;
    hide AsksOnShared;
    if a.Supervise? {
      EnabledWork(s, a);
      WorkIs(s, a);
      WorkAsksNothing(s, a.token, a.work, id);
      WorkFacts(s, a.token, a.work);
    } else {
      CallAsks(s, a, id);
      if AsksOnShared(s.hub, id) {
        OnlyOneThreadMoves(s, a);
        var th := ThreadOf(s, a);
        if th in s.calls && s.calls[th] == Moving(id, LaggedCause) {
          MoverMoves(s, a, id);
        } else {
          OthersKeepMoving(s.calls, Do(s, a).calls, th, id);
        }
      }
    }
  }

  lemma AllMoveStep(s: State, a: Action)
    requires Enabled(s, a) && AllMove(s)
    ensures AllMove(Do(s, a))
  {
    hide Do;
    hide Enabled;
    hide AsksOnShared;
    hide WillMove;
    forall id | AsksOnShared(Do(s, a).hub, id)
      ensures WillMove(Do(s, a).calls, id)
    {
      MoveStep(s, a, id);
    }
  }

  // ----- Runs -----

  /** In every state of every run, a slot that asks for a resync on the shared connection is about to leave it. */
  lemma {:induction false} AskingSlotsMove(states: seq<State>, actions: seq<Action>, i: nat)
    requires IsHistory(states, actions) && i <= |actions|
    ensures |states| == |actions| + 1
    ensures AllMove(states[i])
  {
    if i > 0 {
      hide *;
      HistoryStep(states, actions, i - 1);
      AskingSlotsMove(states, actions, i - 1);
      AllMoveStep(states[i - 1], actions[i - 1]);
    }
  }

  /**
   In every run, a shared connection that covers its slots, with no more stale aliases than it tolerates, reconnects
   them when it looks if and only if a slot has asked for a replay and not yet left.
   */
  lemma ReplayReachesSiblingsIff(states: seq<State>, actions: seq<Action>, i: nat, t: Token)
    requires IsHistory(states, actions) && i <= |actions|
    requires |states| == |actions| + 1 && Free(states[i], t) && Ready(states[i], t, Recheck)
    requires states[i].scopes[t] == Shared
    requires var live := Members(states[i].hub, Shared);
             live != {} && live <= states[i].sups[t].pc.slots && |states[i].sups[t].pc.slots - live| <= 32
    ensures AfterWork(states[i], t, Recheck).sups[t].pc.Preparing?
       <==> exists th :: th in states[i].calls && MovesResync(states[i].hub, states[i].calls[th])
  {
    var s := states[i];
    AskingSlotsMove(states, actions, i);
    if id :| id in Members(s.hub, Shared) && s.hub.slots[id].resync {
      assert AsksOnShared(s.hub, id);
      var th :| th in s.calls && s.calls[th] == Moving(id, LaggedCause);
      assert MovesResync(s.hub, s.calls[th]);
    }
    if th :| th in s.calls && MovesResync(s.hub, s.calls[th]) {
      assert s.calls[th].id in Members(s.hub, Shared);
    }
  }

  // ----- A run in which it does -----

  function Pair(entry: SlotEntry, generation: nat, version: nat, pc: Pc, seen: nat, calls: map<Thread, Call>,
                lagging: set<SlotId>, missed: set<SlotId>): State
  {
    State(false, HubState(2, map[0 := entry, 1 := Fresh()], generation, Some(0), map[]), version, map[0 := Shared],
          map[0 := Sup(pc, seen)], 1, calls, lagging, missed)
  }

  /** A second stream registers before the supervisor has started. */
  lemma BothRegistered()
    ensures Reachable(Pair(Fresh(), 1, 1, Spawned, 0, map[Consumer(1) := Bumping(true)], {}, {}))
  {
    Registered();
    hide Reachable;
    FirstStart(AtRest(map[0 := Fresh()], 1, 1, map[Consumer(0) := Ensuring]));
    var s := Before(Fresh(), 1, 1, Spawned, map[], {}, {}).(sups := map[0 := Sup(Spawned, 0)]);
    GoOn(s, Register(0));
    assert Do(s, Register(0)) == Pair(Fresh(), 1, 1, Spawned, 0, map[Consumer(1) := Bumping(true)], {}, {});
  }

  lemma BothPrepare()
    ensures Reachable(Pair(Fresh(), 1, 1, Preparing, 1, map[Consumer(1) := Bumping(true)], {}, {}))
  {
    BothRegistered();
    hide Reachable;
    var calls := map[Consumer(1) := Bumping(true)];
    var s := Pair(Fresh(), 1, 1, Starting, 1, calls, {}, {});
    DoWork(Pair(Fresh(), 1, 1, Spawned, 0, calls, {}, {}), 0, Subscribe, s);
    DoWork(s, 0, Start, Pair(Fresh(), 1, 1, Preparing, 1, calls, {}, {}));
  }

  /** The shared connection comes up and carries both slots. */
  lemma BothConnected()
    ensures Reachable(Pair(Fresh(), 1, 1, Driving({0, 1}), 1, map[Consumer(1) := Bumping(true)], {}, {}))
  {
    BothPrepare();
    hide Reachable;
    var calls := map[Consumer(1) := Bumping(true)];
    var s := Pair(Fresh(), 1, 1, Preparing, 1, calls, {}, {});
    assert Members(s.hub, Shared) == {0, 1};
    assert TakeSnapshot(s.hub, Shared) == s.hub;
    assert Replayed(s.hub, Shared) == {};
    hide Members;
    hide TakeSnapshot;
    hide Replayed;
    var s' := Pair(Fresh(), 1, 1, Prepared({0, 1}), 1, calls, {}, {});
    DoWork(s, 0, Snapshot, s');
    DoWork(s', 0, Connect, Pair(Fresh(), 1, 1, Driving({0, 1}), 1, calls, {}, {}));
  }

  /** The connection drops an event for the first slot. */
  lemma FirstLags()
    ensures Reachable(Pair(Fresh(), 1, 1, Delivering({0, 1}, {1}), 1,
                           map[Consumer(1) := Bumping(true), Supervisor(0) := Reporting(0)], {0}, {0}))
  {
    BothConnected();
    hide Reachable;
    var pc, calls := Delivering({0, 1}, {1}), map[Consumer(1) := Bumping(true)];
    var s := Pair(Fresh(), 1, 1, Driving({0, 1}), 1, calls, {}, {});
    var s0 := Pair(Fresh(), 1, 1, Delivering({0, 1}, {0, 1}), 1, calls, {}, {});
    assert Members(s.hub, Shared) * {0, 1} == {0, 1};
    DoWork(s, 0, TakeFrame, s0);
    assert {0, 1} - {0} == {1};
    var s1 := Pair(Fresh(), 1, 1, pc, 1, map[Consumer(1) := Bumping(true), Supervisor(0) := Flagging(0)], {}, {0});
    DoWork(s0, 0, Lose(0), s1);
    var a := Flag(Supervisor(0));
    GoOn(s1, a);
    assert Do(s1, a)
        == Pair(Fresh(), 1, 1, pc, 1, map[Consumer(1) := Bumping(true), Supervisor(0) := Reporting(0)], {0}, {0});
  }

  lemma FirstReported()
    ensures Reachable(Pair(Lagging(), 1, 1, Driving({0, 1}), 1, map[Consumer(1) := Bumping(true)], {0}, {0}))
  {
    FirstLags();
    hide Reachable;
    hide Lag;
    var s := Pair(Fresh(), 1, 1, Delivering({0, 1}, {1}), 1,
                  map[Consumer(1) := Bumping(true), Supervisor(0) := Reporting(0)], {0}, {0});
    var s' := Pair(Lagging(), 1, 1, Delivering({0, 1}, {1}), 1, map[Consumer(1) := Bumping(true)], {0}, {0});
    var a := Report(Supervisor(0), 0);
    GoOn(s, a);
    assert UpdateSlots(s.hub.slots, Shared, {0}, Timed(0, LagSeen)) == map[0 := Lagging(), 1 := Fresh()];
    assert Do(s, a) == s';
    DoWork(s', 0, FrameDone,
           Pair(Lagging(), 1, 1, Driving({0, 1}), 1, map[Consumer(1) := Bumping(true)], {0}, {0}));
  }

  /** Its consumer has drained the queue and asks for a resync; it is about to move the slot. */
  lemma FirstAsks()
    ensures Reachable(Pair(Asking(), 1, 1, Driving({0, 1}), 1,
                           map[Consumer(1) := Bumping(true), Consumer(0) := Moving(0, LaggedCause)], {}, {0}))
  {
    FirstReported();
    hide Reachable;
    hide Lag;
    var pc := Driving({0, 1});
    var s0 := Pair(Lagging(), 1, 1, pc, 1, map[Consumer(1) := Bumping(true)], {0}, {0});
    var s1 := Pair(Lagging(), 1, 1, pc, 1, map[Consumer(1) := Bumping(true), Consumer(0) := Resyncing(0)], {}, {0});
    GoOn(s0, TakeLag(0));
    assert Do(s0, TakeLag(0)) == s1;
    var a := AskForResync(Consumer(0));
    GoOn(s1, a);
    assert Do(s1, a)
        == Pair(Asking(), 1, 1, pc, 1,
                map[Consumer(1) := Bumping(true), Consumer(0) := Moving(0, LaggedCause)], {}, {0});
  }

  /** Meanwhile the second registration publishes its generation. */
  lemma SecondPublishes()
    ensures Reachable(Pair(Asking(), 2, 2, Driving({0, 1}), 1,
                           map[Consumer(1) := Ensuring, Consumer(0) := Moving(0, LaggedCause)], {}, {0}))
  {
    FirstAsks();
    hide Reachable;
    hide Lag;
    var pc, moving, c := Driving({0, 1}), Moving(0, LaggedCause), Consumer(1);
    var s0 := Pair(Asking(), 1, 1, pc, 1, map[c := Bumping(true), Consumer(0) := moving], {}, {0});
    var s1 := Pair(Asking(), 2, 1, pc, 1, map[c := Sending(true), Consumer(0) := moving], {}, {0});
    GoOn(s0, Bump(c));
    assert Do(s0, Bump(c)) == s1;
    GoOn(s1, Send(c));
    assert Do(s1, Send(c)) == Pair(Asking(), 2, 2, pc, 1, map[c := Ensuring, Consumer(0) := moving], {}, {0});
  }

  /**
   The replay of a lagging slot can reach its siblings: here the connection covers both slots, none is stale, and only
   the slot that lags asks for a resync, but the connection looks before the slot has left and reconnects both.
   */
  lemma ReplayCanReachSiblings()
    ensures exists s, t ::
              && Reachable(s) && Free(s, t) && s.scopes[t] == Shared && Ready(s, t, Recheck)
              && s.sups[t].pc.slots == Members(s.hub, Shared) == {0, 1} && !s.hub.slots[1].resync
              && AfterWork(s, t, Recheck).sups[t].pc.Preparing?
  {
    SecondPublishes();
    hide Reachable;
    hide Lag;
    var calls := map[Consumer(1) := Ensuring, Consumer(0) := Moving(0, LaggedCause)];
    var s0 := Pair(Asking(), 2, 2, Driving({0, 1}), 1, calls, {}, {0});
    var s := Pair(Asking(), 2, 2, Rechecking({0, 1}), 2, calls, {}, {0});
    DoWork(s0, 0, Notice, s);
    assert Members(s.hub, Shared) == {0, 1};
    assert 0 in Members(s.hub, Shared) && s.hub.slots[0].resync;
    assert AfterWork(s, 0, Recheck).sups[0].pc.Preparing?;
  }
}
