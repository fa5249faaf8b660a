/**
 A run in which a wakeup is lost. A stopped connection lists the slots to end in one section and ends them in another,
 without telling anyone. A slot that moves in between is ended although it has left; the supervisor of its own
 connection never hears of it and keeps driving a connection that serves nobody.
 */
module Races {
  import opened Options
  import opened Health
  import opened HealthRuns
  import opened Hub
  import opened Protocol
  import opened Wakeups

  ghost predicate Reachable(s: State) {
    exists states: seq<State>, actions: seq<Action> ::
      IsHistory(states, actions) && states[|actions|] == s
  }

  lemma InitIsReachable(dedicated: bool)
    ensures Reachable(Init(dedicated))
  {
    var states, actions: seq<Action> := [Init(dedicated)], [];
    assert IsHistory(states, actions) && states[|actions|] == Init(dedicated);
  }

  lemma GoOn(s: State, a: Action)
    requires Reachable(s) && Enabled(s, a)
    ensures Reachable(Do(s, a))
  {
    var states: seq<State>, actions: seq<Action> :| IsHistory(states, actions) && states[|actions|] == s;
    var s' := Do(s, a);
    hide Do;
    hide Enabled;
    var more, all := states + [s'], actions + [a];
    assert IsHistory(more, all) by {
      forall i | 0 <= i < |all|
        ensures Enabled(more[i], all[i]) && more[i + 1] == Do(more[i], all[i])
      {}
    }
    assert more[|all|] == s';
  }

  // The slot's entry as the run goes on: registered, lagging, asking, moved, and with a supervisor of its own.
  function Fresh(): SlotEntry { SlotEntry(New(0), None, false) }

  function Lagging(): SlotEntry { SlotEntry(Lag(New(0), 0), None, false) }

  function Asking(): SlotEntry { SlotEntry(Lag(New(0), 0), None, true) }

  function Moved(supervisor: Option<Token>): SlotEntry {
    SlotEntry(Lag(New(0), 0), Some(Isolation(supervisor, LaggedCause)), true)
  }

  function Replaying(): SlotEntry {
    SlotEntry(CatchUp(Lag(New(0), 0)), Some(Isolation(Some(1), LaggedCause)), false)
  }

  function Before(entry: SlotEntry, generation: nat, version: nat, pc: Pc, calls: map<Thread, Call>,
                  lagging: set<SlotId>, missed: set<SlotId>): State
  {
    State(false, HubState(1, map[0 := entry], generation, Some(0), map[]), version, map[0 := Shared],
          map[0 := Sup(pc, 1)], 1, calls, lagging, missed)
  }

  lemma StartedAlone(scope: Scope, token: Token)
    ensures StartedBy(map[scope := token]) == map[token := scope]
    ensures SpawnAll(map[scope := token].Values) == map[token := Sup(Spawned, 0)]
  {
    var starts := map[scope := token];
    assert scope in starts && starts[scope] == token;
    assert starts.Values == {token};
    assert ScopeStarted(starts, token) == scope;
  }

  lemma StartedNone(starts: map<Scope, Token>)
    requires starts == map[]
    ensures StartedBy(starts) == map[] && SpawnAll(starts.Values) == map[]
  {}

  function AtRest(slots: map<SlotId, SlotEntry>, generation: nat, version: nat, calls: map<Thread, Call>): State {
    State(false, HubState(1, slots, generation, None, map[]), version, map[], map[], 0, calls, {}, {})
  }

  /** A stream registers its slot. */
  lemma Registered()
    ensures Reachable(AtRest(map[0 := Fresh()], 1, 1, map[Consumer(0) := Ensuring]))
  {
    var c := Consumer(0);
    var s0 := Init(false);
    InitIsReachable(false);
    GoOn(s0, Register(0));
    var s1 := AtRest(map[0 := Fresh()], 0, 0, map[c := Bumping(true)]);
    assert Do(s0, Register(0)) == s1;
    GoOn(s1, Bump(c));
    var s2 := AtRest(map[0 := Fresh()], 1, 0, map[c := Sending(true)]);
    assert Do(s1, Bump(c)) == s2;
    GoOn(s2, Send(c));
    assert Do(s2, Send(c)) == AtRest(map[0 := Fresh()], 1, 1, map[c := Ensuring]);
  }

  lemma FirstIsStart(h: HubState)
    requires h == HubState(1, map[0 := Fresh()], 1, None, map[])
    ensures IsStart(h, {}, 0, map[Shared := 0])
    ensures StartAll(h, map[Shared := 0]) == h.(supervisor := Some(0))
  {
    assert 0 in h.slots && h.slots[0].isolated.None?;
    assert Unserved(h, {}, Shared);
  }

  lemma FirstStart(s: State)
    requires s == AtRest(map[0 := Fresh()], 1, 1, map[Consumer(0) := Ensuring]) && Reachable(s)
    ensures Reachable(Before(Fresh(), 1, 1, Spawned, map[], {}, {}).(sups := map[0 := Sup(Spawned, 0)]))
  {
    hide Reachable;
    hide IsStart;
    var starts := map[Shared := 0];
    var a := Ensure(Consumer(0), starts, 1);
    StartedAlone(Shared, 0);
    FirstIsStart(s.hub);
    assert s.scopes.Keys == {};
    GoOn(s, a);
    hide StartedBy;
    hide SpawnAll;
    hide StartAll;
    assert Do(s, a) == Before(Fresh(), 1, 1, Spawned, map[], {}, {}).(sups := map[0 := Sup(Spawned, 0)]);
  }

  lemma DoWork(s: State, t: Token, work: Work, s': State)
    requires Reachable(s) && Free(s, t) && Ready(s, t, work) && s' == AfterWork(s, t, work)
    ensures Reachable(s')
  {
    GoOn(s, Supervise(t, work));
  }

  lemma Prepares()
    ensures Reachable(Before(Fresh(), 1, 1, Preparing, map[], {}, {}))
  {
    Registered();
    hide Reachable;
    FirstStart(AtRest(map[0 := Fresh()], 1, 1, map[Consumer(0) := Ensuring]));
    var s0 := Before(Fresh(), 1, 1, Spawned, map[], {}, {}).(sups := map[0 := Sup(Spawned, 0)]);
    var s1 := Before(Fresh(), 1, 1, Starting, map[], {}, {});
    DoWork(s0, 0, Subscribe, s1);
    var s2 := Before(Fresh(), 1, 1, Preparing, map[], {}, {});
    DoWork(s1, 0, Start, s2);
  }

  /** The shared connection comes up and carries the slot. */
  lemma Connected()
    ensures Reachable(Before(Fresh(), 1, 1, Driving({0}), map[], {}, {}))
  {
    Prepares();
    hide Reachable;
    var s2 := Before(Fresh(), 1, 1, Preparing, map[], {}, {});
    var s3 := Before(Fresh(), 1, 1, Prepared({0}), map[], {}, {});
    assert Members(s2.hub, Shared) == {0};
    assert TakeSnapshot(s2.hub, Shared) == s2.hub;
    assert Replayed(s2.hub, Shared) == {};
    DoWork(s2, 0, Snapshot, s3);
    DoWork(s3, 0, Connect, Before(Fresh(), 1, 1, Driving({0}), map[], {}, {}));
  }

  /** The connection drops an event for the slot. */
  lemma Lost()
    ensures Reachable(Before(Fresh(), 1, 1, Delivering({0}, {}), map[Supervisor(0) := Reporting(0)], {0}, {0}))
  {
    Connected();
    hide Reachable;
    var s0 := Before(Fresh(), 1, 1, Driving({0}), map[], {}, {});
    var s1 := Before(Fresh(), 1, 1, Delivering({0}, {0}), map[], {}, {});
    assert Members(s0.hub, Shared) * {0} == {0};
    DoWork(s0, 0, TakeFrame, s1);
    s0, s1 := s1, Before(Fresh(), 1, 1, Delivering({0}, {}), map[Supervisor(0) := Flagging(0)], {}, {0});
    assert {0} - {0} == {};
    DoWork(s0, 0, Lose(0), s1);
    var s2 := Before(Fresh(), 1, 1, Delivering({0}, {}), map[Supervisor(0) := Reporting(0)], {0}, {0});
    GoOn(s1, Flag(Supervisor(0)));
    assert Do(s1, Flag(Supervisor(0))) == s2;
  }

  lemma LossReported()
    ensures Reachable(Before(Lagging(), 1, 1, Driving({0}), map[], {0}, {0}))
  {
    Lost();
    hide Reachable;
    hide Lag;
    var s := Before(Fresh(), 1, 1, Delivering({0}, {}), map[Supervisor(0) := Reporting(0)], {0}, {0});
    var s' := Before(Lagging(), 1, 1, Delivering({0}, {}), map[], {0}, {0});
    GoOn(s, Report(Supervisor(0), 0));
    assert UpdateSlots(s.hub.slots, Shared, {0}, Timed(0, LagSeen)) == map[0 := Lagging()];
    assert Do(s, Report(Supervisor(0), 0)) == s';
    DoWork(s', 0, FrameDone, Before(Lagging(), 1, 1, Driving({0}), map[], {0}, {0}));
  }

  /** Then the connection is over, and the slot is listed to be ended. */
  lemma Stopped()
    ensures Reachable(Before(Lagging(), 1, 1, Ending({0}, Completed), map[], {0}, {0}))
  {
    LossReported();
    hide Reachable;
    hide Lag;
    var s := Before(Lagging(), 1, 1, Driving({0}), map[], {0}, {0});
    var s' := Before(Lagging(), 1, 1, Stopping({0}, Completed), map[], {0}, {0});
    DoWork(s, 0, Stop(Completed), s');
    assert Members(s'.hub, Shared) * {0} == {0};
    DoWork(s', 0, ListEnding, Before(Lagging(), 1, 1, Ending({0}, Completed), map[], {0}, {0}));
  }

  /** Meanwhile the consumer has drained its queue, asks for a resync and moves the slot. */
  lemma MovedMeanwhile()
    ensures Reachable(Before(Moved(None), 1, 1, Ending({0}, Completed), map[Consumer(0) := Bumping(true)], {}, {0}))
  {
    Stopped();
    hide Reachable;
    hide Lag;
    var c, pc := Consumer(0), Ending({0}, Completed);
    var s0 := Before(Lagging(), 1, 1, pc, map[], {0}, {0});
    var s1 := Before(Lagging(), 1, 1, pc, map[c := Resyncing(0)], {}, {0});
    GoOn(s0, TakeLag(0));
    assert Do(s0, TakeLag(0)) == s1;
    var s2 := Before(Asking(), 1, 1, pc, map[c := Moving(0, LaggedCause)], {}, {0});
    GoOn(s1, AskForResync(c));
    assert Do(s1, AskForResync(c)) == s2;
    GoOn(s2, Isolate(c));
    assert Do(s2, Isolate(c)) == Before(Moved(None), 1, 1, pc, map[c := Bumping(true)], {}, {0});
  }

  lemma PublishedMeanwhile()
    ensures Reachable(Before(Moved(None), 2, 2, Ending({0}, Completed), map[Consumer(0) := Ensuring], {}, {0}))
  {
    MovedMeanwhile();
    hide Reachable;
    hide Lag;
    var c, pc := Consumer(0), Ending({0}, Completed);
    var s0 := Before(Moved(None), 1, 1, pc, map[c := Bumping(true)], {}, {0});
    var s1 := Before(Moved(None), 2, 1, pc, map[c := Sending(true)], {}, {0});
    GoOn(s0, Bump(c));
    assert Do(s0, Bump(c)) == s1;
    GoOn(s1, Send(c));
    assert Do(s1, Send(c)) == Before(Moved(None), 2, 2, pc, map[c := Ensuring], {}, {0});
  }

  function Two(entry: SlotEntry, pc: Pc, seen: nat, missed: set<SlotId>): State {
    State(false, HubState(1, map[0 := entry], 2, Some(0), map[]), 2, map[0 := Shared, 1 := Isolated(0)],
          map[0 := Sup(Ending({0}, Completed), 1), 1 := Sup(pc, seen)], 2, map[], {}, missed)
  }

  lemma SecondIsStart(h: HubState)
    requires h == HubState(1, map[0 := Moved(None)], 2, Some(0), map[])
    ensures IsStart(h, {0}, 1, map[Isolated(0) := 1])
    ensures StartAll(h, map[Isolated(0) := 1]) == h.(slots := map[0 := Moved(Some(1))])
  {
    hide Lag;
    assert Unserved(h, {0}, Isolated(0));
  }

  lemma SecondStart()
    ensures Reachable(Two(Moved(Some(1)), Spawned, 0, {0}))
  {
    PublishedMeanwhile();
    hide Reachable;
    hide Lag;
    hide IsStart;
    var s := Before(Moved(None), 2, 2, Ending({0}, Completed), map[Consumer(0) := Ensuring], {}, {0});
    var a := Ensure(Consumer(0), map[Isolated(0) := 1], 2);
    StartedAlone(Isolated(0), 1);
    SecondIsStart(s.hub);
    assert s.scopes.Keys == {0};
    GoOn(s, a);
    hide StartedBy;
    hide SpawnAll;
    hide StartAll;
    assert Do(s, a) == Two(Moved(Some(1)), Spawned, 0, {0});
  }

  lemma SecondPrepares()
    ensures Reachable(Two(Moved(Some(1)), Preparing, 2, {0}))
  {
    SecondStart();
    hide Reachable;
    hide Lag;
    hide CatchUp;
    var entry := Moved(Some(1));
    DoWork(Two(entry, Spawned, 0, {0}), 1, Subscribe, Two(entry, Starting, 2, {0}));
    DoWork(Two(entry, Starting, 2, {0}), 1, Start, Two(entry, Waiting({0}), 2, {0}));
    DoWork(Two(entry, Waiting({0}), 2, {0}), 1, Work.Timeout, Two(entry, Preparing, 2, {0}));
  }

  /** The slot's own connection comes up. */
  lemma SecondConnected()
    ensures Reachable(Two(Replaying(), Driving({0}), 2, {}))
  {
    SecondPrepares();
    hide Reachable;
    hide Lag;
    hide CatchUp;
    var s := Two(Moved(Some(1)), Preparing, 2, {0});
    assert Members(s.hub, Isolated(0)) == {0} && Replayed(s.hub, Isolated(0)) == {0};
    assert TakeSnapshot(s.hub, Isolated(0)) == s.hub.(slots := map[0 := Replaying()]);
    DoWork(s, 1, Snapshot, Two(Replaying(), Prepared({0}), 2, {}));
    DoWork(Two(Replaying(), Prepared({0}), 2, {}), 1, Connect, Two(Replaying(), Driving({0}), 2, {}));
  }

  function Gone(pc: map<Token, Sup>, scopes: map<Token, Scope>, calls: map<Thread, Call>): State {
    State(false, HubState(1, map[], 2, Some(0), map[0 := Finish(Replaying().health, 0, Completed)]), 2,
          scopes, pc, 2, calls, {}, {})
  }

  /** The stopped connection ends the slot it listed. */
  lemma EndedAnyway()
    ensures Reachable(Gone(map[0 := Sup(Exiting, 1), 1 := Sup(Driving({0}), 2)], map[0 := Shared, 1 := Isolated(0)],
                           map[]))
  {
    SecondConnected();
    hide Reachable;
    hide Lag;
    hide CatchUp;
    hide Finish;
    var s0 := Two(Replaying(), Driving({0}), 2, {});
    var s1 := Gone(map[0 := Sup(Exiting, 1), 1 := Sup(Driving({0}), 2)], map[0 := Shared, 1 := Isolated(0)], map[]);
    assert EndSlots(s0.hub, {0}, Completed, 0) == s1.hub;
    hide EndSlots;
    DoWork(s0, 0, EndAll(0), s1);
  }

  lemma TokenReleased()
    ensures Reachable(Gone(map[1 := Sup(Driving({0}), 2)], map[1 := Isolated(0)], map[Supervisor(0) := Ensuring]))
  {
    EndedAnyway();
    hide Reachable;
    hide Lag;
    hide CatchUp;
    hide Finish;
    var s0 := Gone(map[0 := Sup(Exiting, 1), 1 := Sup(Driving({0}), 2)], map[0 := Shared, 1 := Isolated(0)], map[]);
    var s1 := Gone(map[1 := Sup(Driving({0}), 2)], map[1 := Isolated(0)], map[Supervisor(0) := Ensuring]);
    DoWork(s0, 0, Release, s1);
  }

  lemma NobodyNotices()
    ensures Reachable(Gone(map[1 := Sup(Driving({0}), 2)], map[1 := Isolated(0)], map[]))
  {
    TokenReleased();
    hide Reachable;
    hide Lag;
    hide CatchUp;
    hide Finish;
    var s := Gone(map[1 := Sup(Driving({0}), 2)], map[1 := Isolated(0)], map[Supervisor(0) := Ensuring]);
    var a := Ensure(Supervisor(0), map[], 2);
    StartedNone(map[]);
    assert IsStart(s.hub, s.scopes.Keys, s.nextToken, map[]);
    assert StartAll(s.hub, map[]) == s.hub;
    hide StartedBy;
    hide SpawnAll;
    hide StartAll;
    hide IsStart;
    GoOn(s, a);
    assert Do(s, a) == Gone(map[1 := Sup(Driving({0}), 2)], map[1 := Isolated(0)], map[]);
  }

  /**
   The guarantee that a supervisor at rest serves its scope is false of some runs: this one ends with no call under way
   and a supervisor that has read every generation, and it drives a connection for a slot that is gone.
   */
  lemma WakeupCanBeLost()
    ensures exists s, t ::
              && Reachable(s) && s.calls == map[]
              && t in s.sups && t in s.scopes && s.sups[t].pc.Driving? && s.sups[t].seen == s.version
              && s.hub.slots == map[] && !Serves(s.hub, s.scopes[t], s.sups[t].pc.slots)
  {
    NobodyNotices();
    var s := Gone(map[1 := Sup(Driving({0}), 2)], map[1 := Isolated(0)], map[]);
    assert Members(s.hub, s.scopes[1]) == {};
    assert !Serves(s.hub, s.scopes[1], s.sups[1].pc.slots);
  }
}
