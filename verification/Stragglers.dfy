/**
 Whether a slot that left the shared connection can lag again. Its own connection waits for its consumer, so only the
 shared connection drops events, and it looks up whose events it hands out before it hands them out. What it has in hand
 when the slot leaves can still be dropped; nothing it takes later can.
 */
module Stragglers {
  import opened Options
  import opened Health
  import opened Hub
  import opened Protocol
  import opened Drivers
  import opened Lifecycle
  import opened Wakeups
  import opened Races

  /** Events for the slot are handed out, or will be if the connection cannot be opened. */
  predicate InHand(pc: Pc, id: SlotId) {
    (pc.Prepared? || (pc.Delivering? && id in pc.live)) && id in pc.slots
  }

  /** A supervisor that drops events has one for the slot in hand. */
  predicate Holds(s: State, t: Token, id: SlotId) {
    t in s.sups && t in s.scopes && Shares(s, t) && InHand(s.sups[t].pc, id)
  }

  ghost predicate IsHeld(s: State, id: SlotId) {
    exists t :: Holds(s, t, id)
  }

  /** The slot was on the shared connection, or was to be, and is there no more. */
  predicate HasLeft(h: HubState, id: SlotId) {
    id < h.nextId && id !in Members(h, Shared)
  }

  /** The supervisor looks up the slots that are on its connection. */
  predicate LooksUp(a: Action, t: Token) {
    a.Supervise? && a.token == t && (a.work.Snapshot? || a.work.TakeFrame?)
  }

  // ----- One step -----

  lemma HandAfterWork(s: State, t: Token, work: Work, id: SlotId)
    requires Free(s, t) && Ready(s, t, work) && !work.Release?
    ensures t in AfterWork(s, t, work).sups
    ensures InHand(AfterWork(s, t, work).sups[t].pc, id) ==>
              if work.Snapshot? || work.TakeFrame? then id in Members(s.hub, s.scopes[t])
              else InHand(s.sups[t].pc, id)
  {
    hide Members;
    hide Replayed;
    hide ReconnectNeeded;
    hide UpdateHealth;
    hide MarkStalled;
    hide TakeSnapshot;
    hide EndSlots;
  }

  lemma ReleasedIsGone(s: State, a: Action)
    requires Enabled(s, a) && a.Supervise? && a.work.Release?
    ensures Do(s, a).sups == s.sups - {a.token} && Do(s, a).scopes == s.scopes - {a.token}
  {}

  /** What a supervisor has in hand it had before, unless it looked up just now who is there. */
  lemma HandStep(s: State, a: Action, t: Token, id: SlotId)
    requires Enabled(s, a) && AllInPlace(s) && OneDriverEach(s.hub, s.scopes, s.nextToken)
    requires t in Do(s, a).sups && t in Do(s, a).scopes && InHand(Do(s, a).sups[t].pc, id)
    ensures t in s.sups && t in s.scopes && Do(s, a).scopes[t] == s.scopes[t]
    ensures if LooksUp(a, t) then id in Members(s.hub, s.scopes[t]) else InHand(s.sups[t].pc, id)
  {
    hide Do;
    hide Enabled;
    hide AfterWork;
    hide Members;
    hide OneDriverEach;
    hide AllInPlace;
    hide Ready;
    if a.Ensure? {
      if t in a.starts.Values {
        StartedIsSpawned(s, a, t);
      } else {
        EnsureKeepsSup(s, a, t);
      }
    } else if !a.Supervise? {
      CallsKeepSups(s, a);
    } else if a.work.Release? {
      ReleasedIsGone(s, a);
    } else {
      EnabledWork(s, a);
      WorkIs(s, a);
      OthersStay(s, a.token, a.work);
      if a.token == t {
        HandAfterWork(s, t, a.work, id);
      }
    }
  }

  lemma StaysAway(h: HubState, h': HubState, id: SlotId)
    requires HasLeft(h, id) && Settled(h, h')
    ensures HasLeft(h', id)
  {}

  lemma DedicatedStays(s: State, a: Action)
    requires Enabled(s, a)
    ensures Do(s, a).dedicated == s.dedicated
  {
    hide StartedBy;
    hide SpawnAll;
    hide StartAll;
    hide UpdateHealth;
    hide Ready;
    if a.Supervise? {
      hide Do;
      EnabledWork(s, a);
      WorkIs(s, a);
      WorkKeepsDedicated(s, a.token, a.work);
    }
  }

  lemma WorkKeepsDedicated(s: State, t: Token, work: Work)
    requires Free(s, t) && Ready(s, t, work)
    ensures AfterWork(s, t, work).dedicated == s.dedicated
  {
    hide Members;
    hide Replayed;
    hide ReconnectNeeded;
    hide UpdateHealth;
    hide MarkStalled;
    hide TakeSnapshot;
    hide EndSlots;
  }

  // ----- What the shared connection can still drop -----

  /** The supervisor's last look before step `i` was step `j`. */
  ghost predicate LookedLast(actions: seq<Action>, t: Token, j: nat, i: nat) {
    && j < i <= |actions| && LooksUp(actions[j], t)
    && forall k :: j < k < i ==> !LooksUp(actions[k], t)
  }

  ghost predicate Belonged(states: seq<State>, j: nat, t: Token, scope: Scope, id: SlotId) {
    j < |states| && t in states[j].scopes && states[j].scopes[t] == scope && id in Members(states[j].hub, scope)
  }

  lemma InHandBefore(states: seq<State>, actions: seq<Action>, i: nat, t: Token, id: SlotId)
    requires IsHistory(states, actions) && i < |actions|
    requires |states| == |actions| + 1 && t in states[i + 1].sups && t in states[i + 1].scopes
    requires InHand(states[i + 1].sups[t].pc, id)
    ensures t in states[i].sups && t in states[i].scopes && states[i + 1].scopes[t] == states[i].scopes[t]
    ensures if LooksUp(actions[i], t) then id in Members(states[i].hub, states[i].scopes[t])
            else InHand(states[i].sups[t].pc, id)
  {
    hide *;
    HistoryStep(states, actions, i);
    NoDoubleDriver(states, actions, i);
    RunStaysInformed(states, actions, false, i);
    HandStep(states[i], actions[i], t, id);
  }

  lemma NobodyAtFirst(states: seq<State>, actions: seq<Action>, t: Token)
    requires IsHistory(states, actions)
    ensures |states| == |actions| + 1 && t !in states[0].sups
  {}

  lemma {:induction false} InHandSince(states: seq<State>, actions: seq<Action>, i: nat, t: Token, id: SlotId)
      returns (j: nat)
    requires IsHistory(states, actions) && i <= |actions|
    requires |states| == |actions| + 1 && t in states[i].sups && t in states[i].scopes
    requires InHand(states[i].sups[t].pc, id)
    ensures LookedLast(actions, t, j, i) && Belonged(states, j, t, states[i].scopes[t], id)
  {
    hide *;
    NobodyAtFirst(states, actions, t);
    if i > 0 {
      InHandBefore(states, actions, i - 1, t, id);
      if LooksUp(actions[i - 1], t) {
        j := i - 1;
        LooksNow(actions, t, i);
        BelongedThen(states, i - 1, t, id);
      } else {
        j := InHandSince(states, actions, i - 1, t, id);
        LookedBefore(actions, t, j, i - 1);
      }
    }
  }

  lemma LooksNow(actions: seq<Action>, t: Token, i: nat)
    requires 0 < i <= |actions| && LooksUp(actions[i - 1], t)
    ensures LookedLast(actions, t, i - 1, i)
  {}

  lemma LookedBefore(actions: seq<Action>, t: Token, j: nat, i: nat)
    requires LookedLast(actions, t, j, i) && i < |actions| && !LooksUp(actions[i], t)
    ensures LookedLast(actions, t, j, i + 1)
  {}

  lemma BelongedThen(states: seq<State>, j: nat, t: Token, id: SlotId)
    requires j < |states| && t in states[j].scopes && id in Members(states[j].hub, states[j].scopes[t])
    ensures Belonged(states, j, t, states[j].scopes[t], id)
  {}

  lemma LosesFromHand(s: State, t: Token, id: SlotId)
    requires Enabled(s, Supervise(t, Lose(id)))
    ensures Holds(s, t, id) && s.scopes[t] == Shared
  {}

  /**
   In any run, an event for a slot is dropped only by a shared connection that found the slot there when it last looked;
   so what is dropped for a slot that has left was taken before it left.
   */
  lemma LostOnlyIfTakenBefore(states: seq<State>, actions: seq<Action>, i: nat, t: Token, id: SlotId) returns (j: nat)
    requires IsHistory(states, actions) && i < |actions| && actions[i] == Supervise(t, Lose(id))
    ensures |states| == |actions| + 1
    ensures LookedLast(actions, t, j, i) && Belonged(states, j, t, Shared, id)
    ensures forall m :: 0 <= m <= i && HasLeft(states[m].hub, id) ==> j < m
  {
    hide *;
    HistoryStep(states, actions, i);
    LosesFromHand(states[i], t, id);
    j := TakenBefore(states, actions, i, t, id);
    forall m | 0 <= m <= i && HasLeft(states[m].hub, id)
      ensures j < m
    {
      if m <= j {
        LastIsBefore(actions, t, j, i);
        NothingReturns(states, actions, m, j);
        StaysAway(states[m].hub, states[j].hub, id);
        BelongsNoMore(states, j, t, id);
        assert false;
      }
    }
  }

  lemma TakenBefore(states: seq<State>, actions: seq<Action>, i: nat, t: Token, id: SlotId) returns (j: nat)
    requires IsHistory(states, actions) && i < |actions|
    requires |states| == |actions| + 1 && Holds(states[i], t, id) && states[i].scopes[t] == Shared
    ensures LookedLast(actions, t, j, i) && Belonged(states, j, t, Shared, id)
  {
    hide IsHistory;
    hide InHand;
    hide LookedLast;
    hide Belonged;
    j := InHandSince(states, actions, i, t, id);
  }

  lemma LastIsBefore(actions: seq<Action>, t: Token, j: nat, i: nat)
    requires LookedLast(actions, t, j, i)
    ensures j < i <= |actions|
  {}

  lemma BelongsNoMore(states: seq<State>, j: nat, t: Token, id: SlotId)
    requires j < |states| && HasLeft(states[j].hub, id)
    ensures !Belonged(states, j, t, Shared, id)
  {}

  // ----- Going on -----

  ghost predicate IsRun(states: seq<State>, actions: seq<Action>) {
    && |states| == |actions| + 1
    && forall i :: 0 <= i < |actions| ==> Enabled(states[i], actions[i]) && states[i + 1] == Do(states[i], actions[i])
  }

  ghost predicate LeadsTo(s: State, s': State) {
    exists states: seq<State>, actions: seq<Action> ::
      IsRun(states, actions) && states[0] == s && states[|actions|] == s'
  }

  /** The run can come to a state in which an event for the slot is dropped. */
  ghost predicate CanLag(s: State, id: SlotId) {
    exists s', t :: LeadsTo(s, s') && Enabled(s', Supervise(t, Lose(id)))
  }

  lemma Stay(s: State)
    ensures LeadsTo(s, s)
  {
    var states, actions: seq<Action> := [s], [];
    assert IsRun(states, actions) && states[0] == s && states[|actions|] == s;
  }

  lemma Onwards(s: State, s': State, a: Action)
    requires LeadsTo(s, s') && Enabled(s', a)
    ensures LeadsTo(s, Do(s', a))
  {
    var states: seq<State>, actions: seq<Action> :|
      IsRun(states, actions) && states[0] == s && states[|actions|] == s';
    var s'' := Do(s', a);
    hide Do;
    hide Enabled;
    var more, all := states + [s''], actions + [a];
    assert IsRun(more, all) by {
      forall i | 0 <= i < |all|
        ensures Enabled(more[i], all[i]) && more[i + 1] == Do(more[i], all[i])
      {}
    }
    assert more[0] == s && more[|all|] == s'';
  }

  /** A history goes on as any run from its last state does. */
  lemma {:induction false} HistoryGoesOn(states: seq<State>, actions: seq<Action>, s: State, more: seq<State>,
                                         further: seq<Action>)
      returns (all: seq<State>, taken: seq<Action>)
    requires IsHistory(states, actions) && states[|actions|] == s && IsRun(more, further) && more[0] == s
    ensures IsHistory(all, taken) && |taken| == |actions| + |further| && |all| == |taken| + 1
    ensures forall k :: 0 <= k <= |actions| ==> all[k] == states[k]
    ensures forall k :: 0 <= k <= |further| ==> all[|actions| + k] == more[k]
  {
    hide Enabled;
    hide Do;
    all, taken := states + more[1..], actions + further;
    var n := |actions|;
    forall i | 0 <= i < |taken|
      ensures Enabled(all[i], taken[i]) && all[i + 1] == Do(all[i], taken[i])
    {
      if i >= n {
        assert taken[i] == further[i - n] && all[i] == more[i - n] && all[i + 1] == more[i + 1 - n];
      } else {
        assert taken[i] == actions[i] && all[i] == states[i] && all[i + 1] == states[i + 1];
      }
    }
  }

  // ----- A thread finishes its call -----

  function StepsLeft(call: Call): nat {
    match call
    case Resyncing(_) => 5
    case Moving(_, _) => 4
    case Bumping(_) => 3
    case Sending(_) => 2
    case Ensuring => 1
    case Flagging(_) => 2
    case Reporting(_) => 1
  }

  function Code(scope: Scope): nat {
    if scope.Shared? then 0 else scope.id + 1
  }

  /** The missing supervisors can be started. */
  lemma CanStart(s: State) returns (starts: map<Scope, Token>, next: Token)
    requires OneDriverEach(s.hub, s.scopes, s.nextToken)
    ensures IsStart(s.hub, s.scopes.Keys, s.nextToken, starts)
    ensures s.nextToken <= next && forall scope :: scope in starts ==> starts[scope] < next
  {
    var live, first := s.scopes.Keys, s.nextToken;
    var scopes := {Shared} + set id | id in s.hub.slots :: Isolated(id);
    starts := map scope | scope in scopes && Unserved(s.hub, live, scope) :: first + Code(scope);
    next := first + s.hub.nextId + 2;
    forall scope | Unserved(s.hub, live, scope)
      ensures scope in scopes
    {}
  }

  lemma CallGoesOn(s: State, th: Thread) returns (a: Action)
    requires th in s.calls && OneDriverEach(s.hub, s.scopes, s.nextToken)
    ensures Enabled(s, a) && !a.Supervise? && ThreadOf(s, a) == th
    ensures th in Do(s, a).calls ==> StepsLeft(Do(s, a).calls[th]) < StepsLeft(s.calls[th])
  {
    hide IsStart;
    hide StartedBy;
    hide SpawnAll;
    hide StartAll;
    hide UpdateHealth;
    match s.calls[th]
    case Resyncing(_) => a := AskForResync(th);
    case Moving(_, _) => a := Isolate(th);
    case Bumping(_) => a := Bump(th);
    case Sending(_) => a := Send(th);
    case Ensuring =>
      var starts, next := CanStart(s);
      hide OneDriverEach;
      a := Ensure(th, starts, next);
    case Flagging(_) => a := Flag(th);
    case Reporting(_) => a := Report(th, 0);
  }

  lemma SupStays(s: State, a: Action, t: Token)
    requires Enabled(s, a) && !a.Supervise? && OneDriverEach(s.hub, s.scopes, s.nextToken)
    requires t in s.sups && t in s.scopes
    ensures t in Do(s, a).sups && t in Do(s, a).scopes
    ensures Do(s, a).sups[t] == s.sups[t] && Do(s, a).scopes[t] == s.scopes[t]
  {
    if a.Ensure? {
      EnsureAddsSups(s, a);
      assert t < s.nextToken;
      assert t !in a.starts.Values;
    } else {
      CallsKeepSups(s, a);
    }
    hide Do;
  }

  /** Whatever call a supervisor is in, it comes back from it. */
  lemma {:induction false} CallReturns(s: State, s': State, t: Token) returns (s'': State)
    requires LeadsTo(s, s') && OneDriverEach(s'.hub, s'.scopes, s'.nextToken) && t in s'.sups && t in s'.scopes
    ensures LeadsTo(s, s'') && Free(s'', t) && s''.sups[t] == s'.sups[t] && s''.scopes[t] == s'.scopes[t]
    ensures s''.dedicated == s'.dedicated
    decreases if Supervisor(t) in s'.calls then StepsLeft(s'.calls[Supervisor(t)]) + 1 else 0
  {
    hide *;
    if Supervisor(t) in s'.calls {
      var a := CallGoesOn(s', Supervisor(t));
      SupStays(s', a, t);
      DedicatedStays(s', a);
      OneDriverStep(s', a);
      Onwards(s, s', a);
      s'' := CallReturns(s, Do(s', a), t);
    } else {
      s'' := s';
      IsFree(s'', t);
    }
  }

  lemma IsFree(s: State, t: Token)
    requires t in s.sups && t in s.scopes && Supervisor(t) !in s.calls
    ensures Free(s, t)
  {}

  // ----- Lagging again -----

  /** A supervisor that has an event for the slot in hand may drop it. */
  lemma HeldCanLag(s: State, t: Token, id: SlotId)
    requires OneDriverEach(s.hub, s.scopes, s.nextToken) && Holds(s, t, id)
    ensures CanLag(s, id)
  {
    Stay(s);
    var s' := CallReturns(s, s, t);
    hide OneDriverEach;
    hide LeadsTo;
    if s'.sups[t].pc.Prepared? {
      var a := Supervise(t, FailOpen);
      Onwards(s, s', a);
      FailsToOpen(s', t, id);
      s' := Do(s', a);
    }
    hide Do;
    assert Enabled(s', Supervise(t, Lose(id)));
  }

  lemma FailsToOpen(s: State, t: Token, id: SlotId)
    requires Free(s, t) && s.sups[t].pc.Prepared? && Holds(s, t, id)
    ensures Enabled(s, Supervise(t, FailOpen))
    ensures Free(Do(s, Supervise(t, FailOpen)), t) && Holds(Do(s, Supervise(t, FailOpen)), t, id)
    ensures Do(s, Supervise(t, FailOpen)).sups[t].pc.Delivering?
  {}

  lemma HeldBefore(s: State, a: Action, t: Token, id: SlotId)
    requires Enabled(s, a) && AllInPlace(s) && OneDriverEach(s.hub, s.scopes, s.nextToken)
    requires HasLeft(s.hub, id) && Holds(Do(s, a), t, id)
    ensures Holds(s, t, id)
  {
    hide Do;
    hide Enabled;
    hide AllInPlace;
    hide OneDriverEach;
    hide InHand;
    HandStep(s, a, t, id);
    DedicatedStays(s, a);
  }

  /** Nobody comes to hold an event for a slot that has left. */
  lemma {:induction false} HeldAllAlong(states: seq<State>, actions: seq<Action>, i: nat, j: nat, t: Token, id: SlotId)
    requires IsHistory(states, actions) && i <= j <= |actions|
    requires |states| == |actions| + 1 && HasLeft(states[i].hub, id) && Holds(states[j], t, id)
    ensures Holds(states[i], t, id)
    decreases j
  {
    hide *;
    if i < j {
      HistoryStep(states, actions, j - 1);
      NoDoubleDriver(states, actions, j - 1);
      RunStaysInformed(states, actions, false, j - 1);
      NothingReturns(states, actions, i, j - 1);
      StaysAway(states[i].hub, states[j - 1].hub, id);
      HeldBefore(states[j - 1], actions[j - 1], t, id);
      HeldAllAlong(states, actions, i, j - 1, t, id);
    }
  }

  lemma HeldFromTheFirst(states: seq<State>, actions: seq<Action>, s: State, more: seq<State>, further: seq<Action>,
                         t: Token, id: SlotId)
    requires IsHistory(states, actions) && states[|actions|] == s && IsRun(more, further) && more[0] == s
    requires HasLeft(s.hub, id) && Holds(more[|further|], t, id)
    ensures Holds(s, t, id)
  {
    hide Holds;
    hide HasLeft;
    hide Enabled;
    hide Do;
    var all, taken := HistoryGoesOn(states, actions, s, more, further);
    assert all[|actions|] == s && all[|taken|] == more[|further|];
    HeldAllAlong(all, taken, |actions|, |taken|, t, id);
  }

  lemma LaggedIsHeld(states: seq<State>, actions: seq<Action>, s: State, id: SlotId)
    requires IsHistory(states, actions) && states[|actions|] == s && HasLeft(s.hub, id) && CanLag(s, id)
    ensures IsHeld(s, id)
  {
    hide IsHistory;
    hide HasLeft;
    hide Enabled;
    hide Do;
    var s', t :| LeadsTo(s, s') && Enabled(s', Supervise(t, Lose(id)));
    var more: seq<State>, further: seq<Action> :|
      IsRun(more, further) && more[0] == s && more[|further|] == s';
    LosesFromHand(s', t, id);
    hide Holds;
    HeldFromTheFirst(states, actions, s, more, further, t, id);
  }

  /**
   In every state of every run, a slot that has left the shared connection can lag again if and only if a shared
   connection has something for it in hand. Nothing takes it in hand afterwards, so once it is not, it never lags again.
   */
  lemma LagsAgainIffHeld(states: seq<State>, actions: seq<Action>, id: SlotId)
    requires IsHistory(states, actions) && HasLeft(states[|actions|].hub, id)
    ensures CanLag(states[|actions|], id) <==> IsHeld(states[|actions|], id)
  {
    var s := states[|actions|];
    hide CanLag;
    hide HasLeft;
    hide Holds;
    if CanLag(s, id) {
      LaggedIsHeld(states, actions, s, id);
    }
    if IsHeld(s, id) {
      var t :| Holds(s, t, id);
      NoDoubleDriver(states, actions, |actions|);
      HeldCanLag(s, t, id);
    }
  }

  // ----- A run in which a slot lags again -----

  lemma TakenInHand()
    ensures Reachable(Before(Lagging(), 1, 1, Delivering({0}, {0}), map[], {0}, {0}))
  {
    LossReported();
    hide Reachable;
    hide Lag;
    var s := Before(Lagging(), 1, 1, Driving({0}), map[], {0}, {0});
    assert Members(s.hub, Shared) * {0} == {0};
    DoWork(s, 0, TakeFrame, Before(Lagging(), 1, 1, Delivering({0}, {0}), map[], {0}, {0}));
  }

  /** The consumer drains its queue, asks for a resync and moves the slot while the next frame is handed out. */
  lemma MovedFromHand()
    ensures Reachable(Before(Moved(None), 1, 1, Delivering({0}, {0}), map[Consumer(0) := Bumping(true)], {}, {0}))
  {
    TakenInHand();
    hide Reachable;
    hide Lag;
    var c, pc := Consumer(0), Delivering({0}, {0});
    var s0 := Before(Lagging(), 1, 1, pc, map[], {0}, {0});
    var s1 := Before(Lagging(), 1, 1, pc, map[c := Resyncing(0)], {}, {0});
    GoOn(s0, TakeLag(0));
    assert Do(s0, TakeLag(0)) == s1;
    var s2 := Before(Asking(), 1, 1, pc, map[c := Moving(0, LaggedCause)], {}, {0});
    GoOn(s1, AskForResync(c));
    assert Do(s1, AskForResync(c)) == s2;
    GoOn(s2, Isolate(c));
    assert Do(s2, Isolate(c)) == Before(Moved(None), 1, 1, pc, map[c := Bumping(true)], {}, {0});
  }

  /** The promise that a slot that moved does not lag again is false of some runs. */
  lemma MovedSlotCanLagAgain()
    ensures exists s, t, id ::
              && Reachable(s) && id in s.hub.slots && s.hub.slots[id].isolated.Some?
              && Enabled(s, Supervise(t, Lose(id))) && id !in s.lagging
              && id in Do(Do(s, Supervise(t, Lose(id))), Flag(Supervisor(t))).lagging
  {
    MovedFromHand();
    hide Reachable;
    hide Lag;
    var s := Before(Moved(None), 1, 1, Delivering({0}, {0}), map[Consumer(0) := Bumping(true)], {}, {0});
    assert s.hub.slots[0].isolated.Some?;
    assert Enabled(s, Supervise(0, Lose(0)));
    var s' := Do(s, Supervise(0, Lose(0)));
    assert Enabled(s', Flag(Supervisor(0)));
    assert 0 in Do(s', Flag(Supervisor(0))).lagging;
  }
}
