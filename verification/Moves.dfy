/** Why slots move to connections of their own. */
module Moves {
  import opened Health
  import opened HealthRuns
  import opened Hub
  import opened Protocol
  import opened Drivers
  import opened Lifecycle
  import opened Wakeups

  // ----- Causes -----

  predicate IsMoved(h: HubState, id: SlotId, cause: Cause) {
    id in h.slots && h.slots[id].isolated.Some? && h.slots[id].isolated.value.cause == cause
  }

  /** The step that decides that a slot moves: its own request for a resync, or a failure on the shared connection. */
  predicate Decides(s: State, a: Action, id: SlotId, cause: Cause) {
    if cause.LaggedCause? then a.AskForResync? && a.thread in s.calls && s.calls[a.thread] == Resyncing(id)
    else a.Supervise? && a.work == Expel(id, cause) && a.token in s.scopes && s.scopes[a.token] == Shared
  }

  lemma WorkMovesNobody(s: State, t: Token, work: Work, id: SlotId, cause: Cause)
    requires Free(s, t) && Ready(s, t, work) && IsMoved(AfterWork(s, t, work).hub, id, cause)
    ensures IsMoved(s.hub, id, cause)
  {
    hide Members;
    hide ReconnectNeeded;
    hide Next;
    hide PastDeadline;
    hide Stall;
  }

  lemma MovedStep(s: State, a: Action, id: SlotId, cause: Cause)
    requires Enabled(s, a) && IsMoved(Do(s, a).hub, id, cause)
    ensures IsMoved(s.hub, id, cause)
         || (a.Isolate? && a.thread in s.calls && s.calls[a.thread] == Moving(id, cause) && CanMove(s.hub, id))
  {
    hide StartedBy;
    hide SpawnAll;
    hide Next;
    hide AfterWork;
    if a.Supervise? {
      hide IsMoved;
      EnabledWork(s, a);
      WorkIs(s, a);
      WorkMovesNobody(s, a.token, a.work, id, cause);
    }
  }

  lemma WorkMoves(s: State, t: Token, work: Work, th: Thread, id: SlotId, cause: Cause)
    requires Free(s, t) && Ready(s, t, work)
    requires th in AfterWork(s, t, work).calls && AfterWork(s, t, work).calls[th] == Moving(id, cause)
    ensures (th in s.calls && s.calls[th] == Moving(id, cause))
         || (work == Expel(id, cause) && s.scopes[t] == Shared && !cause.LaggedCause?)
  {
    hide Members;
    hide Replayed;
    hide ReconnectNeeded;
    hide UpdateHealth;
    hide MarkStalled;
    hide TakeSnapshot;
    hide EndSlots;
  }

  lemma CallMoves(s: State, a: Action, th: Thread, id: SlotId, cause: Cause)
    requires Enabled(s, a) && !a.Supervise? && th in Do(s, a).calls && Do(s, a).calls[th] == Moving(id, cause)
    ensures (th in s.calls && s.calls[th] == Moving(id, cause)) || Decides(s, a, id, cause)
  {
    hide StartedBy;
    hide SpawnAll;
    hide StartAll;
    hide UpdateHealth;
    hide Insert;
    hide Remove;
    hide AskResync;
    hide MoveOff;
    hide NextGeneration;
    hide IsStart;
  }

  lemma MovingStep(s: State, a: Action, th: Thread, id: SlotId, cause: Cause)
    requires Enabled(s, a) && th in Do(s, a).calls && Do(s, a).calls[th] == Moving(id, cause)
    ensures (th in s.calls && s.calls[th] == Moving(id, cause)) || Decides(s, a, id, cause)
  {
    hide Do;
    hide AfterWork;
    if a.Supervise? {
      EnabledWork(s, a);
      WorkIs(s, a);
      WorkMoves(s, a.token, a.work, th, id, cause);
    } else {
      CallMoves(s, a, th, id, cause);
    }
  }

  ghost predicate Decided(states: seq<State>, actions: seq<Action>, id: SlotId, cause: Cause, i: nat)
    requires i <= |actions| < |states|
  {
    exists k :: 0 <= k < i && Decides(states[k], actions[k], id, cause)
  }

  ghost predicate WillMoveFor(s: State, id: SlotId, cause: Cause) {
    exists th :: th in s.calls && s.calls[th] == Moving(id, cause)
  }

  lemma DecidedLater(states: seq<State>, actions: seq<Action>, id: SlotId, cause: Cause, i: nat)
    requires i < |actions| < |states|
    requires Decided(states, actions, id, cause, i) || Decides(states[i], actions[i], id, cause)
    ensures Decided(states, actions, id, cause, i + 1)
  {
    hide Decides;
  }

  /**
   Over any run, a slot is on a connection of its own for a reason that occurred: it asked for a resync, or the shared
   connection found its payload malformed or was told that it is refused, whichever cause is recorded.
   */
  lemma {:induction false} MovesForItsReason(states: seq<State>, actions: seq<Action>, id: SlotId, cause: Cause, i: nat)
    requires IsHistory(states, actions) && i <= |actions|
    ensures |states| == |actions| + 1
    ensures IsMoved(states[i].hub, id, cause) || WillMoveFor(states[i], id, cause) ==>
              Decided(states, actions, id, cause, i)
  {
    hide *;
    if i == 0 {
      NobodyMovesAtFirst(states, actions, id, cause);
    } else {
      HistoryStep(states, actions, i - 1);
      MovesForItsReason(states, actions, id, cause, i - 1);
      if IsMoved(states[i].hub, id, cause) || WillMoveFor(states[i], id, cause) {
        MoveDecided(states[i - 1], actions[i - 1], id, cause);
      }
      if Decided(states, actions, id, cause, i - 1) || Decides(states[i - 1], actions[i - 1], id, cause) {
        DecidedLater(states, actions, id, cause, i - 1);
      }
    }
  }

  lemma NobodyMovesAtFirst(states: seq<State>, actions: seq<Action>, id: SlotId, cause: Cause)
    requires IsHistory(states, actions)
    ensures |states| == |actions| + 1
    ensures !IsMoved(states[0].hub, id, cause) && !WillMoveFor(states[0], id, cause)
  {}

  lemma MoveDecided(s: State, a: Action, id: SlotId, cause: Cause)
    requires Enabled(s, a) && (IsMoved(Do(s, a).hub, id, cause) || WillMoveFor(Do(s, a), id, cause))
    ensures IsMoved(s.hub, id, cause) || WillMoveFor(s, id, cause) || Decides(s, a, id, cause)
  {
    hide Do;
    hide Enabled;
    hide Decides;
    hide IsMoved;
    if IsMoved(Do(s, a).hub, id, cause) {
      MovedStep(s, a, id, cause);
    } else {
      var th :| th in Do(s, a).calls && Do(s, a).calls[th] == Moving(id, cause);
      MovingStep(s, a, th, id, cause);
    }
  }
}
