/** What one section does to the connections it is not about, and what it does, exactly, to its own. */
module Scopes {
  import opened Options
  import opened Health
  import opened HealthRuns
  import opened Hub

  // ----- Moving a slot -----

  lemma MembersAfterMove(h: HubState, id: SlotId, cause: Cause)
    requires CanMove(h, id)
    ensures Members(MoveOff(h, id, cause), Shared) == Members(h, Shared) - {id}
    ensures forall other :: other in h.slots && other != id ==>
              MoveOff(h, id, cause).slots[other] == h.slots[other]
    ensures MoveOff(h, id, cause).slots.Keys == h.slots.Keys
  {}

  /** No slot of the shared connection but `id` asks for a resync. */
  ghost predicate OthersAskNothing(h: HubState, id: SlotId) {
    forall other :: other in Members(h, Shared) && other != id ==> !h.slots[other].resync
  }

  lemma ResyncAfterMove(h: HubState, id: SlotId, cause: Cause)
    requires CanMove(h, id) && OthersAskNothing(h, id)
    ensures !ResyncPending(MoveOff(h, id, cause), Shared)
  {
    MembersAfterMove(h, id, cause);
    var h' := MoveOff(h, id, cause);
    forall other | other in Members(h', Shared)
      ensures !h'.slots[other].resync
    {
      assert other in Members(h, Shared);
    }
  }

  lemma MovedIsStale(connected: set<SlotId>, members: set<SlotId>, id: SlotId)
    requires id in members && id in connected
    ensures |connected - (members - {id})| == |connected - members| + 1
  {
    assert connected - (members - {id}) == connected - members + {id};
  }

  /**
   Once a slot has moved off the shared connection, whatever the cause and also when it asked for a resync itself, its
   siblings need a reconnect if and only if none is left or its alias is one stale alias too many. Before the move the
   connection covers all of them, with no more stale aliases than it tolerates, and no sibling asks for a resync.
   */
  lemma MovingReconnectsNoSibling(h: HubState, id: SlotId, cause: Cause, connected: set<SlotId>)
    requires CanMove(h, id) && OthersAskNothing(h, id)
    requires Members(h, Shared) <= connected && |connected - Members(h, Shared)| <= 32
    ensures ReconnectNeeded(MoveOff(h, id, cause), Shared, connected)
       <==> Members(h, Shared) == {id} || |connected - Members(h, Shared)| == 32
  {
    var h', members := MoveOff(h, id, cause), Members(h, Shared);
    assert id in members;
    MembersAfterMove(h, id, cause);
    ResyncAfterMove(h, id, cause);
    MovedIsStale(connected, members, id);
    assert members - {id} == {} <==> members == {id};
    hide MoveOff;
    hide Members;
    hide ResyncPending;
    hide OthersAskNothing;
  }

  lemma OwnMembersAfterMove(h: HubState, id: SlotId, cause: Cause, own: SlotId)
    ensures Members(MoveOff(h, id, cause), Isolated(own)) == Members(h, Isolated(own))
    ensures MoveOff(h, id, cause).slots.Keys == h.slots.Keys
    ensures forall other :: other in h.slots ==>
              MoveOff(h, id, cause).slots[other].resync == h.slots[other].resync
  {}

  /** No connection of one slot is reconnected because another slot moves. */
  lemma MovingReconnectsNoIsolated(h: HubState, id: SlotId, cause: Cause, own: SlotId, connected: set<SlotId>)
    ensures ReconnectNeeded(MoveOff(h, id, cause), Isolated(own), connected)
       <==> ReconnectNeeded(h, Isolated(own), connected)
  {
    OwnMembersAfterMove(h, id, cause, own);
    hide MoveOff;
  }

  // ----- Counting connections -----

  /** The scopes of the slots in `ids`. */
  function ScopesOf(h: HubState, ids: set<SlotId>): set<Scope>
    requires ids <= h.slots.Keys
  {
    set id | id in ids :: ScopeOf(id, h.slots[id])
  }

  lemma {:induction false} FewerScopes(h: HubState, ids: set<SlotId>)
    requires ids <= h.slots.Keys
    ensures |ScopesOf(h, ids)| <= |ids|
    decreases |ids|
  {
    if ids == {} {
      assert ScopesOf(h, ids) == {};
    } else {
      var id :| id in ids;
      FewerScopes(h, ids - {id});
      assert ScopesOf(h, ids) == ScopesOf(h, ids - {id}) + {ScopeOf(id, h.slots[id])};
    }
  }

  /** The connections with subscriptions never outnumber the subscriptions. */
  lemma ConnectionsNeverOutnumberSlots(h: HubState, scopes: set<Scope>)
    requires forall scope :: scope in scopes ==> Inhabited(h, scope)
    ensures |scopes| <= |h.slots|
  {
    var all := ScopesOf(h, h.slots.Keys);
    FewerScopes(h, h.slots.Keys);
    forall scope | scope in scopes
      ensures scope in all
    {
      if scope.Shared? {
        var id :| id in h.slots && h.slots[id].isolated.None?;
        assert ScopeOf(id, h.slots[id]) == scope;
      } else {
        assert ScopeOf(scope.id, h.slots[scope.id]) == scope;
      }
    }
    SubsetIsSmaller(scopes, all);
    assert |h.slots.Keys| == |h.slots|;
  }

  lemma {:induction false} SubsetIsSmaller<T>(a: set<T>, b: set<T>)
    requires a <= b
    ensures |a| <= |b|
  {
    if a != {} {
      var x :| x in a;
      SubsetIsSmaller(a - {x}, b - {x});
    }
  }

  // ----- Whom a section reaches -----

  /**
   A refusal reaches exactly the listed slots that are on the connection: each of them is refused, unless it has ended,
   with one more failure; no other slot changes at all.
   */
  lemma RefusesExactlyTheListed(h: HubState, scope: Scope, ids: set<SlotId>, problem: Problem, now: Instant, id: SlotId)
    requires id in h.slots
    ensures var h' := UpdateHealth(h, scope, ids, Timed(now, RefusalSeen(problem)));
            && id in h'.slots
            && if id in ids && id in Members(h, scope) then
                 && (h'.slots[id].health.status.Rejected? <==> !h.slots[id].health.status.Ended?)
                 && h'.slots[id].health.lastProblem == Some(problem)
                 && h'.slots[id] == h.slots[id].(health := h'.slots[id].health)
               else h'.slots[id] == h.slots[id]
  {}

  /** A keepalive reaches exactly the listed slots that are on the connection. */
  lemma RevivesExactlyTheListed(h: HubState, scope: Scope, ids: set<SlotId>, now: Instant, id: SlotId)
    requires id in h.slots && Consistent(h.slots[id].health)
    ensures var h' := UpdateHealth(h, scope, ids, Timed(now, KeepaliveOrEvent));
            && id in h'.slots
            && if id in ids && id in Members(h, scope) then
                 && h'.slots[id].health.lastTransportActivity == Some(now)
                 && (h'.slots[id].health.Works() <==> !h.slots[id].health.lagging && !h.slots[id].health.status.Ended?)
                 && h'.slots[id] == h.slots[id].(health := h'.slots[id].health)
               else h'.slots[id] == h.slots[id]
  {}

  /**
   A snapshot answers exactly the resync requests of its scope: a slot that asked asks no longer and does not lag,
   though it works only once something comes over the new connection; no other slot changes at all.
   */
  lemma AnswersExactlyTheAsking(h: HubState, scope: Scope, id: SlotId)
    requires id in h.slots
    ensures var h' := TakeSnapshot(h, scope);
            && id in h'.slots
            && if id in Members(h, scope) && h.slots[id].resync then
                 && !h'.slots[id].resync && !h'.slots[id].health.lagging
                 && h'.slots[id].health.status == h.slots[id].health.status
                 && h'.slots[id].isolated == h.slots[id].isolated
               else h'.slots[id] == h.slots[id]
  {}

  /** Ending slots takes exactly the listed ones away, each with the given end unless it had one. */
  lemma EndsExactlyTheListed(h: HubState, ids: set<SlotId>, end: End, now: Instant, id: SlotId)
    requires id in h.slots
    ensures var h' := EndSlots(h, ids, end, now);
            if id in ids then
              && id !in h'.slots && id in h'.departed
              && h'.departed[id].status == (if h.slots[id].health.status.Ended? then h.slots[id].health.status
                                            else Ended(end))
            else id in h'.slots && h'.slots[id] == h.slots[id]
  {}

  // ----- Silence -----

  /** Nothing came for as long as the threshold, and the silence can still show: it is not shown yet, nor refused. */
  predicate IsLate(t: Tracker, threshold: Duration, now: Instant) {
    && !t.status.Stalled? && !t.status.Rejected? && !t.status.Ended?
    && (match t.lastTransportActivity case Some(seen) => seen case None => t.created) + threshold <= now
  }

  lemma StallIsExact(t: Tracker, threshold: Duration, now: Instant)
    requires Consistent(t)
    ensures PastDeadline(t, threshold, now) <==> IsLate(t, threshold, now)
    ensures IsLate(t, threshold, now) ==> Stall(t, now).status.Stalled?
  {}

  /**
   Stall detection is exact: the slots of the scope that become stalled are those from which nothing came for as long
   as the threshold and that are not refused, and no other slot changes at all.
   */
  lemma StallsExactlyTheLate(h: HubState, scope: Scope, threshold: Duration, now: Instant, id: SlotId)
    requires id in h.slots && Consistent(h.slots[id].health)
    ensures id in MarkStalled(h, scope, threshold, now).slots
    ensures var entry, entry' := h.slots[id], MarkStalled(h, scope, threshold, now).slots[id];
            if id in Members(h, scope) && IsLate(entry.health, threshold, now) then
              entry'.health.status.Stalled? && entry' == entry.(health := entry'.health)
            else entry' == entry
  {
    StallIsExact(h.slots[id].health, threshold, now);
    hide PastDeadline;
    hide Stall;
    hide IsLate;
  }

  lemma LateOnesAreStalled(t: Tracker, threshold: Duration, now: Instant)
    requires Consistent(t)
    ensures var t' := if PastDeadline(t, threshold, now) then Stall(t, now) else t;
            StallDeadline(t', threshold).Some? ==> StallDeadline(t', threshold).value > now
  {}

  /** After that, the next wakeup, if there is one, lies in the future, so stall detection does not spin. */
  lemma NextStallIsLater(h: HubState, scope: Scope, threshold: Duration, now: Instant, wakeup: Option<Instant>)
    requires forall id :: id in h.slots ==> Consistent(h.slots[id].health)
    requires IsStallWakeup(MarkStalled(h, scope, threshold, now), scope, threshold, wakeup)
    ensures wakeup.Some? ==> wakeup.value > now
  {
    hide PastDeadline;
    hide Stall;
    hide Consistent;
    hide StallDeadline;
    var h' := MarkStalled(h, scope, threshold, now);
    if wakeup.Some? {
      var id :| id in Members(h', scope) && StallDeadline(h'.slots[id].health, threshold) == wakeup;
      LateOnesAreStalled(h.slots[id].health, threshold, now);
    }
  }
}
