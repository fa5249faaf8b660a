/**
 The state the subscriptions of one client share, and the sections of code that change it while they hold its lock.

 A section is a function from the state before to the state after. The class `HubShared`, below, changes its fields in
 place and is proved to do what these functions say; the protocol interleaves them.
 */
module Hub {
  import opened Options
  import opened Health
  import opened HealthRuns

  type SlotId = nat

  /** Names a supervisor: `Weak<()>` and `Arc<()>` as seen from outside. */
  type Token = nat

  /** Which connection a supervisor drives. */
  datatype Scope = Shared | Isolated(id: SlotId)

  /** Why a slot moved onto a connection of its own. */
  datatype Cause = RejectedCause | MalformedCause | LaggedCause

  datatype Isolation = Isolation(supervisor: Option<Token>, cause: Cause)

  datatype SlotEntry = SlotEntry(health: Tracker, isolated: Option<Isolation>, resync: bool)

  /** The state under the lock. `departed` is what the handles of the slots that left still report. */
  datatype HubState = HubState(
    nextId: SlotId,
    slots: map<SlotId, SlotEntry>,
    generation: nat,
    supervisor: Option<Token>,
    departed: map<SlotId, Tracker>)

  const MAX_STALE_ALIASES := 32

  // ----- Scopes -----

  function ScopeOf(id: SlotId, entry: SlotEntry): Scope {
    if entry.isolated.None? then Shared else Isolated(id)
  }

  predicate BelongsTo(id: SlotId, entry: SlotEntry, scope: Scope) {
    match scope
    case Shared => entry.isolated.None?
    case Isolated(own) => id == own
  }

  /** The slots of a scope. */
  function Members(h: HubState, scope: Scope): set<SlotId> {
    set id | id in h.slots && BelongsTo(id, h.slots[id], scope)
  }

  predicate ResyncPending(h: HubState, scope: Scope) {
    exists id :: id in Members(h, scope) && h.slots[id].resync
  }

  /** Whether a connection that carries `connected` no longer serves its scope. */
  predicate ReconnectNeeded(h: HubState, scope: Scope, connected: set<SlotId>) {
    var live := Members(h, scope);
    live == {} || ResyncPending(h, scope) || !(live <= connected) || |connected - live| > MAX_STALE_ALIASES
  }

  function Ids(ids: seq<SlotId>): set<SlotId> {
    set id | id in ids
  }

  // ----- Sections -----

  function Insert(h: HubState, health: Tracker): HubState {
    h.(nextId := h.nextId + 1, slots := h.slots[h.nextId := SlotEntry(health, None, false)])
  }

  /** Removing an entry drops its tracker, which cancels a subscription that has not ended. */
  function Remove(h: HubState, id: SlotId, now: Instant): HubState {
    if id !in h.slots then h
    else h.(slots := h.slots - {id}, departed := h.departed[id := Finish(h.slots[id].health, now, Cancelled)])
  }

  function AskResync(h: HubState, id: SlotId): HubState {
    if id !in h.slots then h else h.(slots := h.slots[id := h.slots[id].(resync := true)])
  }

  predicate CanMove(h: HubState, id: SlotId) {
    id in h.slots && h.slots[id].isolated.None?
  }

  function MoveOff(h: HubState, id: SlotId, cause: Cause): HubState {
    if !CanMove(h, id) then h
    else h.(slots := h.slots[id := h.slots[id].(isolated := Some(Isolation(None, cause)))])
  }

  function NextGeneration(h: HubState): HubState {
    h.(generation := (h.generation + 1) % 0x1_0000_0000_0000_0000)
  }

  function TakeResync(entry: SlotEntry): SlotEntry {
    if entry.resync then entry.(resync := false, health := CatchUp(entry.health)) else entry
  }

  /** The entries once the resync requests of those in `done` that belong to the scope are taken. */
  function SnapshotSlots(slots: map<SlotId, SlotEntry>, scope: Scope, done: set<SlotId>): map<SlotId, SlotEntry> {
    map id | id in slots ::
      if id in done && BelongsTo(id, slots[id], scope) then TakeResync(slots[id]) else slots[id]
  }

  /** Takes the resync requests of a scope, which the next connection fulfils. */
  function TakeSnapshot(h: HubState, scope: Scope): HubState {
    h.(slots := SnapshotSlots(h.slots, scope, h.slots.Keys))
  }

  function Departed(h: HubState, ids: set<SlotId>, end: End, now: Instant): map<SlotId, Tracker> {
    map id | id in h.departed.Keys + (h.slots.Keys * ids) ::
      if id in h.slots && id in ids then Finish(h.slots[id].health, now, end) else h.departed[id]
  }

  /** Ends the listed slots and releases their streams. */
  function EndSlots(h: HubState, ids: set<SlotId>, end: End, now: Instant): HubState {
    h.(slots := h.slots - ids, departed := Departed(h, ids, end, now))
  }

  function UpdateSlots(slots: map<SlotId, SlotEntry>, scope: Scope, ids: set<SlotId>, event: Timed)
    : map<SlotId, SlotEntry>
  {
    map id | id in slots ::
      if id in ids && BelongsTo(id, slots[id], scope) then slots[id].(health := Next(slots[id].health, event))
      else slots[id]
  }

  /** What a connection event does to the trackers of the listed slots that are still in its scope. */
  function UpdateHealth(h: HubState, scope: Scope, ids: set<SlotId>, event: Timed): HubState {
    h.(slots := UpdateSlots(h.slots, scope, ids, event))
  }

  predicate PastDeadline(t: Tracker, threshold: Duration, now: Instant) {
    StallDeadline(t, threshold).Some? && StallDeadline(t, threshold).value <= now
  }

  function StallSlots(slots: map<SlotId, SlotEntry>, scope: Scope, threshold: Duration, now: Instant,
                      done: set<SlotId>)
    : map<SlotId, SlotEntry>
  {
    map id | id in slots ::
      if id in done && BelongsTo(id, slots[id], scope) && PastDeadline(slots[id].health, threshold, now) then
        slots[id].(health := Stall(slots[id].health, now))
      else slots[id]
  }

  /** Reports the subscriptions of a scope whose stall deadline has passed. */
  function MarkStalled(h: HubState, scope: Scope, threshold: Duration, now: Instant): HubState {
    h.(slots := StallSlots(h.slots, scope, threshold, now, h.slots.Keys))
  }

  /** `wakeup` is the earliest stall deadline of the scope, if there is any. */
  ghost predicate IsStallWakeup(h: HubState, scope: Scope, threshold: Duration, wakeup: Option<Instant>) {
    && (forall id :: id in Members(h, scope) && StallDeadline(h.slots[id].health, threshold).Some? ==>
          wakeup.Some? && wakeup.value <= StallDeadline(h.slots[id].health, threshold).value)
    && (wakeup.Some? ==>
          exists id :: id in Members(h, scope) && StallDeadline(h.slots[id].health, threshold) == wakeup)
  }

  // ----- One slot at a time -----

  lemma SnapshotNext(slots: map<SlotId, SlotEntry>, scope: Scope, done: set<SlotId>, id: SlotId)
    requires id in slots && id !in done
    ensures SnapshotSlots(slots, scope, done + {id})
         == (if BelongsTo(id, slots[id], scope) then
               SnapshotSlots(slots, scope, done)[id := TakeResync(slots[id])]
             else SnapshotSlots(slots, scope, done))
    ensures SnapshotSlots(slots, scope, done).Keys == slots.Keys
    ensures SnapshotSlots(slots, scope, done)[id] == slots[id]
  {}

  lemma SnapshotNone(slots: map<SlotId, SlotEntry>, scope: Scope)
    ensures SnapshotSlots(slots, scope, {}) == slots
  {}

  lemma StallNext(slots: map<SlotId, SlotEntry>, scope: Scope, threshold: Duration, now: Instant, done: set<SlotId>,
                  id: SlotId)
    requires id in slots && id !in done
    ensures StallSlots(slots, scope, threshold, now, done + {id})
         == (if BelongsTo(id, slots[id], scope) && PastDeadline(slots[id].health, threshold, now) then
               StallSlots(slots, scope, threshold, now, done)[id := slots[id].(health := Stall(slots[id].health, now))]
             else StallSlots(slots, scope, threshold, now, done))
    ensures StallSlots(slots, scope, threshold, now, done).Keys == slots.Keys
    ensures StallSlots(slots, scope, threshold, now, done)[id] == slots[id]
  {}

  lemma StallNone(slots: map<SlotId, SlotEntry>, scope: Scope, threshold: Duration, now: Instant)
    ensures StallSlots(slots, scope, threshold, now, {}) == slots
  {}

  lemma UpdateNext(slots: map<SlotId, SlotEntry>, scope: Scope, done: set<SlotId>, id: SlotId, event: Timed)
    requires id !in done
    ensures UpdateSlots(slots, scope, done + {id}, event)
         == (if id in slots && BelongsTo(id, slots[id], scope) then
               UpdateSlots(slots, scope, done, event)[id := slots[id].(health := Next(slots[id].health, event))]
             else UpdateSlots(slots, scope, done, event))
    ensures UpdateSlots(slots, scope, done, event).Keys == slots.Keys
    ensures id in slots ==> UpdateSlots(slots, scope, done, event)[id] == slots[id]
  {}

  lemma UpdateNone(slots: map<SlotId, SlotEntry>, scope: Scope, event: Timed)
    ensures UpdateSlots(slots, scope, {}, event) == slots
  {}

  lemma EndNext(h: HubState, done: set<SlotId>, id: SlotId, end: End, now: Instant)
    ensures h.slots - (done + {id}) == h.slots - done - {id}
    ensures Departed(h, done + {id}, end, now)
         == (if id in h.slots - done then Departed(h, done, end, now)[id := Finish(h.slots[id].health, now, end)]
             else Departed(h, done, end, now))
  {}

  lemma EndNone(h: HubState, end: End, now: Instant)
    ensures h.slots - {} == h.slots && Departed(h, {}, end, now) == h.departed
  {}

  lemma MembersInSlots(h: HubState, scope: Scope)
    ensures Members(h, scope) <= h.slots.Keys
  {}

  lemma MembersNext(h: HubState, scope: Scope, todo: set<SlotId>, id: SlotId)
    requires id in todo && todo <= h.slots.Keys
    ensures Members(h, scope) - (todo - {id})
         == if BelongsTo(id, h.slots[id], scope) then Members(h, scope) - todo + {id} else Members(h, scope) - todo
    ensures h.slots.Keys - (todo - {id}) == h.slots.Keys - todo + {id}
  {}

  lemma IdsNext(ids: seq<SlotId>, n: nat)
    requires n < |ids|
    ensures Ids(ids[..n + 1]) == Ids(ids[..n]) + {ids[n]}
    ensures (forall i, j :: 0 <= i < j < |ids| ==> ids[i] != ids[j]) ==> ids[n] !in Ids(ids[..n])
  {
    assert ids[..n + 1] == ids[..n] + [ids[n]];
  }

  // ----- Starting supervisors -----

  predicate Running(token: Option<Token>, live: set<Token>) {
    token.Some? && token.value in live
  }

  /** The token a scope's entry points at. */
  function TokenOf(h: HubState, scope: Scope): Option<Token> {
    match scope
    case Shared => h.supervisor
    case Isolated(id) =>
      if id in h.slots && h.slots[id].isolated.Some? then h.slots[id].isolated.value.supervisor else None
  }

  /** Whether a scope has slots. */
  predicate Inhabited(h: HubState, scope: Scope) {
    match scope
    case Shared => exists id :: id in h.slots && h.slots[id].isolated.None?
    case Isolated(id) => id in h.slots && h.slots[id].isolated.Some?
  }

  /** Whether a scope has slots but no running supervisor. */
  predicate Unserved(h: HubState, live: set<Token>, scope: Scope) {
    Inhabited(h, scope) && !Running(TokenOf(h, scope), live)
  }

  function Adopt(id: SlotId, entry: SlotEntry, starts: map<Scope, Token>): SlotEntry {
    if entry.isolated.Some? && Isolated(id) in starts then
      entry.(isolated := Some(entry.isolated.value.(supervisor := Some(starts[Isolated(id)]))))
    else entry
  }

  /** Points every scope that is started at its new supervisor. */
  function StartAll(h: HubState, starts: map<Scope, Token>): HubState {
    h.(supervisor := if Shared in starts then Some(starts[Shared]) else h.supervisor,
       slots := map id | id in h.slots :: Adopt(id, h.slots[id], starts))
  }

  /** New supervisors, each with a token of its own, for exactly the scopes that lack one. */
  ghost predicate IsStart(h: HubState, live: set<Token>, nextToken: Token, starts: map<Scope, Token>) {
    && (forall scope :: scope in starts <==> Unserved(h, live, scope))
    && (forall scope :: scope in starts ==> nextToken <= starts[scope])
    && (forall a, b :: a in starts && b in starts && starts[a] == starts[b] ==> a == b)
  }

  lemma StartNone(h: HubState)
    ensures StartAll(h, map[]) == h
  {}

  lemma StartShared(h: HubState, token: Token)
    ensures StartAll(h, map[Shared := token]) == h.(supervisor := Some(token))
  {}

  lemma StartNext(h: HubState, starts: map<Scope, Token>, id: SlotId, token: Token)
    requires id in h.slots && h.slots[id].isolated.Some? && Isolated(id) !in starts
    ensures StartAll(h, starts).slots[id] == h.slots[id]
    ensures var entry := h.slots[id];
            StartAll(h, starts[Isolated(id) := token])
            == StartAll(h, starts).(slots := StartAll(h, starts).slots[
                 id := entry.(isolated := Some(entry.isolated.value.(supervisor := Some(token))))])
  {}

  lemma StartSame(h: HubState, starts: map<Scope, Token>, id: SlotId)
    requires id in h.slots && Isolated(id) !in starts
    ensures StartAll(h, starts).slots[id] == h.slots[id]
  {}

  lemma AddValue(starts: map<Scope, Token>, scope: Scope, token: Token)
    requires scope !in starts
    ensures starts[scope := token].Values == starts.Values + {token}
  {
    var more := starts[scope := token];
    assert forall other :: other in starts ==> more[other] == starts[other];
    assert more[scope] == token;
  }

  /** Supervisors for exactly those scopes that lack one and whose slot is not in `todo`. */
  ghost predicate StartedSoFar(h: HubState, live: set<Token>, first: Token, starts: map<Scope, Token>,
                               todo: set<SlotId>, next: Token)
  {
    && (forall scope :: scope in starts <==> Unserved(h, live, scope) && (scope.Shared? || scope.id !in todo))
    && (forall scope :: scope in starts ==> first <= starts[scope] < next)
    && (forall a, b :: a in starts && b in starts && starts[a] == starts[b] ==> a == b)
    && first <= next
  }

  lemma StartedShared(h: HubState, live: set<Token>, first: Token)
    ensures if Unserved(h, live, Shared) then
              StartedSoFar(h, live, first, map[Shared := first], h.slots.Keys, first + 1)
            else StartedSoFar(h, live, first, map[], h.slots.Keys, first)
  {}

  lemma StartedNext(h: HubState, live: set<Token>, first: Token, starts: map<Scope, Token>, todo: set<SlotId>,
                    next: Token, id: SlotId)
    requires StartedSoFar(h, live, first, starts, todo, next) && id in todo && id in h.slots
    ensures Isolated(id) !in starts
    ensures if Unserved(h, live, Isolated(id)) then
              StartedSoFar(h, live, first, starts[Isolated(id) := next], todo - {id}, next + 1)
            else StartedSoFar(h, live, first, starts, todo - {id}, next)
  {}

  lemma StartedAll(h: HubState, live: set<Token>, first: Token, starts: map<Scope, Token>, next: Token)
    requires StartedSoFar(h, live, first, starts, {}, next)
    ensures IsStart(h, live, first, starts)
    ensures first <= next && forall scope :: scope in starts ==> starts[scope] < next
  {}

  // ----- The hub -----

  class HubShared {
    var nextId: SlotId
    var slots: map<SlotId, SlotEntry>
    var generation: nat
    var supervisor: Option<Token>
    var departed: map<SlotId, Tracker>
    // Tokens that are held somewhere, and the first one that never was.
    var live: set<Token>
    var nextToken: Token

    ghost function Value(): HubState
      reads this
    {
      HubState(nextId, slots, generation, supervisor, departed)
    }

    constructor ()
      ensures Value() == HubState(0, map[], 0, None, map[])
      ensures live == {} && nextToken == 0
    {
      nextId, slots, generation, supervisor, departed := 0, map[], 0, None, map[];
      live, nextToken := {}, 0;
    }

    /** The first section of a registration. Outside a runtime the subscription fails instead. */
    method Register(health: Tracker, now: Instant, inRuntime: bool) returns (r: Result<SlotId, Tracker>)
      modifies this
      ensures inRuntime ==> r == Success(old(nextId)) && Value() == Insert(old(Value()), health)
      ensures !inRuntime ==> r == Failure(Finish(health, now, Failed)) && Value() == old(Value())
      ensures live == old(live) && nextToken == old(nextToken)
    {
      if !inRuntime {
        return Failure(Finish(health, now, Failed));
      }
      var id := nextId;
      nextId := nextId + 1;
      slots := slots[id := SlotEntry(health, None, false)];
      return Success(id);
    }

    method Deregister(id: SlotId, now: Instant)
      modifies this
      ensures Value() == Remove(old(Value()), id, now)
      ensures live == old(live) && nextToken == old(nextToken)
    {
      if id in slots {
        departed := departed[id := Finish(slots[id].health, now, Cancelled)];
        slots := slots - {id};
      }
    }

    /** The first section of a resync request: says whether the slot has still to move off the shared connection. */
    method RequestResync(id: SlotId) returns (shared: Option<bool>)
      modifies this
      ensures Value() == AskResync(old(Value()), id)
      ensures shared == if id !in old(slots) then None else Some(old(slots)[id].isolated.None?)
      ensures live == old(live) && nextToken == old(nextToken)
    {
      if id !in slots {
        return None;
      }
      slots := slots[id := slots[id].(resync := true)];
      return Some(slots[id].isolated.None?);
    }

    method Isolate(id: SlotId, cause: Cause) returns (moved: bool)
      modifies this
      ensures Value() == MoveOff(old(Value()), id, cause) && moved == CanMove(old(Value()), id)
      ensures live == old(live) && nextToken == old(nextToken)
    {
      if id !in slots || slots[id].isolated.Some? {
        return false;
      }
      slots := slots[id := slots[id].(isolated := Some(Isolation(None, cause)))];
      return true;
    }

    method BumpGeneration() returns (published: nat)
      modifies this
      ensures Value() == NextGeneration(old(Value())) && published == generation
      ensures old(generation) < U64_MAX ==> generation == old(generation) + 1
      ensures old(generation) == U64_MAX ==> generation == 0
      ensures live == old(live) && nextToken == old(nextToken)
    {
      generation := (generation + 1) % 0x1_0000_0000_0000_0000;
      return generation;
    }

    /** The subscriptions of a scope, with their resync requests taken. */
    method Snapshot(scope: Scope) returns (ids: set<SlotId>)
      modifies this
      ensures Value() == TakeSnapshot(old(Value()), scope)
      ensures ids == Members(old(Value()), scope)
      ensures live == old(live) && nextToken == old(nextToken)
    {
      hide SnapshotSlots;
      hide Members;
      ghost var h := Value();
      ids := {};
      var todo := slots.Keys;
      SnapshotNone(h.slots, scope);
      MembersInSlots(h, scope);
      assert h.slots.Keys - todo == {};
      while todo != {}
        invariant todo <= h.slots.Keys
        invariant Value() == h.(slots := SnapshotSlots(h.slots, scope, h.slots.Keys - todo))
        invariant ids == Members(h, scope) - todo
        invariant live == old(live) && nextToken == old(nextToken)
        decreases |todo|
      {
        var id :| id in todo;
        SnapshotNext(h.slots, scope, h.slots.Keys - todo, id);
        MembersNext(h, scope, todo, id);
        var entry := slots[id];
        if BelongsTo(id, entry, scope) {
          if entry.resync {
            entry := entry.(resync := false, health := CatchUp(entry.health));
          }
          ids := ids + {id};
          slots := slots[id := entry];
        }
        todo := todo - {id};
      }
      assert h.slots.Keys - {} == h.slots.Keys;
    }

    /** Ends the listed subscriptions and releases their streams. */
    method End(ids: seq<SlotId>, end: End, now: Instant)
      modifies this
      ensures Value() == EndSlots(old(Value()), Ids(ids), end, now)
      ensures live == old(live) && nextToken == old(nextToken)
    {
      hide Departed;
      ghost var h := Value();
      EndNone(h, end, now);
      assert Ids(ids[..0]) == {};
      for n := 0 to |ids|
        invariant Value() == EndSlots(h, Ids(ids[..n]), end, now)
        invariant live == old(live) && nextToken == old(nextToken)
      {
        var id := ids[n];
        IdsNext(ids, n);
        EndNext(h, Ids(ids[..n]), id, end, now);
        if id in slots {
          departed := departed[id := Finish(slots[id].health, now, end)];
        }
        slots := slots - {id};
      }
      assert ids[..|ids|] == ids;
    }

    /** Tells the trackers of the listed slots what happened on the connection, as far as they are still on it. */
    method WithHealth(scope: Scope, ids: seq<SlotId>, event: Timed)
      requires forall i, j :: 0 <= i < j < |ids| ==> ids[i] != ids[j]
      modifies this
      ensures Value() == UpdateHealth(old(Value()), scope, Ids(ids), event)
      ensures live == old(live) && nextToken == old(nextToken)
    {
      hide UpdateSlots;
      hide Next;
      ghost var h := Value();
      UpdateNone(h.slots, scope, event);
      assert Ids(ids[..0]) == {};
      for n := 0 to |ids|
        invariant Value() == UpdateHealth(h, scope, Ids(ids[..n]), event)
        invariant live == old(live) && nextToken == old(nextToken)
      {
        var id := ids[n];
        IdsNext(ids, n);
        UpdateNext(h.slots, scope, Ids(ids[..n]), id, event);
        if id in slots && BelongsTo(id, slots[id], scope) {
          slots := slots[id := slots[id].(health := Next(slots[id].health, event))];
        }
      }
      assert ids[..|ids|] == ids;
    }

    /**
     Marks the subscriptions the server refused as rejected and returns the ones for which this is a new refusal.
     */
    method Reject(scope: Scope, ids: seq<SlotId>, problem: Problem, now: Instant) returns (first: set<SlotId>)
      requires forall i, j :: 0 <= i < j < |ids| ==> ids[i] != ids[j]
      modifies this
      ensures Value() == UpdateHealth(old(Value()), scope, Ids(ids), Timed(now, RefusalSeen(problem)))
      ensures forall id :: id in first <==>
                id in ids && id in Members(old(Value()), scope) && IsNewRefusal(old(slots)[id].health)
      ensures live == old(live) && nextToken == old(nextToken)
    {
      hide UpdateSlots;
      ghost var h := Value();
      var event := Timed(now, RefusalSeen(problem));
      UpdateNone(h.slots, scope, event);
      assert Ids(ids[..0]) == {};
      first := {};
      for n := 0 to |ids|
        invariant Value() == UpdateHealth(h, scope, Ids(ids[..n]), event)
        invariant forall id :: id in first <==>
                    id in ids[..n] && id in Members(h, scope) && IsNewRefusal(h.slots[id].health)
        invariant live == old(live) && nextToken == old(nextToken)
      {
        var id := ids[n];
        IdsNext(ids, n);
        UpdateNext(h.slots, scope, Ids(ids[..n]), id, event);
        if id in slots && BelongsTo(id, slots[id], scope) {
          if IsNewRefusal(slots[id].health) {
            first := first + {id};
          }
          slots := slots[id := slots[id].(health := Refuse(slots[id].health, now, problem))];
        }
      }
      assert ids[..|ids|] == ids;
    }

    /** Reports the subscriptions of a scope whose stall deadline has passed. */
    method ReportStalled(scope: Scope, threshold: Duration, now: Instant)
      modifies this
      ensures Value() == MarkStalled(old(Value()), scope, threshold, now)
      ensures live == old(live) && nextToken == old(nextToken)
    {
      hide StallSlots;
      hide PastDeadline;
      ghost var h := Value();
      var todo := slots.Keys;
      StallNone(h.slots, scope, threshold, now);
      assert h.slots.Keys - todo == {};
      while todo != {}
        invariant todo <= h.slots.Keys
        invariant Value() == h.(slots := StallSlots(h.slots, scope, threshold, now, h.slots.Keys - todo))
        invariant live == old(live) && nextToken == old(nextToken)
        decreases |todo|
      {
        var id :| id in todo;
        StallNext(h.slots, scope, threshold, now, h.slots.Keys - todo, id);
        assert h.slots.Keys - (todo - {id}) == h.slots.Keys - todo + {id};
        if BelongsTo(id, slots[id], scope) && PastDeadline(slots[id].health, threshold, now) {
          slots := slots[id := slots[id].(health := Stall(slots[id].health, now))];
        }
        todo := todo - {id};
      }
      assert h.slots.Keys - {} == h.slots.Keys;
    }

    /** The earliest moment at which a subscription of the scope would count as stalled. */
    method StallWakeup(scope: Scope, threshold: Duration) returns (wakeup: Option<Instant>)
      ensures IsStallWakeup(Value(), scope, threshold, wakeup)
    {
      wakeup := None;
      var todo := slots.Keys;
      while todo != {}
        invariant todo <= slots.Keys
        invariant forall id :: id in Members(Value(), scope) - todo && StallDeadline(slots[id].health, threshold).Some?
                    ==> wakeup.Some? && wakeup.value <= StallDeadline(slots[id].health, threshold).value
        invariant wakeup.Some? ==> exists id ::
                    id in Members(Value(), scope) && StallDeadline(slots[id].health, threshold) == wakeup
        decreases |todo|
      {
        var id :| id in todo;
        if BelongsTo(id, slots[id], scope) {
          var deadline := StallDeadline(slots[id].health, threshold);
          assert id in Members(Value(), scope);
          if deadline.Some? && (wakeup.None? || deadline.value < wakeup.value) {
            wakeup := deadline;
          }
        }
        todo := todo - {id};
      }
    }

    /** Decides whether the live document still covers the registered subscriptions. */
    method NeedsReconnect(scope: Scope, connected: set<SlotId>) returns (needed: bool)
      ensures needed <==> ReconnectNeeded(Value(), scope, connected)
    {
      var members, resync := {}, false;
      var todo := slots.Keys;
      while todo != {}
        invariant todo <= slots.Keys
        invariant members == Members(Value(), scope) - todo
        invariant resync <==> exists id :: id in Members(Value(), scope) - todo && slots[id].resync
        decreases |todo|
      {
        var id :| id in todo;
        MembersNext(Value(), scope, todo, id);
        if BelongsTo(id, slots[id], scope) {
          members := members + {id};
          resync := resync || slots[id].resync;
        }
        todo := todo - {id};
      }
      assert members == Members(Value(), scope);
      return members == {} || resync || !(members <= connected) || |connected - members| > MAX_STALE_ALIASES;
    }

    /** Hands out a new token. */
    method NewToken() returns (token: Token)
      modifies this`live, this`nextToken
      ensures token == old(nextToken) && nextToken == token + 1 && live == old(live) + {token}
    {
      token := nextToken;
      live := live + {token};
      nextToken := nextToken + 1;
    }

    /** Starts the supervisor of the shared connection if it has subscriptions but no running supervisor. */
    method EnsureShared() returns (starts: map<Scope, Token>)
      modifies this
      ensures starts == if Unserved(old(Value()), old(live), Shared) then map[Shared := old(nextToken)] else map[]
      ensures Value() == StartAll(old(Value()), starts)
      ensures live == old(live) + starts.Values
      ensures nextToken == if Unserved(old(Value()), old(live), Shared) then old(nextToken) + 1 else old(nextToken)
    {
      hide StartAll;
      starts := map[];
      StartNone(Value());
      if !Running(supervisor, live) && exists id :: id in slots && slots[id].isolated.None? {
        StartShared(Value(), nextToken);
        AddValue(map[], Shared, nextToken);
        var token := NewToken();
        starts := starts[Shared := token];
        supervisor := Some(token);
      }
    }

    /** Starts the supervisor of a slot's own connection if the slot moved there and none is running. */
    method EnsureIsolated(id: SlotId, held: set<Token>, starts: map<Scope, Token>, ghost h: HubState)
      returns (more: map<Scope, Token>)
      requires id in h.slots && Isolated(id) !in starts && Value() == StartAll(h, starts)
      modifies this
      ensures more == if Unserved(h, held, Isolated(id)) then starts[Isolated(id) := old(nextToken)] else starts
      ensures Value() == StartAll(h, more)
      ensures live == if Unserved(h, held, Isolated(id)) then old(live) + {old(nextToken)} else old(live)
      ensures nextToken == if Unserved(h, held, Isolated(id)) then old(nextToken) + 1 else old(nextToken)
    {
      StartSame(h, starts, id);
      var entry := slots[id];
      if entry.isolated.Some? && !Running(entry.isolated.value.supervisor, held) {
        StartNext(h, starts, id, nextToken);
        hide StartAll;
        var token := NewToken();
        slots := slots[id := entry.(isolated := Some(entry.isolated.value.(supervisor := Some(token))))];
        return starts[Isolated(id) := token];
      }
      return starts;
    }

    /** Starts a supervisor for every connection that has subscriptions but no running supervisor. */
    method EnsureSupervisors() returns (starts: map<Scope, Token>)
      modifies this
      ensures IsStart(old(Value()), old(live), old(nextToken), starts)
      ensures Value() == StartAll(old(Value()), starts)
      ensures live == old(live) + starts.Values
      ensures old(nextToken) <= nextToken && forall scope :: scope in starts ==> starts[scope] < nextToken
    {
      hide StartAll;
      hide StartedSoFar;
      hide Unserved;
      hide IsStart;
      ghost var h := Value();
      ghost var first := nextToken;
      // The tokens handed out below are new, so no entry points at one of them yet.
      var held := live;
      var todo := slots.Keys;
      StartedShared(h, held, nextToken);
      starts := EnsureShared();
      while todo != {}
        invariant todo <= h.slots.Keys
        invariant Value() == StartAll(h, starts)
        invariant StartedSoFar(h, held, first, starts, todo, nextToken)
        invariant live == held + starts.Values
        decreases |todo|
      {
        var id :| id in todo;
        StartedNext(h, held, first, starts, todo, nextToken, id);
        AddValue(starts, Isolated(id), nextToken);
        starts := EnsureIsolated(id, held, starts, h);
        todo := todo - {id};
      }
      StartedAll(h, held, first, starts, nextToken);
    }

    /** The subscriptions of a scope. */
    method ScopeIds(scope: Scope) returns (ids: set<SlotId>)
      ensures ids == Members(Value(), scope)
    {
      ids := {};
      var todo := slots.Keys;
      while todo != {}
        invariant todo <= slots.Keys
        invariant ids == Members(Value(), scope) - todo
        decreases |todo|
      {
        var id :| id in todo;
        MembersNext(Value(), scope, todo, id);
        if BelongsTo(id, slots[id], scope) {
          ids := ids + {id};
        }
        todo := todo - {id};
      }
    }
  }
}
