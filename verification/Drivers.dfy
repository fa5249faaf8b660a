/** No connection has two drivers, and no subscription is left without one. */
module Drivers {
  import opened Options
  import opened Health
  import opened HealthRuns
  import opened Hub
  import opened Protocol

  // ----- What sections leave alone -----

  /** Slots may have left; nothing has joined or moved, and nothing was started. */
  ghost predicate OnlyShrinks(h: HubState, h': HubState) {
    && h'.nextId == h.nextId && h'.supervisor == h.supervisor
    && h'.slots.Keys <= h.slots.Keys
    && forall id :: id in h'.slots ==> h'.slots[id].isolated == h.slots[id].isolated
  }

  lemma UpdatesShrink(h: HubState, scope: Scope, ids: set<SlotId>, event: Timed)
    ensures OnlyShrinks(h, UpdateHealth(h, scope, ids, event))
  {}

  lemma StallsShrink(h: HubState, scope: Scope, threshold: Duration, now: Instant)
    ensures OnlyShrinks(h, MarkStalled(h, scope, threshold, now))
  {}

  lemma SnapshotsShrink(h: HubState, scope: Scope)
    ensures OnlyShrinks(h, TakeSnapshot(h, scope))
  {}

  lemma EndsShrink(h: HubState, ids: set<SlotId>, end: End, now: Instant)
    ensures OnlyShrinks(h, EndSlots(h, ids, end, now))
  {}

  lemma WorkShrinks(s: State, t: Token, work: Work)
    requires Free(s, t) && Ready(s, t, work)
    ensures OnlyShrinks(s.hub, AfterWork(s, t, work).hub)
    ensures AfterWork(s, t, work).scopes == (if work.Release? then s.scopes - {t} else s.scopes)
    ensures AfterWork(s, t, work).nextToken == s.nextToken
  {
    hide UpdateHealth;
    hide MarkStalled;
    hide TakeSnapshot;
    hide EndSlots;
    hide Members;
    hide ReconnectNeeded;
    match work
    case Observe(ids, event) => UpdatesShrink(s.hub, s.scopes[t], ids, event);
    case Silence(threshold, now) => StallsShrink(s.hub, s.scopes[t], threshold, now);
    case Snapshot => SnapshotsShrink(s.hub, s.scopes[t]);
    case EndAll(now) => EndsShrink(s.hub, s.sups[t].pc.slots, s.sups[t].pc.end, now);
    case _ =>
  }

  /** Only a registration, a move and the start of supervisors do more than let slots leave. */
  predicate Adds(a: Action) {
    a.Register? || a.Isolate? || a.Ensure?
  }

  lemma ActionShrinks(s: State, a: Action)
    requires Enabled(s, a) && !Adds(a)
    ensures OnlyShrinks(s.hub, Do(s, a).hub)
    ensures Do(s, a).scopes.Keys <= s.scopes.Keys
    ensures forall t :: t in Do(s, a).scopes ==> Do(s, a).scopes[t] == s.scopes[t]
    ensures Do(s, a).nextToken == s.nextToken
  {
    hide UpdateHealth;
    hide AfterWork;
    match a
    case Supervise(t, work) => WorkShrinks(s, t, work);
    case Report(th, now) => UpdatesShrink(s.hub, Shared, {s.calls[th].id}, Timed(now, LagSeen));
    case _ =>
  }

  // ----- One driver at most -----

  /** The entry of a scope, if it still has one, points at the supervisor. */
  predicate PointsAt(h: HubState, scope: Scope, token: Token) {
    match scope
    case Shared => h.supervisor == Some(token)
    case Isolated(id) =>
      id < h.nextId
      && (id in h.slots ==> h.slots[id].isolated.Some? && h.slots[id].isolated.value.supervisor == Some(token))
  }

  /** Every supervisor is the one its scope points at, and no two drive the same connection. */
  ghost predicate OneDriverEach(h: HubState, scopes: map<Token, Scope>, nextToken: Token) {
    && (forall t :: t in scopes ==> t < nextToken && PointsAt(h, scopes[t], t))
    && (forall t, u :: t in scopes && u in scopes && scopes[t] == scopes[u] ==> t == u)
    && (forall scope :: TokenOf(h, scope).Some? ==>
          var t := TokenOf(h, scope).value;
          t < nextToken && (t in scopes ==> scopes[t] == scope))
    && (forall id :: id in h.slots ==> id < h.nextId)
  }

  lemma OneDriverShrinks(h: HubState, h': HubState, scopes: map<Token, Scope>, scopes': map<Token, Scope>,
                         nextToken: Token)
    requires OneDriverEach(h, scopes, nextToken) && OnlyShrinks(h, h')
    requires scopes'.Keys <= scopes.Keys && forall t :: t in scopes' ==> scopes'[t] == scopes[t]
    ensures OneDriverEach(h', scopes', nextToken)
  {
    forall scope | TokenOf(h', scope).Some?
      ensures TokenOf(h', scope) == TokenOf(h, scope)
    {}
    forall t | t in scopes'
      ensures PointsAt(h', scopes'[t], t)
    {
      assert PointsAt(h, scopes[t], t);
    }
  }

  lemma OneDriverInsert(h: HubState, health: Tracker, scopes: map<Token, Scope>, nextToken: Token)
    requires OneDriverEach(h, scopes, nextToken)
    ensures OneDriverEach(Insert(h, health), scopes, nextToken)
  {
    var h' := Insert(h, health);
    forall scope | TokenOf(h', scope).Some?
      ensures TokenOf(h', scope) == TokenOf(h, scope)
    {}
    forall t | t in scopes
      ensures PointsAt(h', scopes[t], t)
    {
      assert PointsAt(h, scopes[t], t);
    }
  }

  lemma OneDriverMove(h: HubState, id: SlotId, cause: Cause, scopes: map<Token, Scope>, nextToken: Token)
    requires OneDriverEach(h, scopes, nextToken)
    ensures OneDriverEach(MoveOff(h, id, cause), scopes, nextToken)
  {
    var h' := MoveOff(h, id, cause);
    forall scope | TokenOf(h', scope).Some?
      ensures TokenOf(h', scope) == TokenOf(h, scope)
    {}
    forall t | t in scopes
      ensures PointsAt(h', scopes[t], t)
    {
      assert PointsAt(h, scopes[t], t);
    }
  }

  /** Where the tokens of the scopes point once supervisors are started. */
  lemma TokenStarted(h: HubState, live: set<Token>, nextToken: Token, starts: map<Scope, Token>, scope: Scope)
    requires IsStart(h, live, nextToken, starts)
    ensures TokenOf(StartAll(h, starts), scope) == if scope in starts then Some(starts[scope]) else TokenOf(h, scope)
  {
    assert scope in starts ==> Unserved(h, live, scope);
  }

  lemma StartedHasScope(scopes: map<Token, Scope>, starts: map<Scope, Token>, t: Token)
    requires t in scopes + StartedBy(starts)
    requires forall a, b :: a in starts && b in starts && starts[a] == starts[b] ==> a == b
    ensures var all := scopes + StartedBy(starts);
            t in starts.Values ==> all[t] in starts && starts[all[t]] == t
    ensures t !in starts.Values ==> t in scopes && (scopes + StartedBy(starts))[t] == scopes[t]
  {}

  /** After `starts`, `t` drives `scope`: either it was just started for it, or it had the scope all along. */
  lemma StartedOrBefore(h: HubState, scopes: map<Token, Scope>, nextToken: Token, starts: map<Scope, Token>, t: Token)
    requires OneDriverEach(h, scopes, nextToken) && IsStart(h, scopes.Keys, nextToken, starts)
    requires t in scopes + StartedBy(starts)
    ensures var scope := (scopes + StartedBy(starts))[t];
            if nextToken <= t then scope in starts && starts[scope] == t
            else t in scopes && scopes[t] == scope && scope !in starts
  {
    StartedHasScope(scopes, starts, t);
    if t in scopes {
      assert PointsAt(h, scopes[t], t);
    }
  }

  lemma PointsStarted(h: HubState, scopes: map<Token, Scope>, nextToken: Token, starts: map<Scope, Token>, t: Token)
    requires OneDriverEach(h, scopes, nextToken) && IsStart(h, scopes.Keys, nextToken, starts)
    requires t in scopes + StartedBy(starts)
    ensures PointsAt(StartAll(h, starts), (scopes + StartedBy(starts))[t], t)
  {
    StartedOrBefore(h, scopes, nextToken, starts, t);
    hide StartedBy;
    var scope := (scopes + StartedBy(starts))[t];
    if scope in starts {
      assert Unserved(h, scopes.Keys, scope);
    } else {
      assert PointsAt(h, scope, t);
    }
  }

  lemma TokensStarted(h: HubState, scopes: map<Token, Scope>, nextToken: Token, starts: map<Scope, Token>, next: Token,
                      scope: Scope)
    requires OneDriverEach(h, scopes, nextToken) && IsStart(h, scopes.Keys, nextToken, starts)
    requires nextToken <= next && (forall scope :: scope in starts ==> starts[scope] < next)
    requires TokenOf(StartAll(h, starts), scope).Some?
    ensures var t := TokenOf(StartAll(h, starts), scope).value;
            t < next && (t in scopes + StartedBy(starts) ==> (scopes + StartedBy(starts))[t] == scope)
  {
    TokenStarted(h, scopes.Keys, nextToken, starts, scope);
    var t := TokenOf(StartAll(h, starts), scope).value;
    hide StartAll;
    if t in scopes + StartedBy(starts) {
      StartedOrBefore(h, scopes, nextToken, starts, t);
    }
  }

  lemma OneDriverStart(h: HubState, scopes: map<Token, Scope>, nextToken: Token, starts: map<Scope, Token>, next: Token)
    requires OneDriverEach(h, scopes, nextToken) && IsStart(h, scopes.Keys, nextToken, starts)
    requires nextToken <= next && (forall scope :: scope in starts ==> starts[scope] < next)
    ensures OneDriverEach(StartAll(h, starts), scopes + StartedBy(starts), next)
  {
    var h', all := StartAll(h, starts), scopes + StartedBy(starts);
    forall t | t in all
      ensures t < next && PointsAt(h', all[t], t)
    {
      StartedOrBefore(h, scopes, nextToken, starts, t);
      PointsStarted(h, scopes, nextToken, starts, t);
    }
    forall t, u | t in all && u in all && all[t] == all[u]
      ensures t == u
    {
      StartedOrBefore(h, scopes, nextToken, starts, t);
      StartedOrBefore(h, scopes, nextToken, starts, u);
    }
    forall scope | TokenOf(h', scope).Some?
      ensures TokenOf(h', scope).value < next
      ensures TokenOf(h', scope).value in all ==> all[TokenOf(h', scope).value] == scope
    {
      TokensStarted(h, scopes, nextToken, starts, next, scope);
    }
    assert h'.slots.Keys == h.slots.Keys && h'.nextId == h.nextId;
  }

  lemma OneDriverStep(s: State, a: Action)
    requires Enabled(s, a) && OneDriverEach(s.hub, s.scopes, s.nextToken)
    ensures OneDriverEach(Do(s, a).hub, Do(s, a).scopes, Do(s, a).nextToken)
  {
    hide OneDriverEach;
    hide StartAll;
    hide StartedBy;
    match a
    case Register(created) => OneDriverInsert(s.hub, New(created), s.scopes, s.nextToken);
    case Isolate(th) => OneDriverMove(s.hub, s.calls[th].id, s.calls[th].cause, s.scopes, s.nextToken);
    case Ensure(th, starts, next) => OneDriverStart(s.hub, s.scopes, s.nextToken, starts, next);
    case _ =>
      ActionShrinks(s, a);
      OneDriverShrinks(s.hub, Do(s, a).hub, s.scopes, Do(s, a).scopes, s.nextToken);
  }

  // ----- One driver at least -----

  /** The call will start the supervisors that are missing. */
  predicate WillEnsure(call: Call) {
    call == Bumping(true) || call == Sending(true) || call.Ensuring?
  }

  ghost predicate EnsureAhead(calls: map<Thread, Call>) {
    exists th :: th in calls && WillEnsure(calls[th])
  }

  /** Every scope with slots has a supervisor, or a thread is about to see to it. */
  ghost predicate NoOrphans(s: State) {
    EnsureAhead(s.calls) || forall scope :: Inhabited(s.hub, scope) ==> Running(TokenOf(s.hub, scope), s.scopes.Keys)
  }

  lemma ShrunkIsServed(h: HubState, h': HubState, scope: Scope, live: set<Token>)
    requires OnlyShrinks(h, h') && (Inhabited(h, scope) ==> Running(TokenOf(h, scope), live))
    ensures Inhabited(h', scope) ==> Running(TokenOf(h', scope), live)
  {}

  /** A thread that will start supervisors still will after its own step. */
  lemma EnsurerGoesOn(s: State, a: Action)
    requires Enabled(s, a) && !a.Ensure? && !a.Supervise?
    requires ThreadOf(s, a) in s.calls && WillEnsure(s.calls[ThreadOf(s, a)])
    ensures ThreadOf(s, a) in Do(s, a).calls && WillEnsure(Do(s, a).calls[ThreadOf(s, a)])
  {}

  lemma WorkKeepsCalls(s: State, t: Token, work: Work)
    requires Free(s, t) && Ready(s, t, work)
    ensures forall other :: other in s.calls ==>
              other in AfterWork(s, t, work).calls && AfterWork(s, t, work).calls[other] == s.calls[other]
  {
    hide Members;
    hide Replayed;
    hide ReconnectNeeded;
    hide UpdateHealth;
    hide MarkStalled;
    hide TakeSnapshot;
    hide EndSlots;
  }

  /** Unless it starts the missing supervisors, no step loses sight of them. */
  lemma EnsureStaysAhead(s: State, a: Action)
    requires Enabled(s, a) && EnsureAhead(s.calls) && !a.Ensure?
    ensures EnsureAhead(Do(s, a).calls)
  {
    var th :| th in s.calls && WillEnsure(s.calls[th]);
    if a.Supervise? {
      WorkKeepsCalls(s, a.token, a.work);
    } else {
      OnlyOneThreadMoves(s, a);
      if th == ThreadOf(s, a) {
        EnsurerGoesOn(s, a);
      }
    }
    hide AfterWork;
    assert th in Do(s, a).calls && WillEnsure(Do(s, a).calls[th]);
  }

  /** Once the missing supervisors are started, none is missing. */
  lemma StartServes(h: HubState, scopes: map<Token, Scope>, nextToken: Token, starts: map<Scope, Token>, scope: Scope)
    requires IsStart(h, scopes.Keys, nextToken, starts) && Inhabited(StartAll(h, starts), scope)
    ensures Running(TokenOf(StartAll(h, starts), scope), (scopes + StartedBy(starts)).Keys)
  {
    TokenStarted(h, scopes.Keys, nextToken, starts, scope);
    assert Inhabited(h, scope);
    if scope !in starts {
      assert !Unserved(h, scopes.Keys, scope);
    }
  }

  lemma RestStaysServed(s: State, a: Action)
    requires Enabled(s, a) && !Adds(a) && !EnsureAhead(s.calls) && NoOrphans(s)
    ensures NoOrphans(Do(s, a))
  {
    ActionShrinks(s, a);
    if a.Supervise? && a.work.Release? {
      assert Supervisor(a.token) in Do(s, a).calls && WillEnsure(Do(s, a).calls[Supervisor(a.token)]);
    } else {
      ScopesStay(s, a);
      hide Do;
      forall scope | Inhabited(Do(s, a).hub, scope)
        ensures Running(TokenOf(Do(s, a).hub, scope), Do(s, a).scopes.Keys)
      {
        ShrunkIsServed(s.hub, Do(s, a).hub, scope, s.scopes.Keys);
      }
    }
  }

  lemma ScopesStay(s: State, a: Action)
    requires Enabled(s, a) && !a.Ensure? && !(a.Supervise? && a.work.Release?)
    ensures Do(s, a).scopes == s.scopes
  {
    hide AfterWork;
    match a
    case Supervise(t, work) => WorkShrinks(s, t, work);
    case _ =>
  }

  lemma NoOrphansStep(s: State, a: Action)
    requires Enabled(s, a) && NoOrphans(s)
    ensures NoOrphans(Do(s, a))
  {
    if a.Ensure? {
      hide StartAll;
      hide StartedBy;
      hide Inhabited;
      forall scope | Inhabited(Do(s, a).hub, scope)
        ensures Running(TokenOf(Do(s, a).hub, scope), Do(s, a).scopes.Keys)
      {
        StartServes(s.hub, s.scopes, s.nextToken, a.starts, scope);
      }
    } else if EnsureAhead(s.calls) {
      EnsureStaysAhead(s, a);
    } else if Adds(a) {
      AdditionEnsures(s, a);
    } else {
      RestStaysServed(s, a);
    }
  }

  lemma AdditionEnsures(s: State, a: Action)
    requires Enabled(s, a) && (a.Register? || a.Isolate?)
    ensures EnsureAhead(Do(s, a).calls) || (Do(s, a).hub == s.hub && Do(s, a).scopes == s.scopes)
  {
    var th := if a.Register? then Consumer(s.hub.nextId) else a.thread;
    assert a.Register? || CanMove(s.hub, s.calls[th].id) ==> th in Do(s, a).calls && WillEnsure(Do(s, a).calls[th]);
  }

  // ----- Runs -----

  /**
   No double driver: in every state of every run, a connection has at most one supervisor that keeps its token, and the
   entry of its scope points at it.
   */
  lemma {:induction false} NoDoubleDriver(states: seq<State>, actions: seq<Action>, i: nat)
    requires IsHistory(states, actions) && i <= |actions|
    ensures |states| == |actions| + 1
    ensures OneDriverEach(states[i].hub, states[i].scopes, states[i].nextToken)
  {
    if i > 0 {
      hide *;
      HistoryStep(states, actions, i - 1);
      NoDoubleDriver(states, actions, i - 1);
      OneDriverStep(states[i - 1], actions[i - 1]);
    }
  }

  /**
   No orphan: in every state of every run, every connection with subscriptions has a supervisor, or a thread has still
   to start the missing ones.
   */
  lemma {:induction false} NoOrphanedSubscription(states: seq<State>, actions: seq<Action>, i: nat)
    requires IsHistory(states, actions) && i <= |actions|
    ensures |states| == |actions| + 1
    ensures NoOrphans(states[i])
  {
    if i > 0 {
      hide *;
      HistoryStep(states, actions, i - 1);
      NoOrphanedSubscription(states, actions, i - 1);
      NoOrphansStep(states[i - 1], actions[i - 1]);
    }
  }

  /** While no call is under way, every connection with subscriptions has exactly one supervisor. */
  lemma ExactlyOneDriver(states: seq<State>, actions: seq<Action>, i: nat, scope: Scope)
    requires IsHistory(states, actions) && i < |states| && states[i].calls == map[]
    requires Inhabited(states[i].hub, scope)
    ensures exists t :: t in states[i].scopes && states[i].scopes[t] == scope
                        && forall u :: u in states[i].scopes && states[i].scopes[u] == scope ==> u == t
  {
    NoDoubleDriver(states, actions, i);
    NoOrphanedSubscription(states, actions, i);
    var t := TokenOf(states[i].hub, scope).value;
    assert t in states[i].scopes && states[i].scopes[t] == scope;
  }
}
