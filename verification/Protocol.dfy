/**
 The hub as a concurrent protocol. Consumers, callers and supervisors take turns; every section under the lock, every
 operation on an atomic flag and every use of the generation channel is one step. What the code decides by looking at
 the network or at a clock is left open, so each step lists all the ways it can go.
 */
module Protocol {
  import opened Options
  import opened Health
  import opened HealthRuns
  import opened Hub

  /** Who is in the middle of a call into the hub. */
  datatype Thread = Consumer(id: SlotId) | Supervisor(token: Token)

  /** What a thread has still to do before its call into the hub returns. */
  datatype Call =
    | Resyncing(id: SlotId)             // the lag flag is taken, the resync request not yet recorded
    | Moving(id: SlotId, cause: Cause)  // about to move a slot onto a connection of its own
    | Bumping(ensure: bool)             // about to count a generation; `ensure`: and to start supervisors after that
    | Sending(ensure: bool)             // the generation is counted, but supervisors have not been told
    | Ensuring                          // about to start the supervisors that are missing
    | Flagging(id: SlotId)              // an event was dropped, the lag flag not yet set
    | Reporting(id: SlotId)             // the lag flag is set, the slot's health does not show it yet

  /** Where a supervisor is. */
  datatype Pc =
    | Spawned                                // not subscribed to the generation channel yet
    | Starting                               // about to look up why its slot moved
    | Waiting(slots: set<SlotId>)            // before a reconnect of a connection that carried `slots`
    | WaitChecking(slots: set<SlotId>)
    | Preparing                              // about to take a snapshot
    | Prepared(slots: set<SlotId>)           // holds a snapshot, waiting for more changes
    | Driving(slots: set<SlotId>)            // a connection that carries `slots` is open
    | Delivering(slots: set<SlotId>, live: set<SlotId>) // hands out an event, which may yet be dropped for `live`
    | Rechecking(slots: set<SlotId>)
    | Stopping(slots: set<SlotId>, end: End) // the connection is over, its slots not yet listed
    | Ending(slots: set<SlotId>, end: End)   // about to end the listed slots
    | Exiting

  /** `seen` is the version of the generation channel the supervisor has noticed. */
  datatype Sup = Sup(pc: Pc, seen: nat)

  /**
   `version` counts what was sent on the generation channel. `scopes` and `sups` hold the supervisors that keep their
   token. `missed` holds the slots for which an event was dropped since a snapshot last answered a resync request of
   theirs; the code has no such record.
   */
  datatype State = State(
    dedicated: bool,
    hub: HubState,
    version: nat,
    scopes: map<Token, Scope>,
    sups: map<Token, Sup>,
    nextToken: Token,
    calls: map<Thread, Call>,
    lagging: set<SlotId>,
    missed: set<SlotId>)

  function Init(dedicated: bool): State {
    State(dedicated, HubState(0, map[], 0, None, map[]), 0, map[], map[], 0, map[], {}, {})
  }

  datatype Action =
    // A stream is polled for the first time, drains its queue after a lag, or is dropped.
    | Register(created: Instant)
    | TakeLag(id: SlotId)
    | Drop(id: SlotId, now: Instant)
    // A thread goes on with its call.
    | AskForResync(thread: Thread)
    | Isolate(thread: Thread)
    | Bump(thread: Thread)
    | Send(thread: Thread)
    | Ensure(thread: Thread, starts: map<Scope, Token>, next: Token)
    | Flag(thread: Thread)
    | Report(thread: Thread, now: Instant)
    | Supervise(token: Token, work: Work)

  /** What a supervisor does that is not in a call. */
  datatype Work =
    | Subscribe
    | Start
    | Notice
    | Timeout
    | CheckWait
    | Snapshot
    | Connect
    | FailBuild
    | FailOpen
    | TakeFrame
    | FrameDone
    | Recheck
    | Observe(ids: set<SlotId>, event: Timed)
    | Silence(threshold: Duration, now: Instant)
    | Lose(id: SlotId)
    | Expel(id: SlotId, cause: Cause)
    | Reconnect
    | Stop(end: End)
    | ListEnding
    | EndAll(now: Instant)
    | Release

  // ----- Steps -----

  /** A supervisor that is not in the middle of a call. */
  predicate Free(s: State, token: Token) {
    token in s.sups && token in s.scopes && Supervisor(token) !in s.calls
  }

  /** Only the connection that several subscriptions can share drops events and waits for more subscriptions. */
  predicate Shares(s: State, token: Token)
    requires token in s.scopes
  {
    s.scopes[token] == Shared && !s.dedicated
  }

  /** What comes over a connection neither ends its subscriptions nor makes their consumers lag. */
  predicate IsConnectionEvent(e: Timed) {
    !e.event.Over? && !e.event.ReplayRequested? && !e.event.LagSeen?
  }

  predicate Ready(s: State, t: Token, work: Work)
    requires t in s.sups && t in s.scopes
  {
    var pc := s.sups[t].pc;
    match work
    case Subscribe => pc.Spawned?
    case Start => pc.Starting?
    case Notice => s.sups[t].seen < s.version && (pc.Waiting? || pc.Driving? || (pc.Prepared? && Shares(s, t)))
    case Timeout => pc.Waiting?
    case CheckWait => pc.WaitChecking?
    case Snapshot => pc.Preparing?
    case Connect => pc.Prepared?
    case FailBuild => pc.Prepared?
    case FailOpen => pc.Prepared?
    case TakeFrame => pc.Driving?
    case FrameDone => pc.Delivering?
    case Recheck => pc.Rechecking?
    case Observe(ids, event) => (pc.Driving? || pc.Delivering?) && ids <= pc.slots && IsConnectionEvent(event)
    case Silence(_, _) => pc.Driving?
    case Lose(id) => pc.Delivering? && id in pc.slots && id in pc.live && Shares(s, t)
    case Expel(id, cause) => pc.Delivering? && id in pc.slots && s.scopes[t] == Shared && !cause.LaggedCause?
    case Reconnect => pc.Driving?
    case Stop(end) => pc.Driving? && !end.Cancelled?
    case ListEnding => pc.Stopping?
    case EndAll(_) => pc.Ending?
    case Release => pc.Exiting?
  }

  ghost predicate Enabled(s: State, a: Action) {
    match a
    case Register(_) => Consumer(s.hub.nextId) !in s.calls
    case TakeLag(id) => id < s.hub.nextId && Consumer(id) !in s.calls && id in s.lagging
    case Drop(id, _) => id < s.hub.nextId && Consumer(id) !in s.calls
    case AskForResync(th) => th in s.calls && s.calls[th].Resyncing?
    case Isolate(th) => th in s.calls && s.calls[th].Moving?
    case Bump(th) => th in s.calls && s.calls[th].Bumping?
    case Send(th) => th in s.calls && s.calls[th].Sending?
    case Ensure(th, starts, next) =>
      && th in s.calls && s.calls[th].Ensuring?
      && IsStart(s.hub, s.scopes.Keys, s.nextToken, starts)
      && s.nextToken <= next && (forall scope :: scope in starts ==> starts[scope] < next)
    case Flag(th) => th in s.calls && s.calls[th].Flagging?
    case Report(th, _) => th in s.calls && s.calls[th].Reporting?
    case Supervise(t, work) => Free(s, t) && Ready(s, t, work)
  }

  /** The thread's call returned. */
  function Return(s: State, thread: Thread): State {
    s.(calls := s.calls - {thread})
  }

  /** The thread goes on with `call`. */
  function Go(s: State, thread: Thread, call: Call): State {
    s.(calls := s.calls[thread := call])
  }

  /** The supervisor goes to `pc`. */
  function To(s: State, token: Token, pc: Pc): State
    requires token in s.sups
  {
    s.(sups := s.sups[token := s.sups[token].(pc := pc)])
  }

  /** The supervisor goes to `pc` and has noticed every generation so far. */
  function UpToDate(s: State, token: Token, pc: Pc): State {
    s.(sups := s.sups[token := Sup(pc, s.version)])
  }

  /** The scopes of the supervisors that `starts` starts. */
  ghost function StartedBy(starts: map<Scope, Token>): map<Token, Scope> {
    map token | token in starts.Values :: ScopeStarted(starts, token)
  }

  ghost function ScopeStarted(starts: map<Scope, Token>, token: Token): Scope
    requires token in starts.Values
  {
    var scope :| scope in starts && starts[scope] == token;
    scope
  }

  function SpawnAll(tokens: set<Token>): map<Token, Sup> {
    map token | token in tokens :: Sup(Spawned, 0)
  }

  /** The slots of a scope whose resync request a snapshot takes. */
  function Replayed(h: HubState, scope: Scope): set<SlotId> {
    set id | id in Members(h, scope) && h.slots[id].resync
  }

  /** What follows when a supervisor works. */
  function AfterWork(s: State, t: Token, work: Work): State
    requires Free(s, t) && Ready(s, t, work)
  {
    var scope, pc := s.scopes[t], s.sups[t].pc;
    match work
    case Subscribe => UpToDate(s, t, Starting)
    case Start =>
      To(s, t, if scope.Shared? then Preparing
               else if scope.id in s.hub.slots && s.hub.slots[scope.id].isolated.Some? then Waiting({scope.id})
               else Exiting)
    case Notice =>
      UpToDate(s, t, if pc.Waiting? then WaitChecking(pc.slots)
                     else if pc.Driving? then Rechecking(pc.slots)
                     else Preparing)
    case Timeout => To(s, t, Preparing)
    case CheckWait =>
      var live := Members(s.hub, scope);
      To(s, t, if live == {} || !(live <= pc.slots) then Preparing else Waiting(pc.slots))
    case Snapshot =>
      var slots := Members(s.hub, scope);
      To(s.(hub := TakeSnapshot(s.hub, scope), missed := s.missed - Replayed(s.hub, scope)), t,
         if slots == {} then Exiting else Prepared(slots))
    case Connect => To(s, t, Driving(pc.slots))
    case FailBuild => To(s, t, Ending(pc.slots, Failed))
    // A connection that cannot be opened says so to every slot of the snapshot.
    case FailOpen => To(s, t, Delivering(pc.slots, pc.slots))
    // Whatever comes over a connection is handed out to those of its slots that are on it now.
    case TakeFrame => To(s, t, Delivering(pc.slots, Members(s.hub, scope) * pc.slots))
    case FrameDone => To(s, t, Driving(pc.slots))
    case Recheck => To(s, t, if ReconnectNeeded(s.hub, scope, pc.slots) then Preparing else Driving(pc.slots))
    case Observe(ids, event) => s.(hub := UpdateHealth(s.hub, scope, ids, event))
    case Silence(threshold, now) => s.(hub := MarkStalled(s.hub, scope, threshold, now))
    // A slot takes at most one event of a frame, and none once the connection has moved it.
    case Lose(id) =>
      Go(To(s.(missed := s.missed + {id}), t, Delivering(pc.slots, pc.live - {id})), Supervisor(t), Flagging(id))
    case Expel(id, cause) => Go(To(s, t, Delivering(pc.slots, pc.live - {id})), Supervisor(t), Moving(id, cause))
    case Reconnect => To(s, t, Waiting(pc.slots))
    case Stop(end) => To(s, t, Stopping(pc.slots, end))
    case ListEnding => To(s, t, Ending(Members(s.hub, scope) * pc.slots, pc.end))
    case EndAll(now) => To(s.(hub := EndSlots(s.hub, pc.slots, pc.end, now)), t, Exiting)
    case Release => Go(s.(scopes := s.scopes - {t}, sups := s.sups - {t}), Supervisor(t), Ensuring)
  }

  /** What follows when an action is taken. */
  ghost function Do(s: State, a: Action): State
    requires Enabled(s, a)
  {
    match a
    case Register(created) =>
      Go(s.(hub := Insert(s.hub, New(created))), Consumer(s.hub.nextId), Bumping(true))
    case TakeLag(id) => Go(s.(lagging := s.lagging - {id}), Consumer(id), Resyncing(id))
    case Drop(id, now) => Go(s.(hub := Remove(s.hub, id, now)), Consumer(id), Bumping(false))
    case AskForResync(th) =>
      var id := s.calls[th].id;
      if id !in s.hub.slots then Return(s, th)
      else Go(s.(hub := AskResync(s.hub, id)), th,
              if CanMove(s.hub, id) then Moving(id, LaggedCause) else Bumping(false))
    case Isolate(th) =>
      var call := s.calls[th];
      if CanMove(s.hub, call.id) then Go(s.(hub := MoveOff(s.hub, call.id, call.cause)), th, Bumping(true))
      else Return(s, th)
    case Bump(th) => Go(s.(hub := NextGeneration(s.hub)), th, Sending(s.calls[th].ensure))
    case Send(th) =>
      var sent := s.(version := s.version + 1);
      if s.calls[th].ensure then Go(sent, th, Ensuring) else Return(sent, th)
    case Ensure(th, starts, next) =>
      Return(s, th).(hub := StartAll(s.hub, starts), scopes := s.scopes + StartedBy(starts),
                     sups := s.sups + SpawnAll(starts.Values), nextToken := next)
    case Flag(th) =>
      var id := s.calls[th].id;
      if id in s.lagging then Return(s, th) else Go(s.(lagging := s.lagging + {id}), th, Reporting(id))
    case Report(th, now) =>
      Return(s, th).(hub := UpdateHealth(s.hub, Shared, {s.calls[th].id}, Timed(now, LagSeen)))
    case Supervise(t, work) => AfterWork(s, t, work)
  }

  /** Whose call changes. */
  function ThreadOf(s: State, a: Action): Thread {
    if a.Register? then Consumer(s.hub.nextId)
    else if a.TakeLag? || a.Drop? then Consumer(a.id)
    else if a.Supervise? then Supervisor(a.token)
    else a.thread
  }

  /** A step of a stream or a thread leaves the calls of all others alone. */
  lemma OnlyOneThreadMoves(s: State, a: Action)
    requires Enabled(s, a) && !a.Supervise?
    ensures forall other :: other in s.calls && other != ThreadOf(s, a) ==>
              other in Do(s, a).calls && Do(s, a).calls[other] == s.calls[other]
    ensures Do(s, a).missed == s.missed
  {}

  // ----- Runs -----

  /** The states a hub goes through while `actions` are taken one after the other. */
  ghost predicate IsHistory(states: seq<State>, actions: seq<Action>) {
    && |states| == |actions| + 1
    && states[0] == Init(states[0].dedicated)
    && forall i :: 0 <= i < |actions| ==> Enabled(states[i], actions[i]) && states[i + 1] == Do(states[i], actions[i])
  }

  lemma HistoryStep(states: seq<State>, actions: seq<Action>, i: nat)
    requires IsHistory(states, actions) && i < |actions|
    ensures |states| == |actions| + 1
    ensures Enabled(states[i], actions[i]) && states[i + 1] == Do(states[i], actions[i])
  {
    hide Enabled;
    hide Do;
  }
}
