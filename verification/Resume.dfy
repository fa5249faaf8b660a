/**
 A subscription that resumes: the server keeps a log of changes, the slot remembers the cursor of the last entry its
 consumer received, and every new connection asks for what comes after it. Connections come and go, several may be open
 at the same time, and each is read by a supervisor of its own.
 */
module Resume {
  import opened Options

  const SLOT_CHANNEL_CAPACITY: nat := 16_384

  /** The place of a change in the server's log; the first is 1. */
  type Position = nat

  /** What the server sends: a change, or one entry of a snapshot of the state at a position. */
  datatype Item =
    | Live(position: Position)
    | Snap(at: Position, index: nat, size: nat)

  /** What a slot's queue holds. */
  datatype SlotEvent = Data(item: Item) | Error

  /** Where a subscription resumes after an item. The server says so on changes and on the last snapshot entry. */
  function CursorOf(e: SlotEvent): Option<Position> {
    match e
    case Data(Live(position)) => Some(position)
    case Data(Snap(at, index, size)) => if index + 1 == size then Some(at) else None
    case Error => None
  }

  /** What the server sends next on a connection. */
  datatype Progress =
    | Listing(at: Position, index: nat, size: nat)
    | Following(next: Position)

  function NextItem(p: Progress): Item {
    match p
    case Listing(at, index, size) => Snap(at, index, size)
    case Following(next) => Live(next)
  }

  function Advance(p: Progress): Progress {
    match p
    case Listing(at, index, size) => if index + 1 < size then Listing(at, index + 1, size) else Following(at + 1)
    case Following(next) => Following(next + 1)
  }

  /**
   `waits`: the connection carries this subscription alone. `last`: the slot has left the connection, which delivers at
   most what it had in hand. `cut`: it delivers nothing more to the slot.
   */
  datatype Connection = Connection(progress: Progress, waits: bool, last: bool, cut: bool)

  /**
   `lagging` is the flag a drop sets, and `moved` says that the slot has left the shared connection. `received` is what
   the consumer has received so far, `requests` are the cursors of all documents rendered so far, and `empties` are the
   positions at which the server found nothing to list.
   */
  datatype State = State(
    head: Position,
    cursor: Option<Position>,
    queue: seq<SlotEvent>,
    connections: map<nat, Connection>,
    lagging: bool,
    moved: bool,
    received: seq<SlotEvent>,
    requests: set<Option<Position>>,
    empties: set<Position>)

  datatype Action =
    | Change                                                      // the server's log grows
    | Render                                                      // a snapshot of the slot is taken
    | Follow(id: nat, after: Position, waits: bool)               // a connection opens, or is retried, with a cursor
    | List(id: nat, at: Position, size: nat, waits: bool)         // the same without a cursor
    | Deliver(id: nat)                                            // the next item decodes
    | Garble(id: nat)                                             // the next item does not decode
    | Refuse(id: nat)                                             // the slot is refused
    | Close(id: nat)
    | Receive                                                     // the consumer takes an event

  function Init(): State {
    State(0, None, [], map[], false, false, [], {}, {})
  }

  predicate IsFull(s: State) {
    |s.queue| >= SLOT_CHANNEL_CAPACITY
  }

  /** The server has the item that comes next. */
  predicate CanSend(s: State, id: nat) {
    && id in s.connections && !s.connections[id].cut
    && (s.connections[id].progress.Following? ==> s.connections[id].progress.next <= s.head)
  }

  predicate Enabled(s: State, a: Action) {
    match a
    case Change => true
    case Render => true
    case Follow(_, after, waits) => Some(after) in s.requests && (waits || !s.moved)
    case List(_, at, _, waits) => None in s.requests && at <= s.head && (waits || !s.moved)
    case Deliver(id) => CanSend(s, id) && (IsFull(s) ==> !s.connections[id].waits)
    case Garble(id) => CanSend(s, id)
    case Refuse(id) => id in s.connections && !s.connections[id].cut && (IsFull(s) ==> !s.connections[id].waits)
    case Close(id) => id in s.connections
    case Receive => |s.queue| > 0
  }

  /** A queue takes an event if it has room; on a shared connection the event is dropped otherwise. */
  function Enqueue(queue: seq<SlotEvent>, e: SlotEvent): seq<SlotEvent> {
    if |queue| < SLOT_CHANNEL_CAPACITY then queue + [e] else queue
  }

  function AfterReceive(cursor: Option<Position>, e: SlotEvent): Option<Position> {
    if CursorOf(e).Some? then CursorOf(e) else cursor
  }

  /** The slot leaves the shared connection. */
  function Leave(s: State): State {
    s.(moved := true,
       connections := map id | id in s.connections ::
                        if s.connections[id].waits then s.connections[id] else s.connections[id].(last := true))
  }

  /** A connection delivers nothing more; if it is shared, that is because the slot leaves it. */
  function Cut(s: State, id: nat): State
    requires id in s.connections
  {
    var left := if s.connections[id].waits then s else Leave(s);
    left.(connections := left.connections[id := left.connections[id].(cut := true)])
  }

  /** Takes an event; a slot that lags leaves the shared connection once it has drained its queue. */
  function Take(s: State): State
    requires |s.queue| > 0
  {
    var taken := s.(queue := s.queue[1..], received := s.received + [s.queue[0]],
                    cursor := AfterReceive(s.cursor, s.queue[0]));
    if |s.queue| == 1 && s.lagging then Leave(taken.(lagging := false)) else taken
  }

  function Do(s: State, a: Action): State
    requires Enabled(s, a)
  {
    match a
    case Change => s.(head := s.head + 1)
    case Render => s.(requests := s.requests + {s.cursor})
    case Follow(id, after, waits) =>
      s.(connections := s.connections[id := Connection(Following(after + 1), waits, false, false)])
    case List(id, at, size, waits) =>
      if size == 0 then
        s.(connections := s.connections[id := Connection(Following(at + 1), waits, false, false)],
           empties := s.empties + {at})
      else s.(connections := s.connections[id := Connection(Listing(at, 0, size), waits, false, false)])
    case Deliver(id) =>
      var c := s.connections[id];
      s.(connections := s.connections[id := c.(progress := Advance(c.progress), cut := c.last)],
         queue := Enqueue(s.queue, Data(NextItem(c.progress))), lagging := s.lagging || IsFull(s))
    case Garble(id) => Cut(s, id)
    case Refuse(id) => Cut(s.(queue := Enqueue(s.queue, Error), lagging := s.lagging || IsFull(s)), id)
    case Close(id) => s.(connections := s.connections - {id})
    case Receive => Take(s)
  }

  // ----- The slot -----

  /** What becomes of an event. A connection that waits tries again once there is room. */
  datatype Sent = Queued | Dropped | Waits | Gone

  datatype Poll = Ready(event: SlotEvent) | Pending | Ended

  /** A registered slot: its queue, its cursor, and the flag that says events were dropped. */
  class Slot {
    var queue: seq<SlotEvent>
    var cursor: Option<Position>
    var lagging: bool
    var resyncs: nat
    // The stream was dropped; the hub and all connections have let go of the slot; the stream has said that it is over.
    var receiverGone: bool
    var sendersGone: bool
    var finished: bool

    constructor ()
      ensures queue == [] && cursor == None && !lagging && resyncs == 0
      ensures !receiverGone && !sendersGone && !finished
    {
      queue, cursor, lagging, resyncs := [], None, false, 0;
      receiverGone, sendersGone, finished := false, false, false;
    }

    /**
     Queues an event for a stream that is still there. Without room, a connection of the slot's own waits, and a shared
     one drops the event, which makes the slot lag.
     */
    method Deliver(e: SlotEvent, waits: bool) returns (sent: Sent)
      modifies this`queue, this`lagging
      ensures sent == if receiverGone then Gone
                      else if |old(queue)| < SLOT_CHANNEL_CAPACITY then Queued
                      else if waits then Waits
                      else Dropped
      ensures queue == if sent.Queued? then old(queue) + [e] else old(queue)
      ensures lagging == (old(lagging) || sent.Dropped?)
    {
      if receiverGone {
        return Gone;
      }
      if |queue| < SLOT_CHANNEL_CAPACITY {
        queue := queue + [e];
        return Queued;
      }
      if waits {
        return Waits;
      }
      if !lagging {
        lagging := true;
      }
      return Dropped;
    }

    method ResumeAfter(e: SlotEvent)
      modifies this`cursor
      ensures cursor == AfterReceive(old(cursor), e)
    {
      var next := CursorOf(e);
      if next.Some? {
        cursor := next;
      }
    }

    /**
     Takes the next event, if there is one. Once a slot that lost events has drained its queue, it asks for a resync;
     once nobody can send to it any more and its queue is drained, the stream is over for good.
     */
    method PollNext() returns (poll: Poll)
      modifies this`queue, this`cursor, this`lagging, this`resyncs, this`finished
      ensures poll == if old(finished) then Ended
                      else if |old(queue)| > 0 then Ready(old(queue)[0])
                      else if sendersGone then Ended
                      else Pending
      ensures finished == poll.Ended?
      ensures if poll.Ready? then
                && queue == old(queue)[1..] && cursor == AfterReceive(old(cursor), poll.event)
                && lagging == (old(lagging) && |queue| > 0)
                && resyncs == old(resyncs) + (if old(lagging) && |queue| == 0 then 1 else 0)
              else
                queue == old(queue) && cursor == old(cursor) && lagging == old(lagging) && resyncs == old(resyncs)
    {
      if finished {
        return Ended;
      }
      if |queue| == 0 {
        finished := sendersGone;
        return if sendersGone then Ended else Pending;
      }
      var e := queue[0];
      queue := queue[1..];
      if e.Data? {
        ResumeAfter(e);
      }
      if |queue| == 0 && lagging {
        lagging := false;
        resyncs := resyncs + 1;
      }
      return Ready(e);
    }
  }

  // ----- What has been covered -----

  /** Every entry of the snapshot is among the items. */
  ghost predicate Complete(items: seq<SlotEvent>, at: Position, size: nat) {
    size > 0 && forall k :: 0 <= k < size ==> Data(Snap(at, k, size)) in items
  }

  /** Whoever has the items knows of the change at `p`: from itself, or from a whole snapshot taken later. */
  ghost predicate Covers(items: seq<SlotEvent>, empties: set<Position>, p: Position) {
    || Data(Live(p)) in items
    || (exists at, size :: p <= at && Complete(items, at, size))
    || (exists at :: at in empties && p <= at)
  }

  /** Everything up to a position is covered. */
  ghost predicate CoversUpTo(items: seq<SlotEvent>, empties: set<Position>, p: Position) {
    forall q :: 1 <= q <= p ==> Covers(items, empties, q)
  }

  lemma CoversMore(items: seq<SlotEvent>, more: seq<SlotEvent>, empties: set<Position>, emptier: set<Position>,
                   p: Position)
    requires Covers(items, empties, p) && empties <= emptier
    requires forall e :: e in items ==> e in more
    ensures Covers(more, emptier, p)
  {
    if at, size :| p <= at && Complete(items, at, size) {
      assert Complete(more, at, size);
    }
  }

  lemma CoversUpToMore(items: seq<SlotEvent>, more: seq<SlotEvent>, empties: set<Position>, emptier: set<Position>,
                       p: Position)
    requires CoversUpTo(items, empties, p) && empties <= emptier
    requires forall e :: e in items ==> e in more
    ensures CoversUpTo(more, emptier, p)
  {
    hide Covers;
    forall q | 1 <= q <= p
      ensures Covers(more, emptier, q)
    {
      CoversMore(items, more, empties, emptier, q);
    }
  }

  // ----- The invariant -----

  function Trail(s: State): seq<SlotEvent> {
    s.received + s.queue
  }

  /**
   The consumer has, once it has emptied its queue, everything the connection has sent before `p`, or knows it from
   elsewhere.
   */
  ghost predicate KeptUp(trail: seq<SlotEvent>, empties: set<Position>, p: Progress) {
    match p
    case Listing(at, index, size) =>
      && index < size
      && (CoversUpTo(trail, empties, at) || forall k :: 0 <= k < index ==> Data(Snap(at, k, size)) in trail)
    case Following(next) => next > 0 && CoversUpTo(trail, empties, next - 1)
  }

  /** Whenever the consumer receives an entry with a cursor, it has everything up to the cursor. */
  ghost predicate InOrder(trail: seq<SlotEvent>, empties: set<Position>, n: nat)
    requires n <= |trail|
  {
    forall i :: n <= i < |trail| && CursorOf(trail[i]).Some? ==>
      CoversUpTo(trail[..i + 1], empties, CursorOf(trail[i]).value)
  }

  ghost predicate Safe(s: State) {
    && |s.queue| <= SLOT_CHANNEL_CAPACITY
    && (s.cursor.Some? ==> CoversUpTo(s.received, s.empties, s.cursor.value))
    && (forall c :: c in s.requests && c.Some? ==> CoversUpTo(s.received, s.empties, c.value))
    && InOrder(Trail(s), s.empties, |s.received|)
    && forall id :: id in s.connections && !s.connections[id].cut ==>
         KeptUp(Trail(s), s.empties, s.connections[id].progress)
  }

  /** The consumer has what the item says already, or will have once it has emptied its queue. */
  ghost predicate Has(s: State, item: Item) {
    match item
    case Live(p) => Covers(Trail(s), s.empties, p)
    case Snap(at, _, _) => Data(item) in Trail(s) || CoversUpTo(Trail(s), s.empties, at)
  }

  /** A shared connection that goes on drops, from a full queue, something that the consumer does not have yet. */
  ghost predicate Loses(s: State, a: Action)
    requires Enabled(s, a)
  {
    a.Deliver? && IsFull(s) && !s.connections[a.id].last && !Has(s, NextItem(s.connections[a.id].progress))
  }

  // ----- One item -----

  lemma AllListed(trail: seq<SlotEvent>, empties: set<Position>, p: Progress)
    requires p.Listing? && KeptUp(trail, empties, p) && p.index + 1 == p.size && Data(NextItem(p)) in trail
    ensures CoversUpTo(trail, empties, p.at)
  {
    if !CoversUpTo(trail, empties, p.at) {
      assert Complete(trail, p.at, p.size);
    }
  }

  /** A connection keeps up with an item if and only if the consumer has what the item says. */
  lemma KeepsUpIffHas(s: State, p: Progress)
    requires KeptUp(Trail(s), s.empties, p)
    ensures KeptUp(Trail(s), s.empties, Advance(p)) <==> Has(s, NextItem(p))
  {
    if p.Listing? {
      if p.index + 1 == p.size && Data(NextItem(p)) in Trail(s) {
        AllListed(Trail(s), s.empties, p);
      }
    }
  }

  lemma KeptUpMore(trail: seq<SlotEvent>, more: seq<SlotEvent>, empties: set<Position>, emptier: set<Position>,
                   p: Progress)
    requires KeptUp(trail, empties, p) && empties <= emptier
    requires forall e :: e in trail ==> e in more
    ensures KeptUp(more, emptier, p)
  {
    if p.Following? {
      CoversUpToMore(trail, more, empties, emptier, p.next - 1);
    } else if CoversUpTo(trail, empties, p.at) {
      CoversUpToMore(trail, more, empties, emptier, p.at);
    }
  }

  /** Once an item is queued, everything up to its cursor is. */
  lemma QueuedIsCovered(trail: seq<SlotEvent>, empties: set<Position>, p: Progress)
    requires KeptUp(trail, empties, p)
    ensures var e := Data(NextItem(p));
            && KeptUp(trail + [e], empties, Advance(p))
            && (CursorOf(e).Some? ==> CoversUpTo(trail + [e], empties, CursorOf(e).value))
  {
    var e := Data(NextItem(p));
    KeptUpMore(trail, trail + [e], empties, empties, p);
    assert (trail + [e])[|trail|] == e;
    if p.Listing? && p.index + 1 == p.size {
      AllListed(trail + [e], empties, p);
    }
  }

  lemma InOrderMore(trail: seq<SlotEvent>, empties: set<Position>, n: nat, e: SlotEvent)
    requires n <= |trail| && InOrder(trail, empties, n)
    requires CursorOf(e).Some? ==> CoversUpTo(trail + [e], empties, CursorOf(e).value)
    ensures InOrder(trail + [e], empties, n)
  {
    hide CoversUpTo;
    hide CursorOf;
    var more := trail + [e];
    forall i | n <= i < |more| && CursorOf(more[i]).Some?
      ensures CoversUpTo(more[..i + 1], empties, CursorOf(more[i]).value)
    {
      if i < |trail| {
        assert more[..i + 1] == trail[..i + 1];
      } else {
        assert more[..i + 1] == more;
      }
    }
  }

  // ----- One step -----

  lemma SafeDeliver(s: State, id: nat)
    requires Safe(s) && Enabled(s, Deliver(id)) && !IsFull(s)
    ensures Safe(Do(s, Deliver(id)))
  {
    var s', p := Do(s, Deliver(id)), s.connections[id].progress;
    var e := Data(NextItem(p));
    assert Trail(s') == Trail(s) + [e];
    QueuedIsCovered(Trail(s), s.empties, p);
    InOrderMore(Trail(s), s.empties, |s.received|, e);
    hide InOrder;
    hide KeptUp;
    hide CoversUpTo;
    forall other | other in s'.connections && !s'.connections[other].cut && other != id
      ensures KeptUp(Trail(s'), s.empties, s'.connections[other].progress)
    {
      KeptUpMore(Trail(s), Trail(s'), s.empties, s.empties, s.connections[other].progress);
    }
  }

  /** On a full queue, delivery keeps the invariant if and only if nothing is lost or the connection ends with it. */
  lemma SafeWhenFull(s: State, id: nat)
    requires Safe(s) && Enabled(s, Deliver(id)) && IsFull(s)
    ensures Safe(Do(s, Deliver(id))) <==> s.connections[id].last || Has(s, NextItem(s.connections[id].progress))
  {
    var s', p := Do(s, Deliver(id)), s.connections[id].progress;
    assert Trail(s') == Trail(s) && s'.empties == s.empties;
    KeepsUpIffHas(s, p);
    hide InOrder;
    hide KeptUp;
    hide CoversUpTo;
    hide Has;
    assert s'.connections[id].cut == s.connections[id].last;
    assert KeptUp(Trail(s), s.empties, Advance(p)) <==> KeptUp(Trail(s'), s'.empties, s'.connections[id].progress);
  }

  /** Connections that are cut, and flags, do not matter. */
  lemma SafeLeaves(s: State, lagging: bool)
    requires Safe(s)
    ensures Safe(Leave(s)) && Safe(s.(lagging := lagging)) && Safe(Leave(s.(lagging := lagging)))
  {
    hide InOrder;
    hide KeptUp;
    hide CoversUpTo;
    var t, u, w := Leave(s), s.(lagging := lagging), Leave(s.(lagging := lagging));
    assert Trail(t) == Trail(s) && Trail(u) == Trail(s) && Trail(w) == Trail(s);
  }

  lemma SafeCut(s: State, id: nat)
    requires Safe(s) && id in s.connections
    ensures Safe(Cut(s, id))
  {
    SafeLeaves(s, s.lagging);
    var left := if s.connections[id].waits then s else Leave(s);
    assert Safe(left);
    hide Leave;
    hide InOrder;
    hide KeptUp;
    hide CoversUpTo;
    assert id in left.connections by {
      LeaveKeepsAll(s);
    }
    assert Trail(Cut(s, id)) == Trail(left);
  }

  lemma LeaveKeepsAll(s: State)
    ensures Leave(s).connections.Keys == s.connections.Keys
  {}

  lemma SafeError(s: State)
    requires Safe(s)
    ensures Safe(s.(queue := Enqueue(s.queue, Error)))
  {
    var s' := s.(queue := Enqueue(s.queue, Error));
    if IsFull(s) {
      assert Trail(s') == Trail(s);
    } else {
      assert Trail(s') == Trail(s) + [Error];
      InOrderMore(Trail(s), s.empties, |s.received|, Error);
    }
    hide InOrder;
    hide KeptUp;
    hide CoversUpTo;
    forall other | other in s'.connections && !s'.connections[other].cut
      ensures KeptUp(Trail(s'), s.empties, s'.connections[other].progress)
    {
      KeptUpMore(Trail(s), Trail(s'), s.empties, s.empties, s.connections[other].progress);
    }
  }

  lemma SafeRefuse(s: State, id: nat)
    requires Safe(s) && Enabled(s, Refuse(id))
    ensures Safe(Do(s, Refuse(id)))
  {
    var queued := s.(queue := Enqueue(s.queue, Error));
    SafeError(s);
    SafeLeaves(queued, s.lagging || IsFull(s));
    hide Safe;
    hide Cut;
    hide Leave;
    SafeCut(queued.(lagging := s.lagging || IsFull(s)), id);
  }

  /** The consumer has one more event. */
  lemma SafeTaken(s: State)
    requires Safe(s) && |s.queue| > 0
    ensures Safe(s.(queue := s.queue[1..], received := s.received + [s.queue[0]],
                    cursor := AfterReceive(s.cursor, s.queue[0])))
  {
    var e := s.queue[0];
    var s' := s.(queue := s.queue[1..], received := s.received + [e], cursor := AfterReceive(s.cursor, e));
    assert Trail(s') == Trail(s) by {
      assert s.queue == [e] + s.queue[1..];
    }
    assert Trail(s)[..|s.received| + 1] == s'.received && Trail(s)[|s.received|] == e;
    hide KeptUp;
    hide CursorOf;
    if s.cursor.Some? {
      CoversUpToMore(s.received, s'.received, s.empties, s.empties, s.cursor.value);
    }
    forall c | c in s.requests && c.Some?
      ensures CoversUpTo(s'.received, s.empties, c.value)
    {
      CoversUpToMore(s.received, s'.received, s.empties, s.empties, c.value);
    }
    hide CoversUpTo;
  }

  lemma SafeReceive(s: State)
    requires Safe(s) && |s.queue| > 0
    ensures Safe(Do(s, Receive))
  {
    var taken := s.(queue := s.queue[1..], received := s.received + [s.queue[0]],
                    cursor := AfterReceive(s.cursor, s.queue[0]));
    SafeTaken(s);
    SafeLeaves(taken, false);
    hide Safe;
    hide Leave;
    hide AfterReceive;
  }

  lemma SafeFollow(s: State, id: nat, after: Position, waits: bool)
    requires Safe(s) && Enabled(s, Follow(id, after, waits))
    ensures Safe(Do(s, Follow(id, after, waits)))
  {
    var s' := Do(s, Follow(id, after, waits));
    assert Trail(s') == Trail(s);
    CoversUpToMore(s.received, Trail(s), s.empties, s.empties, after);
    hide InOrder;
    hide CoversUpTo;
  }

  lemma SafeList(s: State, id: nat, at: Position, size: nat, waits: bool)
    requires Safe(s) && Enabled(s, List(id, at, size, waits))
    ensures Safe(Do(s, List(id, at, size, waits)))
  {
    var s' := Do(s, List(id, at, size, waits));
    assert Trail(s') == Trail(s);
    if s.cursor.Some? {
      CoversUpToMore(s.received, s.received, s.empties, s'.empties, s.cursor.value);
    }
    forall c | c in s.requests && c.Some?
      ensures CoversUpTo(s'.received, s'.empties, c.value)
    {
      CoversUpToMore(s.received, s.received, s.empties, s'.empties, c.value);
    }
    forall i | |s.received| <= i < |Trail(s)| && CursorOf(Trail(s)[i]).Some?
      ensures CoversUpTo(Trail(s)[..i + 1], s'.empties, CursorOf(Trail(s)[i]).value)
    {
      CoversUpToMore(Trail(s)[..i + 1], Trail(s)[..i + 1], s.empties, s'.empties, CursorOf(Trail(s)[i]).value);
    }
    forall other | other in s'.connections && !s'.connections[other].cut && other != id
      ensures KeptUp(Trail(s'), s'.empties, s'.connections[other].progress)
    {
      KeptUpMore(Trail(s), Trail(s), s.empties, s'.empties, s.connections[other].progress);
    }
    hide CursorOf;
  }

  /** Exactly the steps that lose something break the invariant. */
  lemma SafeIffNothingIsLost(s: State, a: Action)
    requires Safe(s) && Enabled(s, a)
    ensures Safe(Do(s, a)) <==> !Loses(s, a)
  {
    hide Has;
    match a
    case Deliver(id) =>
      hide Safe;
      if IsFull(s) {
        SafeWhenFull(s, id);
      } else {
        SafeDeliver(s, id);
      }
    case Refuse(id) => hide Safe; SafeRefuse(s, id);
    case Receive => hide Safe; SafeReceive(s);
    case Garble(id) => hide Safe; SafeCut(s, id);
    case Follow(id, after, waits) => hide Safe; SafeFollow(s, id, after, waits);
    case List(id, at, size, waits) => hide Safe; SafeList(s, id, at, size, waits);
    case _ => RestIsSafe(s, a);
  }

  lemma RestIsSafe(s: State, a: Action)
    requires Safe(s) && Enabled(s, a) && (a.Change? || a.Render? || a.Close?)
    ensures Safe(Do(s, a))
  {
    hide InOrder;
    hide CoversUpTo;
    hide KeptUp;
    assert Trail(Do(s, a)) == Trail(s);
  }

  // ----- Runs -----

  ghost predicate IsHistory(states: seq<State>, actions: seq<Action>) {
    && |states| == |actions| + 1
    && states[0] == Init()
    && forall i :: 0 <= i < |actions| ==> Enabled(states[i], actions[i]) && states[i + 1] == Do(states[i], actions[i])
  }

  lemma HistoryStep(states: seq<State>, actions: seq<Action>, i: nat)
    requires IsHistory(states, actions) && i < |actions|
    ensures |states| == |actions| + 1
    ensures Enabled(states[i], actions[i]) && states[i + 1] == Do(states[i], actions[i])
  {
    hide Enabled;
    hide Do;
  }

  /** Up to state `n`, nothing was lost on a full queue. */
  ghost predicate LosesNothing(states: seq<State>, actions: seq<Action>, n: nat)
    requires IsHistory(states, actions) && n <= |actions|
  {
    forall i :: 0 <= i < n ==> !Loses(states[i], actions[i])
  }

  lemma {:induction false} RunIsSafe(states: seq<State>, actions: seq<Action>, n: nat)
    requires IsHistory(states, actions) && n <= |actions| && LosesNothing(states, actions, n)
    ensures Safe(states[n])
  {
    if n > 0 {
      assert LosesNothing(states, actions, n - 1);
      RunIsSafe(states, actions, n - 1);
      HistoryStep(states, actions, n - 1);
      SafeIffNothingIsLost(states[n - 1], actions[n - 1]);
    }
  }

  /**
   Resume safety: however often connections are rebuilt, retried, cut or closed, and however many are open at once, the
   consumer has received everything up to the cursor it resumes after, as long as no full queue lost anything; and so
   it has for every document that was ever rendered.
   */
  lemma CursorPassesNothing(states: seq<State>, actions: seq<Action>, n: nat)
    requires IsHistory(states, actions) && n <= |actions| && LosesNothing(states, actions, n)
    ensures states[n].cursor.Some? ==> CoversUpTo(states[n].received, states[n].empties, states[n].cursor.value)
    ensures forall c :: c in states[n].requests && c.Some? ==>
              CoversUpTo(states[n].received, states[n].empties, c.value)
  {
    RunIsSafe(states, actions, n);
  }

  // ----- Where a subscription resumes -----

  /** The event says that whoever has received it may resume after `p`: a change, or the last entry of a snapshot. */
  predicate ResumesAfter(e: SlotEvent, p: Position) {
    e.Data? && (if e.item.Live? then e.item.position == p else e.item.index + 1 == e.item.size && e.item.at == p)
  }

  ghost predicate SaysNothing(e: SlotEvent) {
    forall p: Position :: !ResumesAfter(e, p)
  }

  /** The cursor is that of the last event with one. */
  ghost predicate IsLatest(received: seq<SlotEvent>, cursor: Option<Position>) {
    match cursor
    case Some(p) => exists k :: 0 <= k < |received| && ResumesAfter(received[k], p) && SilentFrom(received, k + 1)
    case None => SilentFrom(received, 0)
  }

  ghost predicate SilentFrom(received: seq<SlotEvent>, from: nat) {
    forall k :: from <= k < |received| ==> SaysNothing(received[k])
  }

  lemma LatestNext(received: seq<SlotEvent>, cursor: Option<Position>, e: SlotEvent)
    requires IsLatest(received, cursor)
    ensures IsLatest(received + [e], AfterReceive(cursor, e))
  {
    var more := received + [e];
    if CursorOf(e).Some? {
      assert ResumesAfter(more[|received|], CursorOf(e).value) && SilentFrom(more, |received| + 1);
    } else if cursor.Some? {
      var k :| 0 <= k < |received| && ResumesAfter(received[k], cursor.value) && SilentFrom(received, k + 1);
      assert ResumesAfter(more[k], cursor.value) && SilentFrom(more, k + 1);
    }
  }

  lemma CursorStep(s: State, a: Action)
    requires Enabled(s, a)
    ensures if a.Receive? then
              && Do(s, a).received == s.received + [s.queue[0]] && Do(s, a).cursor == AfterReceive(s.cursor, s.queue[0])
            else Do(s, a).received == s.received && Do(s, a).cursor == s.cursor
  {
    hide AfterReceive;
    hide Advance;
    hide Enqueue;
  }

  /** In every state of every run the subscription resumes after the last event it received that says where. */
  lemma {:induction false} CursorIsTheLatest(states: seq<State>, actions: seq<Action>, n: nat)
    requires IsHistory(states, actions) && n <= |actions|
    ensures |states| == |actions| + 1
    ensures IsLatest(states[n].received, states[n].cursor)
  {
    if n > 0 {
      HistoryStep(states, actions, n - 1);
      CursorIsTheLatest(states, actions, n - 1);
      CursorStep(states[n - 1], actions[n - 1]);
      hide Do;
      hide IsLatest;
      hide AfterReceive;
      if actions[n - 1].Receive? {
        LatestNext(states[n - 1].received, states[n - 1].cursor, states[n - 1].queue[0]);
      }
    }
  }
}
