/**
 A run in which a cursor passes an entry the consumer never receives: the queue of a slot on the shared connection fills
 up, one entry is dropped, the consumer takes one, and the entry after the dropped one is queued.
 */
module ResumeLosses {
  import opened Options
  import opened Resume

  ghost predicate Reachable(s: State) {
    exists states: seq<State>, actions: seq<Action> :: IsHistory(states, actions) && states[|actions|] == s
  }

  lemma GoOn(s: State, a: Action)
    requires Reachable(s) && Enabled(s, a)
    ensures Reachable(Do(s, a))
  {
    var states: seq<State>, actions: seq<Action> :| IsHistory(states, actions) && states[|actions|] == s;
    var s' := Do(s, a);
    hide Do;
    hide Enabled;
    var more, all := states + [s'], actions + [a];
    assert IsHistory(more, all) by {
      forall i | 0 <= i < |all|
        ensures Enabled(more[i], all[i]) && more[i + 1] == Do(more[i], all[i])
      {}
    }
    assert more[|all|] == s';
  }

  /** The changes 1 to `n`, as they are queued. */
  function Changes(n: nat): seq<SlotEvent> {
    seq(n, (i: nat) => Data(Live(i + 1)))
  }

  /** One shared connection, which has sent the changes before `next`. */
  function Sending(next: Position, queue: seq<SlotEvent>, received: seq<SlotEvent>, cursor: Option<Position>,
                   lagging: bool): State
    requires next > 0
  {
    State(next - 1, cursor, queue, map[0 := Connection(Following(next), false, false, false)], lagging, false, received,
          {None}, {0})
  }

  lemma Opened()
    ensures Reachable(Sending(1, [], [], None, false))
  {
    var states, actions: seq<Action> := [Init()], [];
    assert IsHistory(states, actions) && states[|actions|] == Init();
    hide Reachable;
    GoOn(Init(), Render);
    var s := Init().(requests := {None});
    assert Do(Init(), Render) == s;
    GoOn(s, List(0, 0, 0, false));
    assert Do(s, List(0, 0, 0, false)) == Sending(1, [], [], None, false);
  }

  /** A change happens and is sent. */
  lemma SendOne(next: Position, queue: seq<SlotEvent>, received: seq<SlotEvent>, cursor: Option<Position>,
                lagging: bool)
    requires next > 0 && Reachable(Sending(next, queue, received, cursor, lagging))
    ensures Reachable(Sending(next + 1, Enqueue(queue, Data(Live(next))), received, cursor,
                              lagging || |queue| >= SLOT_CHANNEL_CAPACITY))
  {
    hide Reachable;
    hide Enqueue;
    var s := Sending(next, queue, received, cursor, lagging);
    GoOn(s, Change);
    var s' := s.(head := next);
    assert Do(s, Change) == s';
    GoOn(s', Deliver(0));
    assert Do(s', Deliver(0)) == Sending(next + 1, Enqueue(queue, Data(Live(next))), received, cursor,
                                         lagging || |queue| >= SLOT_CHANNEL_CAPACITY);
  }

  lemma {:induction false} Fill(n: nat)
    requires n <= SLOT_CHANNEL_CAPACITY
    ensures Reachable(Sending(n + 1, Changes(n), [], None, false))
  {
    if n == 0 {
      Opened();
      assert Changes(0) == [];
    } else {
      Fill(n - 1);
      SendOne(n, Changes(n - 1), [], None, false);
      assert Changes(n) == Changes(n - 1) + [Data(Live(n))];
    }
  }

  /** The consumer takes everything that is queued, and resumes after the last entry that says where. */
  lemma {:induction false} Drain(s: State) returns (t: State)
    requires Reachable(s) && |s.queue| > 0 && CursorOf(s.queue[|s.queue| - 1]).Some?
    ensures Reachable(t) && |t.queue| == 0 && t.received == s.received + s.queue && t.empties == s.empties
    ensures t.cursor == CursorOf(s.queue[|s.queue| - 1])
    ensures s.lagging ==> t.moved
    decreases |s.queue|
  {
    hide Reachable;
    hide CursorOf;
    GoOn(s, Receive);
    var s' := Do(s, Receive);
    assert s'.received + s'.queue == s.received + s.queue by {
      assert s.queue == [s.queue[0]] + s.queue[1..];
    }
    if |s.queue| == 1 {
      t := s';
      assert t.queue == [];
    } else {
      assert s.queue[1..][|s.queue| - 2] == s.queue[|s.queue| - 1];
      t := Drain(s');
    }
  }

  /** The queue fills up and one more entry is dropped, so the slot lags. */
  lemma DropOne()
    ensures Reachable(Sending(SLOT_CHANNEL_CAPACITY + 2, Changes(SLOT_CHANNEL_CAPACITY), [], None, true))
  {
    Fill(SLOT_CHANNEL_CAPACITY);
    SendOne(SLOT_CHANNEL_CAPACITY + 1, Changes(SLOT_CHANNEL_CAPACITY), [], None, false);
  }

  /** What the consumer receives in the end: every change but one. */
  function AllButOne(): seq<SlotEvent> {
    Changes(SLOT_CHANNEL_CAPACITY) + [Data(Live(SLOT_CHANNEL_CAPACITY + 2))]
  }

  lemma PassOne() returns (t: State)
    ensures Reachable(t) && |t.queue| == 0 && t.moved && t.received == AllButOne() && t.empties == {0}
    ensures t.cursor == Some(SLOT_CHANNEL_CAPACITY + 2)
  {
    DropOne();
    hide Reachable;
    var n, all := SLOT_CHANNEL_CAPACITY, Changes(SLOT_CHANNEL_CAPACITY);
    var s := Sending(n + 2, all, [], None, true);
    GoOn(s, Receive);
    assert Do(s, Receive) == Sending(n + 2, all[1..], [all[0]], Some(1), true);
    SendOne(n + 2, all[1..], [all[0]], Some(1), true);
    var queue := all[1..] + [Data(Live(n + 2))];
    assert Enqueue(all[1..], Data(Live(n + 2))) == queue;
    t := Drain(Sending(n + 3, queue, [all[0]], Some(1), true));
    assert [all[0]] + queue == AllButOne();
  }

  /**
   Without the proviso of `CursorPassesNothing` the guarantee fails: here the slot has drained its queue and left the
   shared connection, the resync that this leads to would ask for what comes after the cursor, and an entry before the
   cursor was never received.
   */
  lemma CursorCanPassAnEntry()
    ensures exists s ::
              && Reachable(s) && |s.queue| == 0 && s.moved && s.cursor.Some?
              && !CoversUpTo(s.received, s.empties, s.cursor.value)
              && Some(s.cursor.value) in Do(s, Render).requests
  {
    var s := PassOne();
    var p := SLOT_CHANNEL_CAPACITY + 1;
    hide Reachable;
    assert forall e :: e in s.received ==> e.Data? && e.item.Live? && e.item.position != p;
    assert !Covers(s.received, s.empties, p) by {
      assert forall at, size :: Complete(s.received, at, size) ==> Data(Snap(at, 0, size)) in s.received;
    }
    assert 1 <= p <= s.cursor.value;
  }
}
