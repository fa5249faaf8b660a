/**
 What a loss means for the cursor. A state is at risk when the run can go on, losing nothing more, until the consumer
 resumes after something it never received; losses are exactly what puts a state at risk.
 */
module CursorRisk {
  import opened Options
  import opened Resume

  /** The consumer would resume after something it has not received. */
  ghost predicate Passed(s: State) {
    s.cursor.Some? && !CoversUpTo(s.received, s.empties, s.cursor.value)
  }

  /** A stretch of a run in which nothing is lost. */
  ghost predicate IsLossless(states: seq<State>, actions: seq<Action>) {
    && |states| == |actions| + 1
    && forall i :: 0 <= i < |actions| ==>
         Enabled(states[i], actions[i]) && !Loses(states[i], actions[i]) && states[i + 1] == Do(states[i], actions[i])
  }

  ghost predicate LeadsTo(s: State, t: State) {
    exists states: seq<State>, actions: seq<Action> ::
      IsLossless(states, actions) && states[0] == s && states[|actions|] == t
  }

  /** Without another loss, the run can come to a state whose cursor has passed something. */
  ghost predicate AtRisk(s: State) {
    exists t :: LeadsTo(s, t) && Passed(t)
  }

  // ----- Going on -----

  lemma Stay(s: State)
    ensures LeadsTo(s, s)
  {
    var states, actions: seq<Action> := [s], [];
    assert IsLossless(states, actions) && states[0] == s && states[|actions|] == s;
  }

  lemma GoOn(s: State, t: State, a: Action)
    requires LeadsTo(s, t) && Enabled(t, a) && !Loses(t, a)
    ensures LeadsTo(s, Do(t, a))
  {
    var states: seq<State>, actions: seq<Action> :|
      IsLossless(states, actions) && states[0] == s && states[|actions|] == t;
    var t' := Do(t, a);
    hide Do;
    hide Enabled;
    hide Loses;
    var more, all := states + [t'], actions + [a];
    assert IsLossless(more, all) by {
      forall i | 0 <= i < |all|
        ensures Enabled(more[i], all[i]) && !Loses(more[i], all[i]) && more[i + 1] == Do(more[i], all[i])
      {}
    }
    assert more[0] == s && more[|all|] == t';
  }

  lemma {:induction false} SafeAllAlong(states: seq<State>, actions: seq<Action>, n: nat)
    requires IsLossless(states, actions) && Safe(states[0]) && n <= |actions|
    ensures Safe(states[n])
  {
    hide Safe;
    if n > 0 {
      SafeAllAlong(states, actions, n - 1);
      SafeIffNothingIsLost(states[n - 1], actions[n - 1]);
    }
  }

  /** A safe state is not at risk. */
  lemma SafeIsNotAtRisk(s: State)
    requires Safe(s)
    ensures !AtRisk(s)
  {
    if t :| LeadsTo(s, t) && Passed(t) {
      var states: seq<State>, actions: seq<Action> :|
        IsLossless(states, actions) && states[0] == s && states[|actions|] == t;
      SafeAllAlong(states, actions, |actions|);
      assert false;
    }
  }

  // ----- Coming to grief -----

  /** The consumer takes everything that is queued, and resumes after the last entry that says where. */
  lemma {:induction false} DrainAll(s: State, t: State) returns (u: State)
    requires LeadsTo(s, t)
    ensures LeadsTo(s, u) && u.received == Trail(t) && u.empties == t.empties
    ensures |t.queue| > 0 && CursorOf(t.queue[|t.queue| - 1]).Some? ==> u.cursor == CursorOf(t.queue[|t.queue| - 1])
    ensures |t.queue| == 0 ==> u.cursor == t.cursor
    decreases |t.queue|
  {
    hide LeadsTo;
    hide CursorOf;
    if |t.queue| == 0 {
      u := t;
    } else {
      GoOn(s, t, Receive);
      var t' := Do(t, Receive);
      assert t'.queue == t.queue[1..] && t'.empties == t.empties;
      assert Trail(t') == Trail(t) by {
        assert t.queue == [t.queue[0]] + t.queue[1..];
      }
      hide Do;
      u := DrainAll(s, t');
      assert |t.queue| > 1 ==> t.queue[1..][|t.queue| - 2] == t.queue[|t.queue| - 1];
    }
  }

  /** The server's log grows. */
  lemma {:induction false} GrowTo(s: State, t: State, head: Position) returns (u: State)
    requires LeadsTo(s, t)
    ensures LeadsTo(s, u) && head <= u.head && u == t.(head := u.head)
    decreases head - t.head
  {
    hide LeadsTo;
    if head <= t.head {
      u := t;
    } else {
      GoOn(s, t, Change);
      u := GrowTo(s, t.(head := t.head + 1), head);
    }
  }

  /**
   The consumer takes one event and another item takes its place: the queue is never drained, so a slot that lags stays
   on the connection.
   */
  lemma Pass(s: State, t: State, id: nat) returns (u: State)
    requires LeadsTo(s, t) && 1 < |t.queue| <= SLOT_CHANNEL_CAPACITY && CanSend(t, id) && !t.connections[id].last
    ensures LeadsTo(s, u) && |u.queue| == |t.queue| && u.empties == t.empties
    ensures var e := Data(NextItem(t.connections[id].progress));
            Trail(u) == Trail(t) + [e] && u.queue[|u.queue| - 1] == e
    ensures id in u.connections && !u.connections[id].cut && !u.connections[id].last
    ensures u.connections[id].progress == Advance(t.connections[id].progress)
  {
    hide LeadsTo;
    hide CursorOf;
    GoOn(s, t, Receive);
    var t' := Do(t, Receive);
    var e := Data(NextItem(t.connections[id].progress));
    assert t'.queue == t.queue[1..] && t'.connections == t.connections && t'.head == t.head;
    assert Trail(t') == Trail(t) by {
      assert t.queue == [t.queue[0]] + t.queue[1..];
    }
    GoOn(s, t', Deliver(id));
    u := Do(t', Deliver(id));
    assert u.queue == t'.queue + [e];
    assert t'.received + (t'.queue + [e]) == Trail(t') + [e];
  }

  /** Whatever the last queued entry lets the consumer resume after, it will; if that passes something, there it is. */
  lemma Arrive(s: State, t: State, q: Position)
    requires LeadsTo(s, t) && |t.queue| > 0 && 1 <= q && !Covers(Trail(t), t.empties, q)
    requires CursorOf(t.queue[|t.queue| - 1]).Some? && q <= CursorOf(t.queue[|t.queue| - 1]).value
    ensures AtRisk(s)
  {
    hide LeadsTo;
    hide Covers;
    hide CursorOf;
    var u := DrainAll(s, t);
    assert !CoversUpTo(u.received, u.empties, u.cursor.value);
    IsAtRisk(s, u);
  }

  lemma IsAtRisk(s: State, t: State)
    requires LeadsTo(s, t) && Passed(t)
    ensures AtRisk(s)
  {}

  lemma LaterChangeCoversNothing(items: seq<SlotEvent>, empties: set<Position>, next: Position, q: Position)
    requires !Covers(items, empties, q) && q != next
    ensures !Covers(items + [Data(Live(next))], empties, q)
  {
    var more := items + [Data(Live(next))];
    forall at, size | Complete(more, at, size)
      ensures Complete(items, at, size)
    {}
  }

  lemma OtherEntryCoversNothing(items: seq<SlotEvent>, empties: set<Position>, at: Position, size: nat, k: nat, i: nat,
                                q: Position)
    requires !Covers(items, empties, q) && k < size && k != i && Data(Snap(at, k, size)) !in items
    ensures !Covers(items + [Data(Snap(at, i, size))], empties, q)
  {
    var more := items + [Data(Snap(at, i, size))];
    assert Data(Snap(at, k, size)) !in more;
    forall a, n | Complete(more, a, n)
      ensures Complete(items, a, n)
    {}
  }

  /** Someone who follows the log past something it does not know will come to resume after it. */
  lemma FollowOn(s: State, t: State, id: nat, q: Position)
    requires LeadsTo(s, t) && 1 < |t.queue| <= SLOT_CHANNEL_CAPACITY
    requires 1 <= q && !Covers(Trail(t), t.empties, q)
    requires id in t.connections && !t.connections[id].cut && !t.connections[id].last
    requires t.connections[id].progress.Following? && q < t.connections[id].progress.next
    ensures AtRisk(s)
  {
    hide LeadsTo;
    hide AtRisk;
    var next := t.connections[id].progress.next;
    var t' := GrowTo(s, t, next);
    var u := Pass(s, t', id);
    LaterChangeCoversNothing(Trail(t), t.empties, next, q);
    hide Covers;
    Arrive(s, u, q);
  }

  /** So will someone who lists a snapshot that lacks an entry. */
  lemma {:induction false} ListOn(s: State, t: State, id: nat, k: nat, q: Position)
    requires LeadsTo(s, t) && 1 < |t.queue| <= SLOT_CHANNEL_CAPACITY
    requires 1 <= q && !Covers(Trail(t), t.empties, q)
    requires id in t.connections && !t.connections[id].cut && !t.connections[id].last
    requires var p := t.connections[id].progress;
             p.Listing? && k < p.index < p.size && q <= p.at && Data(Snap(p.at, k, p.size)) !in Trail(t)
    ensures AtRisk(s)
    decreases t.connections[id].progress.size - t.connections[id].progress.index
  {
    hide LeadsTo;
    hide AtRisk;
    var p := t.connections[id].progress;
    var u := Pass(s, t, id);
    OtherEntryCoversNothing(Trail(t), t.empties, p.at, p.size, k, p.index, q);
    hide Covers;
    hide Trail;
    if p.index + 1 < p.size {
      ListOn(s, u, id, k, q);
    } else {
      Arrive(s, u, q);
    }
  }

  /** A drop leaves the queue full, and the connection goes on. */
  lemma AfterDrop(s: State, id: nat)
    requires Safe(s) && Enabled(s, Deliver(id)) && Loses(s, Deliver(id))
    ensures var s' := Do(s, Deliver(id));
            && |s'.queue| == SLOT_CHANNEL_CAPACITY && Trail(s') == Trail(s) && s'.empties == s.empties
            && id in s'.connections && !s'.connections[id].cut && !s'.connections[id].last
            && s'.connections[id].progress == Advance(s.connections[id].progress)
    ensures KeptUp(Trail(s), s.empties, s.connections[id].progress)
  {
    hide Has;
    hide InOrder;
    hide KeptUp;
    hide CoversUpTo;
  }

  /** A change was dropped. */
  lemma LostChange(s: State, id: nat)
    requires Safe(s) && Enabled(s, Deliver(id)) && Loses(s, Deliver(id))
    requires s.connections[id].progress.Following?
    ensures AtRisk(Do(s, Deliver(id)))
  {
    AfterDrop(s, id);
    Stay(Do(s, Deliver(id)));
    hide LeadsTo;
    hide Covers;
    hide AtRisk;
    hide Do;
    hide Safe;
    FollowOn(Do(s, Deliver(id)), Do(s, Deliver(id)), id, s.connections[id].progress.next);
  }

  /** A snapshot entry was dropped. */
  lemma LostEntry(s: State, id: nat)
    requires Safe(s) && Enabled(s, Deliver(id)) && Loses(s, Deliver(id))
    requires s.connections[id].progress.Listing?
    ensures AtRisk(Do(s, Deliver(id)))
  {
    var s', p := Do(s, Deliver(id)), s.connections[id].progress;
    AfterDrop(s, id);
    Stay(s');
    hide LeadsTo;
    hide Covers;
    hide AtRisk;
    hide Do;
    hide Safe;
    var q :| 1 <= q <= p.at && !Covers(Trail(s), s.empties, q);
    if p.index + 1 < p.size {
      ListOn(s', s', id, p.index, q);
    } else {
      FollowOn(s', s', id, q);
    }
  }

  /**
   From a safe state, a step puts the cursor at risk if and only if it loses something: only then can the run go on,
   losing nothing more, until the consumer resumes after something it never received.
   */
  lemma AtRiskIffLost(s: State, a: Action)
    requires Safe(s) && Enabled(s, a)
    ensures AtRisk(Do(s, a)) <==> Loses(s, a)
  {
    if Loses(s, a) {
      if s.connections[a.id].progress.Following? {
        LostChange(s, a.id);
      } else {
        LostEntry(s, a.id);
      }
    } else {
      SafeIffNothingIsLost(s, a);
      SafeIsNotAtRisk(Do(s, a));
    }
  }

  // ----- Whole runs -----

  ghost predicate NeverAtRisk(states: seq<State>, n: nat)
    requires n < |states|
  {
    forall i :: 0 <= i <= n ==> !AtRisk(states[i])
  }

  lemma RiskNext(states: seq<State>, actions: seq<Action>, n: nat)
    requires IsHistory(states, actions) && n < |actions|
    ensures |states| == |actions| + 1
    ensures NeverAtRisk(states, n + 1) <==> NeverAtRisk(states, n) && !AtRisk(states[n + 1])
    ensures LosesNothing(states, actions, n + 1)
       <==> LosesNothing(states, actions, n) && !Loses(states[n], actions[n])
  {
    hide AtRisk;
    hide Loses;
    hide Do;
    hide Enabled;
  }

  lemma FirstIsSafe(states: seq<State>, actions: seq<Action>)
    requires IsHistory(states, actions)
    ensures |states| == |actions| + 1 && NeverAtRisk(states, 0) && LosesNothing(states, actions, 0)
  {
    assert Safe(states[0]);
    SafeIsNotAtRisk(states[0]);
  }

  /** A run is never at risk if and only if it loses nothing. */
  lemma {:induction false} NeverAtRiskIffNothingIsLost(states: seq<State>, actions: seq<Action>, n: nat)
    requires IsHistory(states, actions) && n <= |actions|
    ensures |states| == |actions| + 1
    ensures NeverAtRisk(states, n) <==> LosesNothing(states, actions, n)
  {
    hide *;
    if n == 0 {
      FirstIsSafe(states, actions);
    } else {
      NeverAtRiskIffNothingIsLost(states, actions, n - 1);
      RiskNext(states, actions, n - 1);
      if LosesNothing(states, actions, n - 1) {
        HistoryStep(states, actions, n - 1);
        RunIsSafe(states, actions, n - 1);
        AtRiskIffLost(states[n - 1], actions[n - 1]);
      }
    }
  }
}
