/**
 * EventQueue: the combat scheduler. Pending events wait in a list ordered by
 * priority (a countdown: lower acts sooner); every tick counts all of them
 * down, finishes or keeps the current event, and starts the head of the list.
 *
 * Events are held as values. The queue only ever asks an event for its actor,
 * its priority and its name, so an `Entry` carries exactly those; object
 * identity is not modelled.
 */
module Scheduler {
  import opened Common

  /** What an event is: the name `GetName` reports, with the data the combat rules read back. */
  datatype EventKind =
    | TurnEvent
    | AITurnEvent
    | AttackEvent(isCounter: bool, isPlayer: bool, targets: seq<ActorId>)
    | FleeEvent
    | UseItemEvent(item: string, targets: seq<ActorId>)
    | CastSpellEvent(spell: string, targets: seq<ActorId>)

  /** A queued event: its actor's id, its priority countdown, and its kind. */
  datatype Entry = Entry(actor: ActorId, priority: int, kind: EventKind)

  /** The event being run, or the shared `EmptyEvent` (priority 0, always finished, no actor). */
  datatype Current = EmptyEvent | Active(entry: Entry)

  function Priority(c: Current): int
  {
    match c
    case EmptyEvent => 0
    case Active(e) => e.priority
  }

  predicate Sorted(s: seq<Entry>)
  {
    forall i, j :: 0 <= i < j < |s| ==> s[i].priority <= s[j].priority
  }

  predicate AtLeast(s: seq<Entry>, low: int)
  {
    forall i :: 0 <= i < |s| ==> s[i].priority >= low
  }

  /** The queue's invariant: ordered by priority, no priority below the -1 of an urgent insert. */
  predicate ValidList(s: seq<Entry>)
  {
    Sorted(s) && AtLeast(s, -1)
  }

  /** The insertion index of `Add`: the first entry whose priority exceeds `p`, or the length. */
  function FirstGreater(s: seq<Entry>, p: int): (k: nat)
    ensures k <= |s|
    ensures forall i :: 0 <= i < k ==> s[i].priority <= p
    ensures k < |s| ==> s[k].priority > p
  {
    if s == [] then 0
    else if p < s[0].priority then 0
    else 1 + FirstGreater(s[1..], p)
  }

  /**
   * The list after `Add(e, points)`: a negative `points` puts the event at
   * the head with priority -1; otherwise it gets priority `points` and goes
   * in front of the first entry with a strictly greater priority.
   */
  function Enqueued(s: seq<Entry>, e: Entry, points: int): seq<Entry>
  {
    if points < 0 then [e.(priority := -1)] + s
    else
      var k := FirstGreater(s, points);
      s[..k] + [e.(priority := points)] + s[k..]
  }

  /** One step of the countdown: one less, never below 0. */
  function Decrement(e: Entry): Entry
  {
    e.(priority := Max(0, e.priority - 1))
  }

  /** Every pending entry counted down by one. */
  function Countdown(s: seq<Entry>): seq<Entry>
  {
    seq(|s|, i requires 0 <= i < |s| => Decrement(s[i]))
  }

  /** The list with every entry of one actor dropped, the others kept in order. */
  function WithoutActor(s: seq<Entry>, actor: ActorId): seq<Entry>
  {
    if s == [] then []
    else (if s[0].actor == actor then [] else [s[0]]) + WithoutActor(s[1..], actor)
  }

  /** Whether the current event or a pending one belongs to the actor. */
  predicate HasActor(current: Current, s: seq<Entry>, actor: ActorId)
  {
    (current.Active? && current.entry.actor == actor) || exists i :: 0 <= i < |s| && s[i].actor == actor
  }

  /**
   * `SpeedToPoints`: the priority of a speed, MAX_STAT_VALUE minus the speed
   * capped at MAX_STAT_VALUE. A faster actor gets a smaller countdown.
   */
  function SpeedToPoints(speed: int, maxStat: int): (r: int)
    ensures r >= 0
    ensures speed >= maxStat ==> r == 0
    ensures speed >= 0 && maxStat >= 0 ==> r <= maxStat
  {
    maxStat - Min(speed, maxStat)
  }

  lemma SpeedToPointsAntitone(slow: int, fast: int, maxStat: int)
    requires slow <= fast
    ensures SpeedToPoints(fast, maxStat) <= SpeedToPoints(slow, maxStat)
  {
  }

  /** The state one tick reads and writes. */
  datatype Queue = Queue(current: Current, events: seq<Entry>)

  /**
   * One `Execute` tick, `finished` being what the current event's
   * `IsFinished` reports after its `Update`: count every pending entry down;
   * unless the current priority is EMPTY_EVENT_COUNTDOWN, keep waiting on an
   * unfinished current event, or drop a finished one for `EmptyEvent`; then,
   * if anything is pending, make the head current and report it (the caller
   * runs its `Execute`).
   */
  function Tick(q: Queue, emptyCountdown: int, finished: bool): (Queue, Option<Entry>)
  {
    var pending := Countdown(q.events);
    var checkCurrent := Priority(q.current) != emptyCountdown;
    var done := q.current.EmptyEvent? || finished;
    if checkCurrent && !done then (Queue(q.current, pending), None)
    else
      var current := if checkCurrent then EmptyEvent else q.current;
      if pending == [] then (Queue(current, []), None)
      else (Queue(Active(pending[0]), pending[1..]), Some(pending[0]))
  }

  // ---- Properties of the specification ----

  /** A non-negative insert lands after every entry of equal or smaller priority, and before every greater one. */
  lemma EnqueuedPosition(s: seq<Entry>, e: Entry, points: int)
    requires points >= 0
    ensures var k := FirstGreater(s, points);
            var r := Enqueued(s, e, points);
            |r| == |s| + 1 && r[k] == e.(priority := points) &&
            (forall i :: 0 <= i < k ==> r[i] == s[i] && r[i].priority <= points) &&
            (forall i :: k < i < |r| ==> r[i] == s[i - 1]) &&
            (Sorted(s) ==> forall i :: k < i < |r| ==> r[i].priority > points)
  {
  }

  /** Insertion keeps the queue valid. */
  lemma {:induction false} EnqueuedValid(s: seq<Entry>, e: Entry, points: int)
    requires ValidList(s)
    ensures ValidList(Enqueued(s, e, points))
  {
    var r := Enqueued(s, e, points);
    if points >= 0 {
      var k := FirstGreater(s, points);
      EnqueuedPosition(s, e, points);
      forall i, j | 0 <= i < j < |r|
        ensures r[i].priority <= r[j].priority
      {
        if j < k {
          assert r[i] == s[i] && r[j] == s[j];
        } else if j > k && i != k {
          assert r[j] == s[j - 1];
          assert r[i] == if i < k then s[i] else s[i - 1];
        }
      }
    } else {
      assert forall i :: 1 <= i < |r| ==> r[i] == s[i - 1];
    }
  }

  /** Insertion adds exactly the new event, with its new priority, and drops nothing. */
  lemma EnqueuedContents(s: seq<Entry>, e: Entry, points: int)
    ensures multiset(Enqueued(s, e, points)) == multiset(s) + multiset{e.(priority := if points < 0 then -1 else points)}
  {
    if points >= 0 {
      var k := FirstGreater(s, points);
      assert s == s[..k] + s[k..];
    }
  }

  /** Events added with the same non-negative priority run in the order they were added. */
  lemma {:induction false} EnqueuedFifo(s: seq<Entry>, a: Entry, b: Entry, points: int)
    requires points >= 0
    ensures var k := FirstGreater(s, points);
            Enqueued(Enqueued(s, a, points), b, points) ==
              s[..k] + [a.(priority := points), b.(priority := points)] + s[k..]
  {
    var k := FirstGreater(s, points);
    var t := Enqueued(s, a, points);
    EnqueuedPosition(s, a, points);
    var m := FirstGreater(t, points);
    if k < |s| {
      assert t[k + 1] == s[k];
    }
    assert m == k + 1;
    assert t[..k + 1] == s[..k] + [a.(priority := points)];
    assert t[k + 1..] == s[k..];
  }

  /** Urgent events (negative points) run last-in first-out, ahead of everything already queued. */
  lemma EnqueuedUrgentLifo(s: seq<Entry>, a: Entry, b: Entry, pa: int, pb: int)
    requires pa < 0 && pb < 0
    ensures Enqueued(Enqueued(s, a, pa), b, pb) == [b.(priority := -1), a.(priority := -1)] + s
  {
  }

  /** Counting down keeps the order, leaves no negative priority and changes nothing but priorities. */
  lemma CountdownValid(s: seq<Entry>)
    requires Sorted(s)
    ensures ValidList(Countdown(s)) && AtLeast(Countdown(s), 0)
    ensures |Countdown(s)| == |s|
    ensures forall i :: 0 <= i < |s| ==>
              Countdown(s)[i].actor == s[i].actor && Countdown(s)[i].kind == s[i].kind &&
              Countdown(s)[i].priority == if s[i].priority > 0 then s[i].priority - 1 else 0
  {
  }

  /** Dropping an actor's events removes exactly those: every other entry is kept. */
  lemma {:induction false} WithoutActorMembers(s: seq<Entry>, actor: ActorId)
    ensures forall x :: x in WithoutActor(s, actor) <==> x in s && x.actor != actor
    ensures multiset(WithoutActor(s, actor)) <= multiset(s)
  {
    if s != [] {
      WithoutActorMembers(s[1..], actor);
      assert s == [s[0]] + s[1..];
    }
  }

  /** Dropping an actor's events keeps the rest in order, so the queue stays valid. */
  lemma {:induction false} WithoutActorValid(s: seq<Entry>, actor: ActorId)
    requires ValidList(s)
    ensures ValidList(WithoutActor(s, actor))
  {
    WithoutActorAtLeast(s, actor, -1);
    if s != [] {
      WithoutActorValid(s[1..], actor);
      if s[0].actor != actor {
        assert AtLeast(s[1..], s[0].priority);
        WithoutActorAtLeast(s[1..], actor, s[0].priority);
        ConsSorted(s[0], WithoutActor(s[1..], actor));
      }
    }
  }

  /** Removing entries keeps every lower bound on the priorities. */
  lemma {:induction false} WithoutActorAtLeast(s: seq<Entry>, actor: ActorId, low: int)
    requires AtLeast(s, low)
    ensures AtLeast(WithoutActor(s, actor), low)
  {
    if s != [] {
      WithoutActorAtLeast(s[1..], actor, low);
    }
  }

  /** An entry no later than everything in an ordered list can go in front of it. */
  lemma ConsSorted(e: Entry, rest: seq<Entry>)
    requires Sorted(rest) && AtLeast(rest, e.priority)
    ensures Sorted([e] + rest)
  {
    var r := [e] + rest;
    forall i, j | 0 <= i < j < |r| ensures r[i].priority <= r[j].priority {
      assert r[j] == rest[j - 1];
      if i > 0 { assert r[i] == rest[i - 1]; }
    }
  }

  lemma {:induction false} WithoutActorStep(s: seq<Entry>, i: nat, actor: ActorId)
    requires i < |s|
    ensures WithoutActor(s[i..], actor) == (if s[i].actor == actor then [] else [s[i]]) + WithoutActor(s[i + 1..], actor)
  {
    assert s[i..][1..] == s[i + 1..];
  }

  /** A tick keeps the queue valid, and leaves every pending priority at 0 or above. */
  lemma TickValid(q: Queue, emptyCountdown: int, finished: bool)
    requires ValidList(q.events)
    ensures ValidList(Tick(q, emptyCountdown, finished).0.events)
    ensures AtLeast(Tick(q, emptyCountdown, finished).0.events, 0)
  {
    CountdownValid(q.events);
  }

  /**
   * A tick loses no event: what is pending afterwards, plus the event it
   * started, is the counted-down list; the started event had the smallest
   * countdown of all.
   */
  lemma {:induction false} TickConserves(q: Queue, emptyCountdown: int, finished: bool)
    requires ValidList(q.events)
    ensures var (r, popped) := Tick(q, emptyCountdown, finished);
            multiset(r.events) + (if popped.Some? then multiset{popped.value} else multiset{}) ==
              multiset(Countdown(q.events))
    ensures var (r, popped) := Tick(q, emptyCountdown, finished);
            popped.Some? ==>
              r.current == Active(popped.value) &&
              forall x :: x in r.events ==> popped.value.priority <= x.priority
  {
    var pending := Countdown(q.events);
    CountdownValid(q.events);
    var (r, popped) := Tick(q, emptyCountdown, finished);
    if popped.Some? {
      assert pending == [pending[0]] + pending[1..];
      forall x | x in r.events ensures popped.value.priority <= x.priority {
        var j :| 0 <= j < |pending[1..]| && pending[1..][j] == x;
        assert pending[j + 1] == x;
      }
    }
  }

  /** An unfinished current event blocks the queue: nothing starts, only the countdown moves. */
  lemma TickWaits(q: Queue, emptyCountdown: int)
    requires q.current.Active? && q.current.entry.priority != emptyCountdown
    ensures Tick(q, emptyCountdown, false) == (Queue(q.current, Countdown(q.events)), None)
  {
  }

  /** The queue component of the battle scene. */
  class EventQueue {
    var current: Current
    var events: seq<Entry>

    predicate Valid()
      reads this
    {
      ValidList(events)
    }

    /** `Start`: no current event, nothing pending. */
    constructor ()
      ensures current == EmptyEvent && events == []
      ensures Valid()
    {
      current := EmptyEvent;
      events := [];
    }

    /** `Add`: insert as `Enqueued` says, scanning for the first greater priority. */
    method Add(e: Entry, points: int)
      modifies this
      ensures events == Enqueued(old(events), e, points)
      ensures current == old(current)
      ensures old(Valid()) ==> Valid()
    {
      if points < 0 {
        events := [e.(priority := -1)] + events;
      } else {
        var index := 0;
        while index < |events|
          invariant 0 <= index <= |events|
          invariant forall i :: 0 <= i < index ==> events[i].priority <= points
        {
          if points < events[index].priority {
            break;
          }
          index := index + 1;
        }
        assert index == FirstGreater(events, points);
        events := events[..index] + [e.(priority := points)] + events[index..];
      }
      if old(Valid()) {
        EnqueuedValid(old(events), e, points);
      }
    }

    /** `Execute`: one tick, as `Tick` specifies; returns the event it started, if any. */
    method Execute(emptyCountdown: int, finished: bool) returns (started: Option<Entry>)
      modifies this
      ensures (Queue(current, events), started) == Tick(Queue(old(current), old(events)), emptyCountdown, finished)
      ensures old(Valid()) ==> Valid()
    {
      ghost var q := Queue(current, events);
      var i := 0;
      while i < |events|
        invariant 0 <= i <= |events| == |q.events|
        invariant current == q.current
        invariant forall j :: 0 <= j < i ==> events[j] == Decrement(q.events[j])
        invariant forall j :: i <= j < |events| ==> events[j] == q.events[j]
      {
        var countDown := events[i].priority - 1;
        events := events[i := events[i].(priority := Max(0, countDown))];
        i := i + 1;
      }
      assert events == Countdown(q.events);
      if old(Valid()) {
        TickValid(q, emptyCountdown, finished);
      }
      if Priority(current) != emptyCountdown {
        var done := current.EmptyEvent? || finished;
        if done {
          current := EmptyEvent;
        } else {
          return None;
        }
      }
      if events == [] {
        return None;
      }
      var firstEvent := events[0];
      events := events[1..];
      current := Active(firstEvent);
      started := Some(firstEvent);
    }

    /** `Clear`: drop every pending event and the current one. */
    method Clear()
      modifies this
      ensures events == [] && current == EmptyEvent
      ensures Valid()
    {
      events := [];
      current := EmptyEvent;
    }

    /** `IsEmpty`: nothing is pending (the current event does not count). */
    function IsEmpty(): (r: bool)
      reads this
      ensures r <==> |events| == 0
    {
      |events| < 1
    }

    /** `ActorHasEvent`: the current event or a pending one belongs to the actor. */
    method ActorHasEvent(actor: ActorId) returns (r: bool)
      ensures r <==> HasActor(current, events, actor)
    {
      if current.Active? && current.entry.actor == actor {
        return true;
      }
      var i := 0;
      while i < |events|
        invariant 0 <= i <= |events|
        invariant forall j :: 0 <= j < i ==> events[j].actor != actor
      {
        if events[i].actor == actor {
          return true;
        }
        i := i + 1;
      }
      return false;
    }

    /** `RemoveEventsForActor`: a backward scan removing the actor's pending events. */
    method RemoveEventsForActor(actor: ActorId)
      modifies this
      ensures events == WithoutActor(old(events), actor)
      ensures current == old(current)
      ensures old(Valid()) ==> Valid()
    {
      ghost var s := events;
      var i := |events| - 1;
      while i > -1
        invariant -1 <= i < |s|
        invariant events == s[..i + 1] + WithoutActor(s[i + 1..], actor)
        invariant current == old(current)
      {
        WithoutActorStep(s, i, actor);
        assert s[..i + 1] == s[..i] + [s[i]];
        if actor == events[i].actor {
          events := events[..i] + events[i + 1..];
        }
        i := i - 1;
      }
      assert s[0..] == s;
      if old(Valid()) {
        WithoutActorValid(s, actor);
      }
    }
  }
}
