/**
 * CombatEvent: the events the scheduler runs — a player turn, an AI turn,
 * an attack, a flee attempt, an item use and a spell cast. Each is a small
 * state machine over a `finished` flag; the attack and the spell prune and
 * refill their target lists, and the attack applies its blows and counters.
 *
 * The storyboards the events push are kept only as data (`Step` lists);
 * their timed playback is not modelled.
 */
module CombatEvents {
  import opened Common
  import Formula
  import opened Scheduler
  import opened Actions
  import ItemDb
  import Actors

  /**
   * `CalculatePriority`: a flee always waits the full MAX_STAT_VALUE; any
   * other event gets 0 without a queue and `SpeedToPoints` of its actor's
   * speed with one.
   */
  function CalculatePriority(kind: EventKind, hasQueue: bool, speed: int, maxStat: int): (p: int)
    ensures kind.FleeEvent? ==> p == maxStat
    ensures !kind.FleeEvent? && !hasQueue ==> p == 0
    ensures !kind.FleeEvent? && hasQueue ==> p == SpeedToPoints(speed, maxStat)
  {
    if kind.FleeEvent? then maxStat
    else if !hasQueue then 0
    else SpeedToPoints(speed, maxStat)
  }

  /** A flee is never scheduled ahead of another event whose actor has a non-negative speed. */
  lemma FleeGoesLast(kind: EventKind, hasQueue: bool, speed: int, fleeSpeed: int, maxStat: int)
    requires !kind.FleeEvent? && speed >= 0 && maxStat >= 0
    ensures 0 <= CalculatePriority(kind, hasQueue, speed, maxStat) <= CalculatePriority(FleeEvent, hasQueue, fleeSpeed, maxStat)
  {
  }

  /** The outcome the AI's behaviour tree reports. */
  datatype NodeState = Running | Success | Failure

  /** A player's turn. */
  class TurnEvent {
    var actor: ActorId
    var finished: bool

    constructor (actor: ActorId)
      ensures this.actor == actor && !finished
    {
      this.actor := actor;
      finished := false;
    }

    /**
     * `CETurn.Execute`: a party member gets the combat choice menu; an actor
     * outside the party gets nothing. Either way the turn is over.
     */
    method Execute(party: set<ActorId>) returns (pushedChoice: bool)
      modifies this
      ensures finished && actor == old(actor)
      ensures pushedChoice <==> actor in party
    {
      if actor !in party {
        finished := true;
        return false;
      }
      pushedChoice := true;
      finished := true;
    }
  }

  /**
   * The pending events after the behaviour tree's own additions: the tree's
   * attack and spell nodes add their events one by one at -1, so each lands
   * at the front, the last one first.
   */
  function TreeQueued(events: seq<Entry>, added: seq<Entry>): seq<Entry>
  {
    if added == [] then events
    else Enqueued(TreeQueued(events, added[..|added| - 1]), added[|added| - 1], -1)
  }

  /** The tree's additions at -1, the last one first. */
  function UrgentReversed(added: seq<Entry>): (u: seq<Entry>)
    ensures |u| == |added|
  {
    if added == [] then []
    else [added[|added| - 1].(priority := -1)] + UrgentReversed(added[..|added| - 1])
  }

  /** The tree's additions all go in front of the events already pending, in reverse order, at -1. */
  lemma {:induction false} TreeQueuedInFront(events: seq<Entry>, added: seq<Entry>)
    ensures TreeQueued(events, added) == UrgentReversed(added) + events
    ensures forall k :: 0 <= k < |added| ==> TreeQueued(events, added)[k] == added[|added| - 1 - k].(priority := -1)
  {
    if added != [] {
      var init := added[..|added| - 1];
      TreeQueuedInFront(events, init);
      assert UrgentReversed(added) + events == [added[|added| - 1].(priority := -1)] + (UrgentReversed(init) + events);
      forall k | 0 <= k < |added|
        ensures TreeQueued(events, added)[k] == added[|added| - 1 - k].(priority := -1)
      {
        if k > 0 {
          assert TreeQueued(events, added)[k] == TreeQueued(events, init)[k - 1];
        }
      }
    }
  }

  /**
   * The pending events after an AI turn. When the turn reaches its tree, the
   * events the tree added (`added`) are queued first; then, only when the
   * tree fails, one plain attack on the random players at the turn's own
   * priority.
   */
  function AITurnQueued(events: seq<Entry>, actor: ActorId, priority: int, isParty: bool,
                        hasAIEntry: bool, tree: Option<NodeState>, added: seq<Entry>, randomPlayers: seq<ActorId>): seq<Entry>
  {
    if isParty || !hasAIEntry || tree.None? then events
    else
      var afterTree := TreeQueued(events, added);
      if tree.value == Failure then
        Enqueued(afterTree, Entry(actor, priority, AttackEvent(false, false, randomPlayers)), priority)
      else afterTree
  }

  /**
   * Apart from the tree's own additions, an AI turn adds at most one event,
   * a non-counter enemy attack, and only when its tree fails; a turn that
   * never reaches a tree adds nothing at all.
   */
  lemma AITurnAddsAtMostOne(events: seq<Entry>, actor: ActorId, priority: int, isParty: bool,
                            hasAIEntry: bool, tree: Option<NodeState>, added: seq<Entry>, randomPlayers: seq<ActorId>)
    ensures var r := AITurnQueued(events, actor, priority, isParty, hasAIEntry, tree, added, randomPlayers);
            var base := if isParty || !hasAIEntry || tree.None? then events else UrgentReversed(added) + events;
            multiset(r) == multiset(base) ||
            (tree == Some(Failure) && !isParty && hasAIEntry &&
             multiset(r) == multiset(base) + multiset{Entry(actor, if priority < 0 then -1 else priority, AttackEvent(false, false, randomPlayers))})
    ensures isParty || !hasAIEntry || tree.None? ==>
              AITurnQueued(events, actor, priority, isParty, hasAIEntry, tree, added, randomPlayers) == events
    ensures !isParty && hasAIEntry && tree.Some? && tree != Some(Failure) ==>
              AITurnQueued(events, actor, priority, isParty, hasAIEntry, tree, added, randomPlayers) == UrgentReversed(added) + events
  {
    if !isParty && hasAIEntry && tree.Some? {
      TreeQueuedInFront(events, added);
      if tree == Some(Failure) {
        EnqueuedContents(TreeQueued(events, added), Entry(actor, priority, AttackEvent(false, false, randomPlayers)), priority);
      }
    }
  }

  /** An enemy's turn. */
  class AITurnEvent {
    var actor: ActorId
    var priority: int
    var finished: bool

    constructor (actor: ActorId, priority: int)
      ensures this.actor == actor && this.priority == priority && !finished
    {
      this.actor := actor;
      this.priority := priority;
      finished := false;
    }

    /**
     * `CEAITurn.Execute`: a party member, an actor with no AI entry, or a
     * missing behaviour tree ends the turn at once. Otherwise the tree is
     * evaluated, adding `added` at -1 one by one; a tree that fails then
     * queues a plain attack on random players at this event's own priority.
     * The turn always ends finished.
     */
    method Execute(queue: EventQueue, party: set<ActorId>, hasAIEntry: bool, tree: Option<NodeState>,
                   added: seq<Entry>, randomPlayers: seq<ActorId>)
      modifies this, queue
      ensures finished && actor == old(actor) && priority == old(priority)
      ensures queue.events == AITurnQueued(old(queue.events), actor, priority, actor in party, hasAIEntry, tree, added, randomPlayers)
      ensures queue.current == old(queue.current)
    {
      if actor in party {
        finished := true;
        return;
      }
      if !hasAIEntry {
        finished := true;
        return;
      }
      if tree.None? {
        finished := true;
        return;
      }
      for i := 0 to |added|
        invariant actor == old(actor) && priority == old(priority)
        invariant queue.current == old(queue.current)
        invariant queue.events == TreeQueued(old(queue.events), added[..i])
      {
        assert added[..i + 1][..i] == added[..i];
        queue.Add(added[i], -1);
      }
      assert added[..|added|] == added;
      if tree.value == Failure {
        var attackEvent := Entry(actor, priority, AttackEvent(false, false, randomPlayers));
        queue.Add(attackEvent, priority);
      }
      finished := true;
    }
  }

  // ---- Attacks ----

  /** The targets still standing (HP above 0), in their order. */
  function Alive(targets: seq<ActorId>, r: Roster): seq<ActorId>
  {
    if targets == [] then []
    else (if Hp(r, targets[0]) <= 0 then [] else [targets[0]]) + Alive(targets[1..], r)
  }

  /**
   * One step of a backward scan that has kept `rest` of the entries after
   * position `i`: dropping entry `i`, or keeping it, gives the list for
   * `i - 1`, whose kept part is `kept`.
   */
  lemma ScanStep(s: seq<ActorId>, i: nat, rest: seq<ActorId>, drop: bool, kept: seq<ActorId>, targets: seq<ActorId>)
    requires i < |s| && targets == s[..i + 1] + rest
    requires kept == (if drop then [] else [s[i]]) + rest
    ensures i < |targets| && targets[i] == s[i]
    ensures drop ==> targets[..i] + targets[i + 1..] == s[..i] + kept
    ensures !drop ==> targets == s[..i] + kept
  {
    assert s[..i + 1] == s[..i] + [s[i]];
    assert targets[..i] == s[..i];
    assert targets[i + 1..] == rest;
  }

  /** The attack's targets after `Execute`: the survivors, or the targeter's choice when none survive. */
  function AttackTargets(targets: seq<ActorId>, r: Roster, fallback: seq<ActorId>): seq<ActorId>
  {
    var survivors := Alive(targets, r);
    if |survivors| < 1 then fallback else survivors
  }

  /** Pruning keeps exactly the living targets. */
  lemma {:induction false} AliveExact(targets: seq<ActorId>, r: Roster)
    ensures forall t :: t in Alive(targets, r) <==> t in targets && Hp(r, t) > 0
    ensures |Alive(targets, r)| <= |targets|
    ensures (forall i :: 0 <= i < |targets| ==> Hp(r, targets[i]) > 0) ==> Alive(targets, r) == targets
  {
    if targets != [] {
      AliveExact(targets[1..], r);
      assert targets == [targets[0]] + targets[1..];
    }
  }

  /** Pruning twice prunes nothing more. */
  lemma {:induction false} AliveIdempotent(targets: seq<ActorId>, r: Roster)
    ensures Alive(Alive(targets, r), r) == Alive(targets, r)
  {
    if targets != [] {
      AliveIdempotent(targets[1..], r);
      if Hp(r, targets[0]) <= 0 {
        assert Alive(targets, r) == Alive(targets[1..], r);
      } else {
        var a := Alive(targets, r);
        assert a == [targets[0]] + Alive(targets[1..], r);
        assert a[1..] == Alive(targets[1..], r);
      }
    }
  }

  lemma {:induction false} AliveStep(s: seq<ActorId>, i: nat, r: Roster)
    requires i < |s|
    ensures Alive(s[i..], r) == (if Hp(r, s[i]) <= 0 then [] else [s[i]]) + Alive(s[i + 1..], r)
  {
    assert s[i..][1..] == s[i + 1..];
  }

  /** The draws one blow consumes: the melee draws, and the counter draw. */
  datatype BlowDraws = BlowDraws(melee: Formula.MeleeDraws, counter: nat)

  /** The state an attack changes: the statistics and the pending events. */
  datatype Battle = Battle(fight: Fight, events: seq<Entry>)

  /**
   * `AttackTarget`: a miss changes nothing, a dodge hurts the target, a hit
   * or a critical deals its damage. A division by zero in the formula aborts.
   */
  function Struck(f: Fight, attacker: ActorId, target: ActorId, t: Formula.Tuning, m: Formula.MeleeDraws): Result<Fight>
  {
    var result := Formula.MeleeAttack(t, StatsOf(f.stats, attacker), StatsOf(f.stats, target), m);
    if result.Err? then Err(result.fault)
    else
      match result.value.result
      case Miss => Ok(f)
      case Dodge => Ok(Fight(f.stats, f.hurt + {target}))
      case _ => Ok(Damaged(f, target, result.value.damage))
  }

  /**
   * `AttackTarget` followed, for an attack that is not itself a counter, by
   * `CounterTarget`: a target with a Counter statistic that is still
   * standing after the strike queues its counter.
   */
  function Blow(b: Battle, attacker: ActorId, target: ActorId, counter: bool, t: Formula.Tuning,
                party: set<ActorId>, d: BlowDraws): Result<Battle>
  {
    match Struck(b.fight, attacker, target, t, d.melee)
    case Err(e) => Err(e)
    case Ok(hit) =>
      if !counter && Formula.IsCounter(t, StatsOf(hit.stats, target), d.counter) then
        Ok(Battle(hit, CounterQueued(b.events, hit.stats, target, attacker, party)))
      else Ok(Battle(hit, b.events))
  }

  function Blows(b: Battle, attacker: ActorId, targets: seq<ActorId>, counter: bool, t: Formula.Tuning,
                 party: set<ActorId>, draws: seq<BlowDraws>): Result<Battle>
    requires |draws| == |targets|
    decreases |targets|
  {
    if targets == [] then Ok(b)
    else
      match Blow(b, attacker, targets[0], counter, t, party, draws[0])
      case Err(f) => Err(f)
      case Ok(b1) => Blows(b1, attacker, targets[1..], counter, t, party, draws[1..])
  }

  /** A counterattack never provokes another: its blows queue nothing. */
  lemma {:induction false} CountersNeverChain(b: Battle, attacker: ActorId, targets: seq<ActorId>, t: Formula.Tuning,
                                              party: set<ActorId>, draws: seq<BlowDraws>)
    requires |draws| == |targets|
    ensures Blows(b, attacker, targets, true, t, party, draws).Ok? ==>
              Blows(b, attacker, targets, true, t, party, draws).value.events == b.events
    decreases |targets|
  {
    if targets != [] {
      var r := Blow(b, attacker, targets[0], true, t, party, draws[0]);
      if r.Ok? {
        CountersNeverChain(r.value, attacker, targets[1..], t, party, draws[1..]);
      }
    }
  }

  /** The entries an attack may queue: counters by one of its targets, aimed back at the attacker. */
  predicate CountersOf(s: seq<Entry>, attacker: ActorId, targets: seq<ActorId>, party: set<ActorId>)
  {
    forall i :: 0 <= i < |s| ==>
      s[i].actor in targets && s[i].priority == -1 &&
      s[i].kind == AttackEvent(true, s[i].actor in party, [attacker])
  }

  /** One blow queues nothing, or the target's counter ahead of everything else. */
  lemma BlowQueuesAtMostCounter(b: Battle, attacker: ActorId, target: ActorId, counter: bool,
                                t: Formula.Tuning, party: set<ActorId>, d: BlowDraws)
    ensures var r := Blow(b, attacker, target, counter, t, party, d);
            r.Ok? ==> r.value.events == b.events || r.value.events == [CounterEntry(target, attacker, party)] + b.events
  {
  }

  /** `after` is `before` with counters aimed at the attacker by the given targets queued in front. */
  predicate QueuedAhead(before: seq<Entry>, after: seq<Entry>, attacker: ActorId, targets: seq<ActorId>, party: set<ActorId>)
  {
    |after| >= |before| &&
    after == after[..|after| - |before|] + before &&
    CountersOf(after[..|after| - |before|], attacker, targets, party)
  }

  lemma QueuedAheadStep(before: seq<Entry>, middle: seq<Entry>, after: seq<Entry>,
                        attacker: ActorId, targets: seq<ActorId>, party: set<ActorId>)
    requires targets != []
    requires middle == before || middle == [CounterEntry(targets[0], attacker, party)] + before
    requires QueuedAhead(middle, after, attacker, targets[1..], party)
    ensures QueuedAhead(before, after, attacker, targets, party)
  {
    var p := after[..|after| - |middle|];
    var q := middle[..|middle| - |before|];
    assert middle == q + before;
    assert after == (p + q) + before;
    assert after[..|after| - |before|] == p + q;
    forall i | 0 <= i < |p| ensures p[i].actor in targets {
      assert p[i].actor in targets[1..];
    }
  }

  /** Everything an attack queues goes ahead of the old events, and is a counter aimed at the attacker by one of its targets. */
  lemma {:induction false} BlowsQueueOnlyCounters(b: Battle, attacker: ActorId, targets: seq<ActorId>, counter: bool,
                                                  t: Formula.Tuning, party: set<ActorId>, draws: seq<BlowDraws>)
    requires |draws| == |targets|
    ensures var r := Blows(b, attacker, targets, counter, t, party, draws);
            r.Ok? ==> QueuedAhead(b.events, r.value.events, attacker, targets, party)
    decreases |targets|
  {
    var r := Blows(b, attacker, targets, counter, t, party, draws);
    if targets == [] {
      assert r.value.events[..|r.value.events| - |b.events|] == [];
    } else {
      var r1 := Blow(b, attacker, targets[0], counter, t, party, draws[0]);
      if r1.Ok? {
        BlowQueuesAtMostCounter(b, attacker, targets[0], counter, t, party, draws[0]);
        BlowsQueueOnlyCounters(r1.value, attacker, targets[1..], counter, t, party, draws[1..]);
        if r.Ok? {
          QueuedAheadStep(b.events, r1.value.events, r.value.events, attacker, targets, party);
        }
      }
    }
  }

  /** A blow changes no one's statistics but its target's. */
  lemma {:induction false} BlowsFrame(b: Battle, attacker: ActorId, targets: seq<ActorId>, counter: bool,
                                      t: Formula.Tuning, party: set<ActorId>, draws: seq<BlowDraws>, id: ActorId)
    requires |draws| == |targets| && id !in targets
    ensures var r := Blows(b, attacker, targets, counter, t, party, draws);
            r.Ok? ==> StatsOf(r.value.fight.stats, id) == StatsOf(b.fight.stats, id) &&
                      (id in r.value.fight.hurt <==> id in b.fight.hurt)
    decreases |targets|
  {
    if targets != [] {
      var r1 := Blow(b, attacker, targets[0], counter, t, party, draws[0]);
      if r1.Ok? {
        assert id !in targets[1..];
        BlowsFrame(r1.value, attacker, targets[1..], counter, t, party, draws[1..], id);
      }
    }
  }

  /** An attack in flight. */
  class AttackEvent {
    var actor: ActorId
    var counter: bool
    var isPlayer: bool
    var targets: seq<ActorId>
    var finished: bool

    constructor (actor: ActorId, counter: bool, isPlayer: bool, targets: seq<ActorId>)
      ensures this.actor == actor && this.counter == counter && this.isPlayer == isPlayer
      ensures this.targets == targets && !finished
    {
      this.actor := actor;
      this.counter := counter;
      this.isPlayer := isPlayer;
      this.targets := targets;
      finished := false;
    }

    /**
     * `CEAttack.Execute`: a backward scan drops the targets at 0 HP or below;
     * if none are left, the targeter's choice (`fallback`: the weakest enemy
     * for a player, a random player otherwise) is appended.
     */
    method Execute(r: Roster, fallback: seq<ActorId>)
      modifies this
      ensures targets == AttackTargets(old(targets), r, fallback)
      ensures actor == old(actor) && counter == old(counter) && finished == old(finished)
    {
      ghost var s := targets;
      var i := |targets| - 1;
      while i > -1
        invariant -1 <= i < |s|
        invariant targets == s[..i + 1] + Alive(s[i + 1..], r)
        invariant actor == old(actor) && counter == old(counter) && finished == old(finished)
      {
        AliveStep(s, i, r);
        ScanStep(s, i, Alive(s[i + 1..], r), Hp(r, s[i]) <= 0, Alive(s[i..], r), targets);
        var hp := Hp(r, targets[i]);
        if hp <= 0 {
          targets := targets[..i] + targets[i + 1..];
        }
        i := i - 1;
      }
      assert s[0..] == s;
      if |targets| < 1 {
        targets := targets + fallback;
      }
    }

    /** `DoAttack`: the blows of `Blows`, applied to the live store and queue. */
    method DoAttack(store: StatStore, queue: EventQueue, t: Formula.Tuning, party: set<ActorId>, draws: seq<BlowDraws>)
      returns (fault: Option<Fault>)
      requires |draws| == |targets|
      modifies store, queue
      ensures var r := Blows(Battle(old(store.State()), old(queue.events)), actor, targets, counter, t, party, draws);
              (r.Ok? ==> fault.None? && store.State() == r.value.fight && queue.events == r.value.events) &&
              (r.Err? ==> fault == Some(r.fault))
      ensures queue.current == old(queue.current)
    {
      var i := 0;
      while i < |targets|
        invariant 0 <= i <= |targets|
        invariant queue.current == old(queue.current)
        invariant Blows(Battle(store.State(), queue.events), actor, targets[i..], counter, t, party, draws[i..]) ==
                  Blows(Battle(old(store.State()), old(queue.events)), actor, targets, counter, t, party, draws)
      {
        var target := targets[i];
        assert targets[i..][1..] == targets[i + 1..];
        assert draws[i..][1..] == draws[i + 1..];
        fault := AttackTarget(store, target, t, draws[i].melee);
        if fault.Some? {
          return;
        }
        if !counter {
          CounterTarget(store, queue, target, t, party, draws[i].counter);
        }
        i := i + 1;
      }
      fault := None;
    }

    /** `CounterTarget`: a target whose Counter statistic is positive strikes back. */
    method CounterTarget(store: StatStore, queue: EventQueue, target: ActorId, t: Formula.Tuning, party: set<ActorId>, draw: nat)
      modifies queue
      ensures queue.events == if Formula.IsCounter(t, StatsOf(store.stats, target), draw)
                              then CounterQueued(old(queue.events), store.stats, target, actor, party)
                              else old(queue.events)
      ensures queue.current == old(queue.current)
    {
      var countered := Formula.IsCounter(t, StatsOf(store.stats, target), draw);
      if countered {
        store.ApplyCounter(queue, target, actor, party);
      }
    }

    /** `AttackTarget`: one melee strike against the target, as `Struck` describes. */
    method AttackTarget(store: StatStore, target: ActorId, t: Formula.Tuning, m: Formula.MeleeDraws)
      returns (fault: Option<Fault>)
      modifies store
      ensures var r := Struck(old(store.State()), actor, target, t, m);
              (r.Ok? ==> fault.None? && store.State() == r.value) &&
              (r.Err? ==> fault == Some(r.fault) && store.State() == old(store.State()))
    {
      var result := Formula.MeleeAttack(t, StatsOf(store.stats, actor), StatsOf(store.stats, target), m);
      if result.Err? {
        return Some(result.fault);
      }
      if result.value.result == Formula.Miss {
        return None;
      }
      if result.value.result == Formula.Dodge {
        // MeleeAttack reports a dodge as Miss, so the ApplyDodge call here cannot run.
        assert false;
      } else {
        var _ := store.ApplyDamage(target, result.value.damage);
      }
      return None;
    }

    /** `OnFinish`: the attack is over. */
    method OnFinish()
      modifies this
      ensures finished
      ensures actor == old(actor) && targets == old(targets) && counter == old(counter)
    {
      finished := true;
    }
  }

  // ---- Fleeing ----

  /** A storyboard step, as data. */
  datatype Step = Function(name: string) | Wait(seconds: real) | RunState(state: string) | NoBlock(inner: Step)

  datatype Direction = East | West | North | South

  /**
   * The flee storyboard: the attempt notice and a one-second wait, then the
   * two success steps or the failure notice and `OnFleeFail`. The 0.3 and
   * 0.6 second waits built on either path are never added to the list.
   */
  function FleeSteps(canEscape: bool): (steps: seq<Step>)
    ensures |steps| == 4
    ensures steps[1] == Wait(1.0)
    ensures forall i :: 0 <= i < |steps| && i != 1 ==> steps[i].Function?
    ensures canEscape <==> Function("OnFleeFail") !in steps
  {
    [Function("ShowAttemptFleeNotice"), Wait(1.0)] +
    if canEscape then [Function("FleeSuccessPart1"), Function("FleeSuccessPart2")]
    else [Function("ShowFleeFailedNotice"), Function("OnFleeFail")]
  }

  /** The direction `OnFleeFail` turns the fleeing character: East becomes West, anything else East. */
  function TurnAround(d: Direction): (r: Direction)
    ensures r == East || r == West
    ensures r == East <==> d != East
  {
    if d == East then West else East
  }

  /** The party members `FleeSuccessPart2` sends running: the living ones other than the fleer. */
  function Runners(party: seq<ActorId>, r: Roster, fleer: ActorId): seq<ActorId>
  {
    if party == [] then []
    else (if Hp(r, party[0]) > 0 && party[0] != fleer then [party[0]] else []) + Runners(party[1..], r, fleer)
  }

  lemma {:induction false} RunnersExact(party: seq<ActorId>, r: Roster, fleer: ActorId)
    ensures forall a :: a in Runners(party, r, fleer) <==> a in party && Hp(r, a) > 0 && a != fleer
  {
    if party != [] {
      RunnersExact(party[1..], r, fleer);
      assert party == [party[0]] + party[1..];
    }
  }

  /** A flee attempt. */
  class FleeEvent {
    var actor: ActorId
    var direction: Direction
    var time: real
    var steps: seq<Step>
    var finished: bool
    /** The facing of the fleeing actor's character. */
    var facing: Direction

    /** The flee decides at construction, from `CanEscape`, which storyboard it builds. */
    constructor (actor: ActorId, direction: Direction, time: real, canEscape: bool)
      ensures this.actor == actor && this.direction == direction && this.time == time
      ensures steps == FleeSteps(canEscape) && !finished && facing == direction
    {
      this.actor := actor;
      this.direction := direction;
      this.time := time;
      steps := FleeSteps(canEscape);
      finished := false;
      facing := direction;
    }

    /** `OnFleeFail`: the character turns around and the event is over. */
    method OnFleeFail()
      modifies this
      ensures finished && facing == TurnAround(direction)
      ensures actor == old(actor) && direction == old(direction) && steps == old(steps)
    {
      facing := if direction == East then West else East;
      finished := true;
    }

    /** `FleeSuccessPart2`: the party members that run off with the fleer. It does not finish the event. */
    method FleeSuccessPart2(party: seq<ActorId>, r: Roster) returns (runners: seq<ActorId>)
      ensures runners == Runners(party, r, actor)
    {
      runners := [];
      var i := 0;
      while i < |party|
        invariant 0 <= i <= |party|
        invariant runners + Runners(party[i..], r, actor) == Runners(party, r, actor)
      {
        assert party[i..][1..] == party[i + 1..];
        var alive := Hp(r, party[i]) > 0;
        var isFleer := party[i] == actor;
        if alive && !isFleer {
          runners := runners + [party[i]];
        }
        i := i + 1;
      }
    }
  }

  // ---- Items and spells ----

  /** The configuration `UseItem` hands to `RunAction`. */
  function ItemConfig(actor: ActorId, targets: seq<ActorId>, use: ItemUse): ActionConfig
  {
    ActionConfig("item", actor, targets, ItemUseDef(use))
  }

  /** An item use. */
  class UseItemEvent {
    var actor: ActorId
    var item: ItemDb.ItemInfo
    var use: ItemUse
    var targets: seq<ActorId>
    var finished: bool
    /** The calls made on the world's inventory so far. */
    var worldCalls: seq<Actors.WorldCall>

    /** A new item use takes the item out of the inventory at once, before it is used. */
    constructor (actor: ActorId, item: ItemDb.ItemInfo, use: ItemUse, targets: seq<ActorId>)
      ensures this.actor == actor && this.item == item && this.use == use && this.targets == targets && !finished
      ensures worldCalls == [Actors.TakeItem(item.id)]
    {
      this.actor := actor;
      this.item := item;
      this.use := use;
      this.targets := targets;
      finished := false;
      worldCalls := [Actors.TakeItem(item.id)];
    }

    /** `UseItem`: runs the item's action on the targets. */
    method UseItem(store: StatStore, ids: ActionIds)
      modifies store
      ensures store.State() == Perform(old(store.State()), Dispatch(use.action, ids), ItemConfig(actor, targets, use), [])
    {
      var config := ActionConfig("item", actor, targets, ItemUseDef(use));
      store.RunAction(use.action, Some(config), ids, []);
    }
  }

  /** The spell's targets after `Execute`: fallen enemies dropped, fallen party members kept. */
  function SpellSurvivors(targets: seq<ActorId>, r: Roster, party: set<ActorId>): seq<ActorId>
  {
    if targets == [] then []
    else (if targets[0] !in party && Hp(r, targets[0]) <= 0 then [] else [targets[0]]) + SpellSurvivors(targets[1..], r, party)
  }

  function SpellTargets(targets: seq<ActorId>, r: Roster, party: set<ActorId>, selected: seq<ActorId>): seq<ActorId>
  {
    var kept := SpellSurvivors(targets, r, party);
    if |kept| < 1 then selected else kept
  }

  /** A spell keeps every party member it aims at, dead or alive, and every living enemy. */
  lemma {:induction false} SpellSurvivorsExact(targets: seq<ActorId>, r: Roster, party: set<ActorId>)
    ensures forall t :: t in SpellSurvivors(targets, r, party) <==> t in targets && (t in party || Hp(r, t) > 0)
  {
    if targets != [] {
      SpellSurvivorsExact(targets[1..], r, party);
      assert targets == [targets[0]] + targets[1..];
    }
  }

  lemma {:induction false} SpellSurvivorsStep(s: seq<ActorId>, i: nat, r: Roster, party: set<ActorId>)
    requires i < |s|
    ensures SpellSurvivors(s[i..], r, party) ==
              (if s[i] !in party && Hp(r, s[i]) <= 0 then [] else [s[i]]) + SpellSurvivors(s[i + 1..], r, party)
  {
    assert s[i..][1..] == s[i + 1..];
  }

  /** The configuration `Cast` hands to `RunAction`. */
  function SpellConfig(actor: ActorId, targets: seq<ActorId>, spell: Spell): ActionConfig
  {
    ActionConfig("magic", actor, targets, SpellDef(spell))
  }

  /** The statistics after `Cast` pays for the spell. */
  function AfterCost(f: Fight, actor: ActorId, spell: Spell): Fight
  {
    Fight(f.stats[actor := ManaSpent(StatsOf(f.stats, actor), spell.mpCost)], f.hurt)
  }

  /** A spell cast. */
  class CastSpellEvent {
    var actor: ActorId
    var spell: Spell
    var targets: seq<ActorId>
    var finished: bool

    constructor (actor: ActorId, spell: Spell, targets: seq<ActorId>)
      ensures this.actor == actor && this.spell == spell && this.targets == targets && !finished
    {
      this.actor := actor;
      this.spell := spell;
      this.targets := targets;
      finished := false;
    }

    /**
     * `CECastSpellEvent.Execute`: a backward scan drops fallen enemies (party
     * members stay, dead or alive); an empty list is replaced by the spell
     * target selector's choice.
     */
    method Execute(r: Roster, party: set<ActorId>, selected: seq<ActorId>)
      modifies this
      ensures targets == SpellTargets(old(targets), r, party, selected)
      ensures actor == old(actor) && spell == old(spell) && finished == old(finished)
    {
      ghost var s := targets;
      var i := |targets| - 1;
      while i >= 0
        invariant -1 <= i < |s|
        invariant targets == s[..i + 1] + SpellSurvivors(s[i + 1..], r, party)
        invariant actor == old(actor) && spell == old(spell) && finished == old(finished)
      {
        SpellSurvivorsStep(s, i, r, party);
        ScanStep(s, i, SpellSurvivors(s[i + 1..], r, party), s[i] !in party && Hp(r, s[i]) <= 0,
                 SpellSurvivors(s[i..], r, party), targets);
        var hp := Hp(r, targets[i]);
        var isEnemy := targets[i] !in party;
        if isEnemy && hp <= 0 {
          targets := targets[..i] + targets[i + 1..];
        }
        i := i - 1;
      }
      assert s[0..] == s;
      if |targets| < 1 {
        targets := selected;
      }
    }

    /** `Cast`: pay the MP cost, then run the spell's action on the targets. */
    method Cast(store: StatStore, ids: ActionIds, rolls: seq<SpellRoll>)
      requires |rolls| == |targets|
      modifies store
      ensures store.State() ==
                Perform(AfterCost(old(store.State()), actor, spell), Dispatch(spell.action, ids), SpellConfig(actor, targets, spell), rolls)
    {
      var actorStats := StatsOf(store.stats, actor);
      var paid := if MP !in actorStats then actorStats else actorStats[MP := Max(actorStats[MP] - spell.mpCost, 0)];
      store.stats := store.stats[actor := paid];
      var config := ActionConfig("magic", actor, targets, SpellDef(spell));
      store.RunAction(spell.action, Some(config), ids, rolls);
    }
  }
}
