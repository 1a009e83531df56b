/**
 * CombatActions: the effects combat applies to actors' statistics — damage,
 * dodges, counterattacks, HP/MP restoration, revival and elemental spells —
 * and the dispatch from an action id to its effect.
 *
 * Every actor's `Stats` object is held in one store keyed by actor id; the
 * `hurt` set records the actors whose controller is in the hurt state.
 */
module Actions {
  import opened Common
  import Formula
  import opened Scheduler

  /** Every actor's statistics, by actor id. */
  type Roster = map<ActorId, StatMap>

  /** The combat state the effects change. */
  datatype Fight = Fight(stats: Roster, hurt: set<ActorId>)

  function StatsOf(r: Roster, id: ActorId): StatMap
  {
    if id in r then r[id] else map[]
  }

  function Hp(r: Roster, id: ActorId): int
  {
    Get(StatsOf(r, id), HP)
  }

  /** `Stats.SetStat` on one actor. */
  function WithStat(r: Roster, id: ActorId, s: Stat, v: int): (r': Roster)
    ensures Get(StatsOf(r', id), s) == v
    ensures forall t :: t != s ==> Get(StatsOf(r', id), t) == Get(StatsOf(r, id), t)
    ensures forall other :: other != id ==> StatsOf(r', other) == StatsOf(r, other)
  {
    r[id := StatsOf(r, id)[s := v]]
  }

  /** What `CombatActionConfig.Def` holds: an item use, a spell, or anything else. */
  datatype ActionDef = ItemUseDef(use: ItemUse) | SpellDef(spell: Spell) | OtherDef

  datatype ActionConfig = ActionConfig(stateId: string, owner: ActorId, targets: seq<ActorId>, def: ActionDef)

  /** The combat action ids (HP_RESTORE, MP_RESTORE, REVIVE and SPELL combat actions). */
  datatype ActionIds = ActionIds(hpRestore: string, mpRestore: string, revive: string, spell: string)

  /** One target's magic roll: the hit draw and what `CalculateSpellDamage` gives for it. */
  datatype SpellRoll = SpellRoll(draw: real, damage: int)

  /** The routine an action id selects. */
  datatype Routine = HpRestoreRoutine | ReviveRoutine | ElementSpellRoutine | UnknownAction

  // ---- Damage, dodge, counter ----

  /** `ApplyDamage`: HP drops by the damage, with no floor; positive damage puts the target in the hurt state. */
  function Damaged(f: Fight, target: ActorId, damage: int): (g: Fight)
    ensures Hp(g.stats, target) == Hp(f.stats, target) - damage
    ensures forall s :: s != HP ==> Get(StatsOf(g.stats, target), s) == Get(StatsOf(f.stats, target), s)
    ensures forall other :: other != target ==> StatsOf(g.stats, other) == StatsOf(f.stats, other)
    ensures g.hurt == if damage > 0 then f.hurt + {target} else f.hurt
  {
    var hp := Hp(f.stats, target) - damage;
    Fight(WithStat(f.stats, target, HP, hp), if damage > 0 then f.hurt + {target} else f.hurt)
  }

  /** The counterattack `ApplyCounter` builds: the target attacks its attacker, flagged as a counter. */
  function CounterEntry(target: ActorId, attacker: ActorId, party: set<ActorId>): Entry
  {
    Entry(target, -1, AttackEvent(true, target in party, [attacker]))
  }

  /** The pending events after `ApplyCounter`: unchanged for a dead counterer, else the counter goes first. */
  function CounterQueued(events: seq<Entry>, r: Roster, target: ActorId, attacker: ActorId, party: set<ActorId>): seq<Entry>
  {
    if Hp(r, target) <= 0 then events
    else Enqueued(events, CounterEntry(target, attacker, party), -1)
  }

  /** A living counterer's attack runs next, before everything already queued, and only at the attacker. */
  lemma CounterRunsNext(events: seq<Entry>, r: Roster, target: ActorId, attacker: ActorId, party: set<ActorId>)
    ensures Hp(r, target) <= 0 ==> CounterQueued(events, r, target, attacker, party) == events
    ensures Hp(r, target) > 0 ==>
              var q := CounterQueued(events, r, target, attacker, party);
              |q| == |events| + 1 && q[1..] == events &&
              q[0].actor == target && q[0].priority == -1 &&
              q[0].kind == AttackEvent(true, target in party, [attacker])
  {
  }

  // ---- Healing: as written and corrected ----

  /** `restoreAmount`: the item's amount when positive, 250 otherwise. */
  function RestoreAmount(use: ItemUse): (a: int)
    ensures a > 0
    ensures use.amount > 0 ==> a == use.amount
  {
    if use.amount > 0 then use.amount else 250
  }

  /** The healed HP as the source writes it: the larger of MaxHP and hp + amount. */
  function HealedAsWritten(hp: int, maxHp: int, amount: int): int
  {
    Max(maxHp, hp + amount)
  }

  /**
   * As written, a healed target always ends at MaxHP or above, above it
   * whenever the heal overshoots (50/100 HP healed by the default 250
   * becomes 300), and the result agrees with the capped heal only when the
   * heal lands exactly on MaxHP.
   */
  lemma HealedAsWrittenOverheals(hp: int, maxHp: int, amount: int)
    ensures HealedAsWritten(hp, maxHp, amount) >= maxHp
    ensures HealedAsWritten(hp, maxHp, amount) > maxHp <==> hp + amount > maxHp
    ensures HealedAsWritten(hp, maxHp, amount) == Healed(hp, maxHp, amount) <==> hp + amount == maxHp
    ensures HealedAsWritten(50, 100, 250) == 300
  {
  }

  /** The healed value: hp + amount capped at the maximum. */
  function Healed(hp: int, max: int, amount: int): (h: int)
    ensures h <= max
    ensures h == max || h == hp + amount
    ensures hp + amount <= max ==> h == hp + amount
    ensures hp <= max && amount >= 0 ==> hp <= h
  {
    Min(max, hp + amount)
  }

  /** Restoring one living target's HP; a target at 0 HP or below is skipped. */
  function RestoreOne(r: Roster, t: ActorId, amount: int): Roster
  {
    if Hp(r, t) <= 0 then r else WithStat(r, t, HP, Healed(Hp(r, t), Get(StatsOf(r, t), MaxHP), amount))
  }

  /** `HpRestore` over the target list, in order. */
  function RestoreAll(r: Roster, targets: seq<ActorId>, amount: int): Roster
  {
    if targets == [] then r else RestoreAll(RestoreOne(r, targets[0], amount), targets[1..], amount)
  }

  /** Reviving one fallen target (HP at 0 or below): HP restored and the actor back to standing; living targets are skipped. */
  function ReviveOne(f: Fight, t: ActorId, amount: int): Fight
  {
    if Hp(f.stats, t) > 0 then f
    else Fight(WithStat(f.stats, t, HP, Healed(Hp(f.stats, t), Get(StatsOf(f.stats, t), MaxHP), amount)), f.hurt - {t})
  }

  function ReviveAll(f: Fight, targets: seq<ActorId>, amount: int): Fight
    decreases |targets|
  {
    if targets == [] then f else ReviveAll(ReviveOne(f, targets[0], amount), targets[1..], amount)
  }

  /** One target's spell: damage is applied only on a magic Hit. */
  function SpellOne(f: Fight, t: ActorId, spell: Spell, roll: SpellRoll): Fight
  {
    var result := Formula.MagicAttack(spell.hitChance, roll.draw, roll.damage);
    if result.result == Formula.Hit then Damaged(f, t, result.damage) else f
  }

  function SpellAll(f: Fight, targets: seq<ActorId>, spell: Spell, rolls: seq<SpellRoll>): Fight
    requires |rolls| == |targets|
    decreases |targets|
  {
    if targets == [] then f else SpellAll(SpellOne(f, targets[0], spell, rolls[0]), targets[1..], spell, rolls[1..])
  }

  // ---- Properties of the effects ----

  /** HpRestore touches nothing but the HP of its targets. */
  lemma {:induction false} RestoreAllFrame(r: Roster, targets: seq<ActorId>, amount: int)
    ensures forall id :: id !in targets ==> StatsOf(RestoreAll(r, targets, amount), id) == StatsOf(r, id)
    ensures forall id, s :: s != HP ==> Get(StatsOf(RestoreAll(r, targets, amount), id), s) == Get(StatsOf(r, id), s)
  {
    if targets != [] {
      RestoreAllFrame(RestoreOne(r, targets[0], amount), targets[1..], amount);
      forall id | id !in targets
        ensures StatsOf(RestoreAll(r, targets, amount), id) == StatsOf(r, id)
      {
        assert id !in targets[1..];
      }
    }
  }

  /** HpRestore leaves a fallen target exactly as it was: it cannot revive. */
  lemma {:induction false} RestoreAllSkipsFallen(r: Roster, targets: seq<ActorId>, amount: int, id: ActorId)
    requires Hp(r, id) <= 0
    ensures StatsOf(RestoreAll(r, targets, amount), id) == StatsOf(r, id)
  {
    if targets != [] {
      RestoreAllSkipsFallen(RestoreOne(r, targets[0], amount), targets[1..], amount, id);
    }
  }

  /** With the corrected, capped heal, HpRestore never lifts anyone's HP above the larger of their HP and their MaxHP. */
  lemma {:induction false} RestoreAllCapped(r: Roster, targets: seq<ActorId>, amount: int, id: ActorId)
    ensures Hp(RestoreAll(r, targets, amount), id) <= Max(Hp(r, id), Get(StatsOf(r, id), MaxHP))
  {
    if targets != [] {
      var r1 := RestoreOne(r, targets[0], amount);
      RestoreAllCapped(r1, targets[1..], amount, id);
      RestoreAllFrame(r, [targets[0]], amount);
      assert RestoreAll(r, [targets[0]], amount) == r1;
      assert Get(StatsOf(r1, id), MaxHP) == Get(StatsOf(r, id), MaxHP);
    }
  }

  /** With the corrected heal, a single living target is healed by the amount, up to its MaxHP. */
  lemma RestoreHealsLiving(r: Roster, t: ActorId, amount: int)
    requires Hp(r, t) > 0
    ensures Hp(RestoreAll(r, [t], amount), t) == Min(Get(StatsOf(r, t), MaxHP), Hp(r, t) + amount)
  {
  }

  /** Revive leaves every living target, and every non-target, untouched. */
  lemma {:induction false} ReviveAllSkipsLiving(f: Fight, targets: seq<ActorId>, amount: int, id: ActorId)
    requires Hp(f.stats, id) > 0 || id !in targets
    ensures StatsOf(ReviveAll(f, targets, amount).stats, id) == StatsOf(f.stats, id)
    ensures id in ReviveAll(f, targets, amount).hurt <==> id in f.hurt
    decreases |targets|
  {
    if targets != [] {
      var f1 := ReviveOne(f, targets[0], amount);
      assert StatsOf(f1.stats, id) == StatsOf(f.stats, id);
      assert id !in targets ==> id !in targets[1..];
      ReviveAllSkipsLiving(f1, targets[1..], amount, id);
    }
  }

  /** A fallen target whose HP plus the amount is positive, and whose MaxHP is positive, gets back up. */
  lemma ReviveRaises(f: Fight, t: ActorId, amount: int)
    requires Hp(f.stats, t) <= 0 && Hp(f.stats, t) + amount > 0 && Get(StatsOf(f.stats, t), MaxHP) > 0
    ensures Hp(ReviveAll(f, [t], amount).stats, t) > 0
    ensures Hp(ReviveAll(f, [t], amount).stats, t) <= Get(StatsOf(f.stats, t), MaxHP)
    ensures t !in ReviveAll(f, [t], amount).hurt
  {
  }

  /** A spell changes nothing but the HP and hurt state of its targets, and never heals. */
  lemma {:induction false} SpellAllFrame(f: Fight, targets: seq<ActorId>, spell: Spell, rolls: seq<SpellRoll>, id: ActorId)
    requires |rolls| == |targets|
    requires forall i :: 0 <= i < |rolls| ==> rolls[i].damage >= 0
    ensures id !in targets ==> StatsOf(SpellAll(f, targets, spell, rolls).stats, id) == StatsOf(f.stats, id)
    ensures forall s :: s != HP ==> Get(StatsOf(SpellAll(f, targets, spell, rolls).stats, id), s) == Get(StatsOf(f.stats, id), s)
    ensures Hp(SpellAll(f, targets, spell, rolls).stats, id) <= Hp(f.stats, id)
    ensures f.hurt <= SpellAll(f, targets, spell, rolls).hurt
    decreases |targets|
  {
    if targets != [] {
      var f1 := SpellOne(f, targets[0], spell, rolls[0]);
      assert id !in targets ==> id !in targets[1..];
      SpellAllFrame(f1, targets[1..], spell, rolls[1..], id);
    }
  }

  /** A spell whose every roll misses changes nothing. */
  lemma {:induction false} SpellAllMisses(f: Fight, targets: seq<ActorId>, spell: Spell, rolls: seq<SpellRoll>)
    requires |rolls| == |targets|
    requires forall i :: 0 <= i < |rolls| ==> rolls[i].draw >= spell.hitChance
    ensures SpellAll(f, targets, spell, rolls) == f
    decreases |targets|
  {
    if targets != [] {
      SpellAllMisses(f, targets[1..], spell, rolls[1..]);
    }
  }

  // ---- Dispatch: as written and corrected ----

  /** `RunAction`'s switch as written: the HP, MP and revive ids all select HpRestore. */
  function DispatchAsWritten(action: string, ids: ActionIds): Routine
  {
    if action == ids.hpRestore then HpRestoreRoutine
    else if action == ids.mpRestore then HpRestoreRoutine
    else if action == ids.revive then HpRestoreRoutine
    else if action == ids.spell then ElementSpellRoutine
    else UnknownAction
  }

  /** As written, no action id reaches Revive, and the MP id restores HP. */
  lemma DispatchAsWrittenNeverRevives(action: string, ids: ActionIds)
    ensures DispatchAsWritten(action, ids) != ReviveRoutine
    ensures DispatchAsWritten(ids.revive, ids) == HpRestoreRoutine
    ensures DispatchAsWritten(ids.mpRestore, ids) == HpRestoreRoutine
  {
  }

  /** As written, a revive item on a fallen actor leaves it fallen and its stats untouched. */
  lemma ReviveAsWrittenFails(r: Roster, targets: seq<ActorId>, use: ItemUse, id: ActorId)
    requires Hp(r, id) <= 0
    ensures StatsOf(RestoreAll(r, targets, RestoreAmount(use)), id) == StatsOf(r, id)
  {
    RestoreAllSkipsFallen(r, targets, RestoreAmount(use), id);
  }

  /**
   * The corrected switch: the revive id selects Revive. The MP id keeps
   * HpRestore, since the source has no MP routine for it to select; every
   * other id is dispatched as written.
   */
  function Dispatch(action: string, ids: ActionIds): (routine: Routine)
    ensures routine == UnknownAction <==>
              action != ids.hpRestore && action != ids.mpRestore && action != ids.revive && action != ids.spell
    ensures routine == HpRestoreRoutine <==> action == ids.hpRestore || action == ids.mpRestore
    ensures routine == ReviveRoutine <==> action != ids.hpRestore && action != ids.mpRestore && action == ids.revive
    ensures routine != ReviveRoutine <==> routine == DispatchAsWritten(action, ids)
  {
    if action == ids.hpRestore then HpRestoreRoutine
    else if action == ids.mpRestore then HpRestoreRoutine
    else if action == ids.revive then ReviveRoutine
    else if action == ids.spell then ElementSpellRoutine
    else UnknownAction
  }

  /** With distinct ids, the corrected switch reaches every routine. */
  lemma DispatchReachesEveryRoutine(ids: ActionIds)
    requires ids.hpRestore != ids.mpRestore && ids.hpRestore != ids.revive && ids.hpRestore != ids.spell
    requires ids.mpRestore != ids.revive && ids.mpRestore != ids.spell && ids.revive != ids.spell
    ensures Dispatch(ids.hpRestore, ids) == HpRestoreRoutine
    ensures Dispatch(ids.mpRestore, ids) == HpRestoreRoutine
    ensures Dispatch(ids.revive, ids) == ReviveRoutine
    ensures Dispatch(ids.spell, ids) == ElementSpellRoutine
  {
  }

  /** The random rolls an action consumes: one per target for a spell. */
  predicate RollsFit(config: ActionConfig, rolls: seq<SpellRoll>)
  {
    config.def.SpellDef? ==> |rolls| == |config.targets|
  }

  /** The effect of one routine; a definition of the wrong kind changes nothing. */
  function Perform(f: Fight, routine: Routine, config: ActionConfig, rolls: seq<SpellRoll>): Fight
    requires routine == ElementSpellRoutine ==> RollsFit(config, rolls)
  {
    match routine
    case HpRestoreRoutine =>
      if config.def.ItemUseDef? then Fight(RestoreAll(f.stats, config.targets, RestoreAmount(config.def.use)), f.hurt) else f
    case ReviveRoutine =>
      if config.def.ItemUseDef? then ReviveAll(f, config.targets, RestoreAmount(config.def.use)) else f
    case ElementSpellRoutine =>
      if config.def.SpellDef? then SpellAll(f, config.targets, config.def.spell, rolls) else f
    case UnknownAction => f
  }

  /** An unknown id, or a definition of the wrong kind for the routine, changes nothing. */
  lemma PerformUnknownIsNoop(f: Fight, config: ActionConfig, rolls: seq<SpellRoll>)
    requires RollsFit(config, rolls)
    ensures Perform(f, UnknownAction, config, rolls) == f
    ensures !config.def.ItemUseDef? ==> Perform(f, HpRestoreRoutine, config, rolls) == f
    ensures !config.def.ItemUseDef? ==> Perform(f, ReviveRoutine, config, rolls) == f
    ensures !config.def.SpellDef? ==> Perform(f, ElementSpellRoutine, config, rolls) == f
  {
  }

  /** The statistics of every actor in a battle, and who is hurt. */
  class StatStore {
    var stats: Roster
    var hurt: set<ActorId>

    function State(): Fight
      reads this
    {
      Fight(stats, hurt)
    }

    constructor (stats: Roster)
      ensures State() == Fight(stats, {})
    {
      this.stats := stats;
      this.hurt := {};
    }

    /** `ApplyDamage`; the result says whether the damage-taken message is broadcast. */
    method ApplyDamage(target: ActorId, damage: int) returns (broadcast: bool)
      modifies this
      ensures State() == Damaged(old(State()), target, damage)
      ensures broadcast <==> damage > 0 && target !in old(hurt)
    {
      var hp := Get(StatsOf(stats, target), HP) - damage;
      stats := stats[target := StatsOf(stats, target)[HP := hp]];
      broadcast := false;
      if damage > 0 && target !in hurt {
        hurt := hurt + {target};
        broadcast := true;
      }
    }

    /** `ApplyDodge`: the target goes to the hurt state unless already there. */
    method ApplyDodge(target: ActorId)
      modifies this
      ensures stats == old(stats)
      ensures hurt == old(hurt) + {target}
    {
      if target !in hurt {
        hurt := hurt + {target};
      }
    }

    /** `ApplyCounter`: a living target queues its counterattack at priority -1. */
    method ApplyCounter(queue: EventQueue, target: ActorId, attacker: ActorId, party: set<ActorId>)
      modifies queue
      ensures queue.events == CounterQueued(old(queue.events), stats, target, attacker, party)
      ensures queue.current == old(queue.current)
    {
      var targetAlive := Get(StatsOf(stats, target), HP) > 0;
      if !targetAlive {
        return;
      }
      var attack := Entry(target, -1, AttackEvent(true, target in party, [attacker]));
      var speed := -1;
      queue.Add(attack, speed);
    }

    /** `HpRestore`: heal every living target by the item's amount, up to its MaxHP. */
    method HpRestore(config: ActionConfig)
      modifies this
      ensures State() == Perform(old(State()), HpRestoreRoutine, config, [])
    {
      if !config.def.ItemUseDef? {
        return;
      }
      var itemUse := config.def.use;
      var restoreAmount := if itemUse.amount > 0 then itemUse.amount else 250;
      var i := 0;
      while i < |config.targets|
        invariant 0 <= i <= |config.targets|
        invariant hurt == old(hurt)
        invariant RestoreAll(stats, config.targets[i..], restoreAmount) == RestoreAll(old(stats), config.targets, restoreAmount)
      {
        var target := config.targets[i];
        var maxHP := Get(StatsOf(stats, target), MaxHP);
        var hp := Get(StatsOf(stats, target), HP);
        if hp > 0 {
          stats := WithStat(stats, target, HP, Healed(hp, maxHP, restoreAmount));
        }
        assert config.targets[i..][1..] == config.targets[i + 1..];
        i := i + 1;
      }
    }

    /** `Revive`: every fallen target gets HP back, up to its MaxHP, and stands again. */
    method Revive(config: ActionConfig)
      modifies this
      ensures State() == Perform(old(State()), ReviveRoutine, config, [])
    {
      if !config.def.ItemUseDef? {
        return;
      }
      var itemUse := config.def.use;
      var restoreAmount := if itemUse.amount > 0 then itemUse.amount else 250;
      var i := 0;
      while i < |config.targets|
        invariant 0 <= i <= |config.targets|
        invariant ReviveAll(State(), config.targets[i..], restoreAmount) == ReviveAll(old(State()), config.targets, restoreAmount)
      {
        var target := config.targets[i];
        var maxHP := Get(StatsOf(stats, target), MaxHP);
        var hp := Get(StatsOf(stats, target), HP);
        if hp <= 0 {
          stats := WithStat(stats, target, HP, Healed(hp, maxHP, restoreAmount));
          hurt := hurt - {target};
        }
        assert config.targets[i..][1..] == config.targets[i + 1..];
        i := i + 1;
      }
    }

    /** `ElementSpell`: each target whose magic roll hits takes the spell's damage. */
    method ElementSpell(config: ActionConfig, rolls: seq<SpellRoll>)
      requires RollsFit(config, rolls)
      modifies this
      ensures State() == Perform(old(State()), ElementSpellRoutine, config, rolls)
    {
      if !config.def.SpellDef? {
        return;
      }
      var spell := config.def.spell;
      var i := 0;
      while i < |config.targets|
        invariant 0 <= i <= |config.targets|
        invariant SpellAll(State(), config.targets[i..], spell, rolls[i..]) == SpellAll(old(State()), config.targets, spell, rolls)
      {
        var target := config.targets[i];
        var result := Formula.MagicAttack(spell.hitChance, rolls[i].draw, rolls[i].damage);
        if result.result == Formula.Hit {
          var _ := ApplyDamage(target, result.damage);
        }
        assert config.targets[i..][1..] == config.targets[i + 1..];
        assert rolls[i..][1..] == rolls[i + 1..];
        i := i + 1;
      }
    }

    /** `RunAction` with the corrected dispatch; a null configuration changes nothing. */
    method RunAction(action: string, config: Option<ActionConfig>, ids: ActionIds, rolls: seq<SpellRoll>)
      requires config.Some? ==> RollsFit(config.value, rolls)
      modifies this
      ensures config.None? ==> State() == old(State())
      ensures config.Some? ==> State() == Perform(old(State()), Dispatch(action, ids), config.value, rolls)
    {
      if config.None? {
        return;
      }
      var c := config.value;
      if action == ids.hpRestore || action == ids.mpRestore {
        HpRestore(c);
      } else if action == ids.revive {
        Revive(c);
      } else if action == ids.spell {
        ElementSpell(c, rolls);
      }
    }
  }
}
