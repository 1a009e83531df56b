/**
 * Actor bookkeeping: experience and level-up arithmetic, spell casting costs,
 * use restrictions and the equipment slot array.
 */
module Actors {
  import opened Common
  import opened ItemDb

  /** A level-up record: the experience and levels it adds and the statistic gains it carries. */
  datatype LevelUp = LevelUp(exp: int, level: int, gains: StatMap)

  /** The calls `Equip` makes on the world's inventory, in order. */
  datatype WorldCall = ReturnItem(item: ItemInfo) | TakeItem(id: string)

  /** The slots, their modifiers and the inventory calls after an `Equip`. */
  datatype Equipped = Equipped(slots: seq<Option<ItemInfo>>, modifiers: map<EquipSlot, StatModifier>, calls: seq<WorldCall>)

  /** The array position `(int)slot` of a slot. */
  function SlotIndex(slot: EquipSlot): nat
  {
    match slot
    case WeaponSlot => 0
    case ArmorSlot => 1
    case Accessory1 => 2
    case Accessory2 => 3
  }

  /** The length of the `Equipment` array an actor is created with. */
  const EquipmentLength: nat := 3

  /**
   * `Equip(slot, item)` on the slot array: the slot is emptied and its old
   * item, if any, loses its modifier and goes back to the inventory; then a
   * new item, if any, is taken from the inventory, stored and its modifier
   * added. A slot past the end of the array is an out-of-range access.
   */
  function EquipOutcome(slots: seq<Option<ItemInfo>>, mods: map<EquipSlot, StatModifier>, slot: EquipSlot, item: Option<ItemInfo>): Result<Equipped>
  {
    var i := SlotIndex(slot);
    if i >= |slots| then Err(IndexOutOfRange)
    else
      var previous := slots[i];
      var mods' := if previous.Some? then mods - {slot} else mods;
      var calls := if previous.Some? then [ReturnItem(previous.value)] else [];
      if item.None? then Ok(Equipped(slots[i := None], mods', calls))
      else Ok(Equipped(slots[i := item], mods'[slot := item.value.modifier], calls + [TakeItem(item.value.id)]))
  }

  /** A slot inside the array has a modifier exactly when it holds an item. */
  predicate InSync(slots: seq<Option<ItemInfo>>, mods: map<EquipSlot, StatModifier>)
  {
    forall s :: SlotIndex(s) < |slots| ==> (s in mods <==> slots[SlotIndex(s)].Some?)
  }

  /**
   * `Equip` changes only the slot it names: that slot ends up holding the
   * new item (empty for `Unequip`), its modifier is the new item's, the old
   * item goes back to the inventory first and the new one is taken last.
   */
  lemma EquipChangesOneSlot(slots: seq<Option<ItemInfo>>, mods: map<EquipSlot, StatModifier>, slot: EquipSlot, item: Option<ItemInfo>)
    requires SlotIndex(slot) < |slots|
    ensures EquipOutcome(slots, mods, slot, item).Ok?
    ensures var e := EquipOutcome(slots, mods, slot, item).value;
      |e.slots| == |slots| && e.slots[SlotIndex(slot)] == item &&
      (forall j :: 0 <= j < |slots| && j != SlotIndex(slot) ==> e.slots[j] == slots[j]) &&
      (forall s :: s != slot ==> (s in e.modifiers <==> s in mods) && (s in mods ==> e.modifiers[s] == mods[s])) &&
      (item.Some? ==> slot in e.modifiers && e.modifiers[slot] == item.value.modifier) &&
      (InSync(slots, mods) ==> InSync(e.slots, e.modifiers)) &&
      |e.calls| == (if slots[SlotIndex(slot)].Some? then 1 else 0) + (if item.Some? then 1 else 0) &&
      (slots[SlotIndex(slot)].Some? ==> e.calls[0] == ReturnItem(slots[SlotIndex(slot)].value)) &&
      (item.Some? ==> e.calls[|e.calls| - 1] == TakeItem(item.value.id))
  {
  }

  /** An actor's array has no room for the second accessory slot: equipping it always fails. */
  lemma SecondAccessoryOutOfRange(slots: seq<Option<ItemInfo>>, mods: map<EquipSlot, StatModifier>, item: Option<ItemInfo>)
    requires |slots| == EquipmentLength
    ensures EquipOutcome(slots, mods, Accessory2, item) == Err(IndexOutOfRange)
    ensures forall s :: s != Accessory2 ==> EquipOutcome(slots, mods, s, item).Ok?
  {
  }

  /** Unequipping right after equipping an item empties the slot and hands that same item back. */
  lemma UnequipReturnsEquipped(slots: seq<Option<ItemInfo>>, mods: map<EquipSlot, StatModifier>, slot: EquipSlot, item: ItemInfo)
    requires SlotIndex(slot) < |slots|
    ensures EquipOutcome(slots, mods, slot, Some(item)).Ok?
    ensures var e := EquipOutcome(slots, mods, slot, Some(item)).value;
      var u := EquipOutcome(e.slots, e.modifiers, slot, None);
      u.Ok? && u.value.slots == slots[SlotIndex(slot) := None] &&
      u.value.calls == [ReturnItem(item)] && slot !in u.value.modifiers
  {
  }

  /** `EquipCount` as written: the first empty slot it meets is dereferenced and throws. */
  function EquipCountAsWritten(slots: seq<Option<ItemInfo>>, id: string): Result<nat>
  {
    if slots == [] then Ok(0)
    else if slots[0].None? then Err(NullReference)
    else match EquipCountAsWritten(slots[1..], id)
      case Err(f) => Err(f)
      case Ok(n) => Ok(if slots[0].value.id == id then n + 1 else n)
  }

  /** As written, counting fails on any actor with an empty slot, which includes every new actor. */
  lemma {:induction false} EquipCountAsWrittenFailsOnEmptySlot(slots: seq<Option<ItemInfo>>, id: string)
    requires None in slots
    ensures EquipCountAsWritten(slots, id) == Err(NullReference)
  {
    if slots[0].Some? {
      assert None in slots[1..];
      EquipCountAsWrittenFailsOnEmptySlot(slots[1..], id);
    }
  }

  /** `EquipCount` as intended: the number of occupied slots holding an item with that id. */
  function CountId(slots: seq<Option<ItemInfo>>, id: string): (n: nat)
    ensures n <= |slots|
    ensures n == 0 <==> forall j :: 0 <= j < |slots| ==> slots[j].None? || slots[j].value.id != id
  {
    if slots == [] then 0
    else
      var rest := CountId(slots[1..], id);
      assert forall j :: 1 <= j < |slots| ==> slots[j] == slots[1..][j - 1];
      if slots[0].Some? && slots[0].value.id == id then rest + 1 else rest
  }

  /** Where every slot is occupied the two versions agree. */
  lemma {:induction false} EquipCountAgrees(slots: seq<Option<ItemInfo>>, id: string)
    requires None !in slots
    ensures EquipCountAsWritten(slots, id) == Ok(CountId(slots, id))
  {
    if slots != [] {
      assert None !in slots[1..];
      EquipCountAgrees(slots[1..], id);
    }
  }

  lemma {:induction false} CountIdUpdate(slots: seq<Option<ItemInfo>>, i: nat, v: Option<ItemInfo>, id: string)
    requires i < |slots|
    ensures CountId(slots[i := v], id) + (if slots[i].Some? && slots[i].value.id == id then 1 else 0)
         == CountId(slots, id) + (if v.Some? && v.value.id == id then 1 else 0)
  {
    if i > 0 {
      assert slots[i := v][1..] == slots[1..][i - 1 := v];
      CountIdUpdate(slots[1..], i - 1, v, id);
    } else {
      assert slots[i := v][1..] == slots[1..];
    }
  }

  /** Equipping an item into an empty slot raises its count by one. */
  lemma EquipCountsItem(slots: seq<Option<ItemInfo>>, mods: map<EquipSlot, StatModifier>, slot: EquipSlot, item: ItemInfo)
    requires SlotIndex(slot) < |slots| && slots[SlotIndex(slot)].None?
    ensures EquipOutcome(slots, mods, slot, Some(item)).Ok?
    ensures CountId(EquipOutcome(slots, mods, slot, Some(item)).value.slots, item.id) == CountId(slots, item.id) + 1
  {
    CountIdUpdate(slots, SlotIndex(slot), Some(item), item.id);
  }

  /** `CanUse`: some entry of the item's restriction list is `None` or the actor's own restriction. */
  predicate Usable(item: ItemInfo, own: UseRestriction)
  {
    exists i :: 0 <= i < |item.useRestriction| && item.useRestriction[i] in {NoRestriction, own}
  }

  /**
   * The statistics after `ApplyLevel`: every statistic the actor has grows
   * by its gain (absent gains count 0), then HP and MP are refilled to
   * their maxima. The refill (`Stats.ResetHpMp`) is not part of this model
   * and is taken to set HP to MaxHP and MP to MaxMP where the actor has them.
   */
  function Levelled(m: StatMap, gains: StatMap): StatMap
  {
    ResetHpMp(Grown(m, gains, AllStats()))
  }

  /** The statistics of `m` listed in `order` grown by their gains. */
  function Grown(m: StatMap, gains: StatMap, order: seq<Stat>): (r: StatMap)
    ensures r.Keys == m.Keys
    ensures forall s :: s in m ==> r[s] == m[s] + (if s in order then Get(gains, s) else 0)
  {
    map s | s in m :: m[s] + (if s in order then Get(gains, s) else 0)
  }

  function ResetHpMp(m: StatMap): StatMap
  {
    var m1 := if HP in m then m[HP := Get(m, MaxHP)] else m;
    if MP in m1 then m1[MP := Get(m1, MaxMP)] else m1
  }

  /**
   * A level-up keeps the set of statistics, adds each gain to every
   * statistic other than HP and MP, and leaves the actor at full HP and MP.
   */
  lemma LevelledGrowsStats(m: StatMap, gains: StatMap)
    ensures Levelled(m, gains).Keys == m.Keys
    ensures forall s :: s in m && s != HP && s != MP ==> Levelled(m, gains)[s] == m[s] + Get(gains, s)
    ensures HP in m ==> Levelled(m, gains)[HP] == Get(m, MaxHP) + (if MaxHP in m then Get(gains, MaxHP) else 0)
    ensures MP in m ==> Levelled(m, gains)[MP] == Get(m, MaxMP) + (if MaxMP in m then Get(gains, MaxMP) else 0)
  {
    forall s | s in m ensures s in AllStats() {
      AllStatsEnumerates(s);
    }
    var g := Grown(m, gains, AllStats());
    assert Get(g, MaxHP) == Get(m, MaxHP) + (if MaxHP in m then Get(gains, MaxHP) else 0);
    assert Get(g, MaxMP) == Get(m, MaxMP) + (if MaxMP in m then Get(gains, MaxMP) else 0);
    ResetHpMpRefills(g);
  }

  /** The refill touches HP and MP only, setting each one the actor has to its maximum. */
  lemma ResetHpMpRefills(m: StatMap)
    ensures ResetHpMp(m).Keys == m.Keys
    ensures forall s :: s in m && s != HP && s != MP ==> ResetHpMp(m)[s] == m[s]
    ensures HP in m ==> ResetHpMp(m)[HP] == Get(m, MaxHP)
    ensures MP in m ==> ResetHpMp(m)[MP] == Get(m, MaxMP)
  {
  }

  /** No statistic occurs twice in the enumeration. */
  lemma AllStatsFirstAt(i: nat)
    requires i < |AllStats()|
    ensures AllStats()[i] !in AllStats()[..i]
  {
  }

  /** Growing one more statistic of the enumeration extends the grown prefix by one. */
  lemma GrownStep(m: StatMap, gains: StatMap, order: seq<Stat>, i: nat)
    requires order == AllStats() && i < |order|
    ensures var g := Grown(m, gains, order[..i]);
      var s := order[i];
      (if s in g then g[s := g[s] + Get(gains, s)] else g) == Grown(m, gains, order[..i + 1])
  {
    assert order[..i + 1] == order[..i] + [order[i]];
    AllStatsFirstAt(i);
  }

  /** The loop of `ApplyLevel`: each statistic of the enumeration the actor has grows by its gain. */
  method GrowAll(m: StatMap, gains: StatMap) returns (grown: StatMap)
    ensures grown == Grown(m, gains, AllStats())
  {
    var order := AllStats();
    grown := m;
    var i := 0;
    while i < |order|
      invariant 0 <= i <= |order|
      invariant grown == Grown(m, gains, order[..i])
    {
      var s := order[i];
      GrownStep(m, gains, order, i);
      if s in grown {
        grown := grown[s := grown[s] + Get(gains, s)];
      }
      i := i + 1;
    }
    assert order[..i] == order;
  }

  /** A party member or monster: its progression, statistics and equipment. */
  class Actor {
    var exp: int
    var level: int
    var nextLevelExp: int
    var stats: StatMap
    var restriction: UseRestriction
    var equipment: array<Option<ItemInfo>>
    var modifiers: map<EquipSlot, StatModifier>

    predicate Valid()
      reads this
    {
      equipment.Length == EquipmentLength
    }

    constructor (restriction: UseRestriction, stats: StatMap)
      ensures Valid() && fresh(equipment)
      ensures equipment[..] == [None, None, None]
      ensures this.restriction == restriction && this.stats == stats
      ensures exp == 0 && level == 0 && nextLevelExp == 0 && modifiers == map[]
    {
      exp := 0;
      level := 0;
      nextLevelExp := 0;
      this.stats := stats;
      this.restriction := restriction;
      equipment := new Option<ItemInfo>[EquipmentLength](_ => None);
      modifiers := map[];
    }

    /** `ReadyToLevelUp`: enough experience for the next level. */
    predicate ReadyToLevelUp()
      reads this
    {
      exp >= nextLevelExp
    }

    /** `AddExp`: adds the experience and says whether a level-up is due. */
    method AddExp(amount: int) returns (ready: bool)
      modifies this
      ensures exp == old(exp) + amount
      ensures ready <==> old(exp) + amount >= nextLevelExp
      ensures level == old(level) && nextLevelExp == old(nextLevelExp) && stats == old(stats)
      ensures equipment == old(equipment) && modifiers == old(modifiers) && restriction == old(restriction)
    {
      exp := exp + amount;
      ready := ReadyToLevelUp();
    }

    /**
     * `ApplyLevel`: adds the record's experience and levels, asks the level
     * function for the next threshold, grows each statistic the actor has in
     * enumeration order, then refills HP and MP.
     */
    method ApplyLevel(up: LevelUp, nextLevel: int -> int)
      modifies this
      ensures exp == old(exp) + up.exp && level == old(level) + up.level
      ensures nextLevelExp == nextLevel(old(level) + up.level)
      ensures stats == Levelled(old(stats), up.gains)
      ensures equipment == old(equipment) && modifiers == old(modifiers) && restriction == old(restriction)
    {
      exp := exp + up.exp;
      level := level + up.level;
      nextLevelExp := nextLevel(level);
      var grown := GrowAll(stats, up.gains);
      stats := ResetHpMp(grown);
    }

    /**
     * `Equip(slot, item)`; `Unequip(slot)` is `Equip(slot, null)`. Returns
     * the inventory calls made, in order, or the out-of-range fault.
     */
    method Equip(slot: EquipSlot, item: Option<ItemInfo>) returns (r: Result<seq<WorldCall>>)
      requires Valid()
      modifies this, equipment
      ensures Valid() && equipment == old(equipment)
      ensures var e := EquipOutcome(old(equipment[..]), old(modifiers), slot, item);
        (r.Err? <==> e.Err?) &&
        (r.Err? ==> r.fault == e.fault && equipment[..] == old(equipment[..]) && modifiers == old(modifiers)) &&
        (r.Ok? ==> equipment[..] == e.value.slots && modifiers == e.value.modifiers && r.value == e.value.calls)
      ensures exp == old(exp) && level == old(level) && stats == old(stats) && restriction == old(restriction)
    {
      var i := SlotIndex(slot);
      if i >= equipment.Length {
        return Err(IndexOutOfRange);
      }
      var previous := equipment[i];
      equipment[i] := None;
      var calls := [];
      if previous.Some? {
        modifiers := modifiers - {slot};
        calls := calls + [ReturnItem(previous.value)];
      }
      if item.None? {
        return Ok(calls);
      }
      calls := calls + [TakeItem(item.value.id)];
      equipment[i] := item;
      modifiers := modifiers[slot := item.value.modifier];
      return Ok(calls);
    }

    /** `EquipCount`, corrected: counts the occupied slots holding an item with the same id. */
    method EquipCount(item: ItemInfo) returns (count: nat)
      ensures count == CountId(equipment[..], item.id)
    {
      count := 0;
      var i := equipment.Length;
      while i > 0
        invariant 0 <= i <= equipment.Length
        invariant count == CountId(equipment[i..], item.id)
      {
        i := i - 1;
        assert equipment[i..][1..] == equipment[i + 1..];
        var slot := equipment[i];
        if slot.Some? && slot.value.id == item.id {
          count := count + 1;
        }
      }
      assert equipment[0..] == equipment[..];
    }

    /** `CanUse`: scans the item's restriction list for `None` or the actor's own restriction. */
    method CanUse(item: ItemInfo) returns (r: bool)
      ensures r <==> Usable(item, restriction)
    {
      var i := 0;
      while i < |item.useRestriction|
        invariant 0 <= i <= |item.useRestriction|
        invariant forall j :: 0 <= j < i ==> item.useRestriction[j] !in {NoRestriction, restriction}
      {
        var use := item.useRestriction[i];
        if use == NoRestriction || use == restriction {
          return true;
        }
        i := i + 1;
      }
      return false;
    }

    /** `CanCast`: the spell costs no more than the actor's current MP. */
    predicate CanCast(spell: Spell)
      reads this
    {
      spell.mpCost <= Get(stats, MP)
    }

    /** `ReduceManaForSpell`: MP drops by the cost, floored at 0; an actor without MP is left as it is. */
    method ReduceManaForSpell(spell: Spell)
      modifies this
      ensures stats == ManaSpent(old(stats), spell.mpCost)
      ensures exp == old(exp) && level == old(level) && nextLevelExp == old(nextLevelExp)
      ensures equipment == old(equipment) && modifiers == old(modifiers) && restriction == old(restriction)
    {
      if MP !in stats {
        return;
      }
      var mp := Get(stats, MP);
      mp := Max(mp - spell.mpCost, 0);
      stats := stats[MP := mp];
    }
  }

  /**
   * An affordable, non-negative cost is paid exactly, so casting never
   * drives MP below 0; an unaffordable cost is refused by `CanCast`
   * whenever the actor has an MP statistic.
   */
  lemma CastingPaysExactly(m: StatMap, spell: Spell)
    requires MP in m && 0 <= spell.mpCost <= Get(m, MP)
    ensures Get(ManaSpent(m, spell.mpCost), MP) == Get(m, MP) - spell.mpCost >= 0
    ensures forall s :: s != MP ==> Get(ManaSpent(m, spell.mpCost), s) == Get(m, s)
  {
    ManaSpentBounds(m, spell.mpCost);
  }
}
