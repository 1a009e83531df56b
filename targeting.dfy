/**
 * Combat target selection: the current target list, moved within a side
 * with Left/Right (wrapping at either end) and between sides with Up/Down.
 * Actors are their ids; the party/enemy lists are those copied in when the
 * state is entered, and membership of the party list decides which side an
 * actor is on.
 */
module Targeting {
  import opened Common

  /** `CombatTargetType`; a C# enum variable can also hold an undeclared value. */
  datatype TargetType = One | Side | All | Undeclared(value: int)

  /** The default target selectors `Init` can install. */
  datatype Selector = WeakestEnemy | Enemies | SelectAll | Supplied(name: string)

  /** `Init`'s choice: a supplied selector is kept, otherwise one fitting the target type. */
  function DefaultSelector(supplied: Option<Selector>, t: TargetType): (s: Selector)
    ensures supplied.Some? ==> s == supplied.value
    ensures supplied.None? ==> (s == Enemies <==> t == Side) && (s == SelectAll <==> t == All)
    ensures supplied.None? && t != Side && t != All ==> s == WeakestEnemy
  {
    if supplied.Some? then supplied.value
    else match t
      case One => WeakestEnemy
      case Side => Enemies
      case All => SelectAll
      case Undeclared(_) => WeakestEnemy
  }

  /** The first position of `x` in `s`, or -1. */
  function IndexOf(s: seq<ActorId>, x: ActorId): (i: int)
    ensures -1 <= i < |s|
    ensures i >= 0 ==> s[i] == x && x !in s[..i]
    ensures i == -1 <==> x !in s
  {
    if s == [] then -1
    else if s[0] == x then 0
    else
      var j := IndexOf(s[1..], x);
      assert s[1..] == s[..|s|][1..];
      if j < 0 then -1
      else
        assert s[..j + 1] == [s[0]] + s[1..][..j];
        j + 1
  }

  /** `GetActorList`: the side the actor is on. */
  function SideOf(party: seq<ActorId>, enemies: seq<ActorId>, a: ActorId): seq<ActorId>
  {
    if a in party then party else enemies
  }

  /** The index `Right` moves to: one past the target, back to 0 past the end. */
  function RightIndex(side: seq<ActorId>, a: ActorId): int
  {
    var i := IndexOf(side, a) + 1;
    if i >= |side| then 0 else i
  }

  /** The index `Left` moves to: one before the target, to the last index before 0. */
  function LeftIndex(side: seq<ActorId>, a: ActorId): int
  {
    var i := IndexOf(side, a) - 1;
    if i < 0 then |side| - 1 else i
  }

  /**
   * `Right`: for single targeting, the actor after the first target on its
   * side; other target types are left as they are. An empty target list or
   * an empty side is an out-of-range read.
   */
  function MoveRight(party: seq<ActorId>, enemies: seq<ActorId>, targets: seq<ActorId>, t: TargetType): Result<seq<ActorId>>
  {
    if t != One then Ok(targets)
    else if targets == [] then Err(IndexOutOfRange)
    else
      var side := SideOf(party, enemies, targets[0]);
      var i := RightIndex(side, targets[0]);
      if 0 <= i < |side| then Ok([side[i]]) else Err(IndexOutOfRange)
  }

  /** `Left`: as `MoveRight`, towards the actor before the first target. */
  function MoveLeft(party: seq<ActorId>, enemies: seq<ActorId>, targets: seq<ActorId>, t: TargetType): Result<seq<ActorId>>
  {
    if t != One then Ok(targets)
    else if targets == [] then Err(IndexOutOfRange)
    else
      var side := SideOf(party, enemies, targets[0]);
      var i := LeftIndex(side, targets[0]);
      if 0 <= i < |side| then Ok([side[i]]) else Err(IndexOutOfRange)
  }

  predicate Distinct(s: seq<ActorId>)
  {
    forall i, j :: 0 <= i < j < |s| ==> s[i] != s[j]
  }

  predicate Disjoint(a: seq<ActorId>, b: seq<ActorId>)
  {
    forall x :: x in a ==> x !in b
  }

  /** In a list without repeats, the position of an element is its index. */
  lemma IndexOfDistinct(s: seq<ActorId>, k: int)
    requires Distinct(s) && 0 <= k < |s|
    ensures IndexOf(s, s[k]) == k
  {
    var i := IndexOf(s, s[k]);
  }

  /** With a non-empty side, a single-target move stays on the target's side. */
  lemma MovesStayOnSide(party: seq<ActorId>, enemies: seq<ActorId>, targets: seq<ActorId>)
    requires targets != [] && SideOf(party, enemies, targets[0]) != []
    ensures MoveRight(party, enemies, targets, One).Ok?
    ensures MoveLeft(party, enemies, targets, One).Ok?
    ensures |MoveRight(party, enemies, targets, One).value| == 1
    ensures |MoveLeft(party, enemies, targets, One).value| == 1
    ensures MoveRight(party, enemies, targets, One).value[0] in SideOf(party, enemies, targets[0])
    ensures MoveLeft(party, enemies, targets, One).value[0] in SideOf(party, enemies, targets[0])
  {
  }

  /** Moving right from the last actor of a side wraps to its first, and left from the first to its last. */
  lemma MovesWrap(party: seq<ActorId>, enemies: seq<ActorId>, targets: seq<ActorId>)
    requires targets != []
    requires Distinct(SideOf(party, enemies, targets[0]))
    ensures var side := SideOf(party, enemies, targets[0]);
      side != [] && targets[0] == side[|side| - 1] ==> MoveRight(party, enemies, targets, One) == Ok([side[0]])
    ensures var side := SideOf(party, enemies, targets[0]);
      side != [] && targets[0] == side[0] ==> MoveLeft(party, enemies, targets, One) == Ok([side[|side| - 1]])
  {
    var side := SideOf(party, enemies, targets[0]);
    if side != [] && targets[0] == side[|side| - 1] {
      IndexOfDistinct(side, |side| - 1);
    }
    if side != [] && targets[0] == side[0] {
      IndexOfDistinct(side, 0);
    }
  }

  /**
   * With the two sides disjoint and free of repeats, `Left` undoes `Right`:
   * moving right then left comes back to the first target.
   */
  lemma LeftUndoesRight(party: seq<ActorId>, enemies: seq<ActorId>, targets: seq<ActorId>)
    requires Distinct(party) && Distinct(enemies) && Disjoint(party, enemies)
    requires targets != [] && targets[0] in SideOf(party, enemies, targets[0])
    ensures MoveRight(party, enemies, targets, One).Ok?
    ensures MoveLeft(party, enemies, MoveRight(party, enemies, targets, One).value, One) == Ok([targets[0]])
  {
    var side := SideOf(party, enemies, targets[0]);
    var k := IndexOf(side, targets[0]);
    var j := RightIndex(side, targets[0]);
    assert SideOf(party, enemies, side[j]) == side;
    IndexOfDistinct(side, j);
    assert LeftIndex(side, side[j]) == k;
  }

  /** Fills the target list with a side, as the target type asks: its first actor, all of it, or none. */
  function SwitchTo(side: seq<ActorId>, t: TargetType): (r: Result<seq<ActorId>>)
    ensures r.Ok? ==> forall a :: a in r.value ==> a in side
    ensures r.Err? <==> t == One && side == []
  {
    match t
    case One => if side == [] then Err(IndexOutOfRange) else Ok([side[0]])
    case Side => Ok(side)
    case _ => Ok([])
  }

  /** `Down` as written: it leaves a party target alone and re-selects the enemy side from an enemy target. */
  function DownTargetsAsWritten(party: seq<ActorId>, enemies: seq<ActorId>, targets: seq<ActorId>, t: TargetType, canSwitch: bool): Result<seq<ActorId>>
  {
    if !canSwitch then Ok(targets)
    else if targets == [] then Err(IndexOutOfRange)
    else if targets[0] in party then Ok(targets)
    else SwitchTo(enemies, t)
  }

  /** `Up` as written: it leaves an enemy target alone and re-selects the party side from a party target. */
  function UpTargetsAsWritten(party: seq<ActorId>, enemies: seq<ActorId>, targets: seq<ActorId>, t: TargetType, canSwitch: bool): Result<seq<ActorId>>
  {
    if !canSwitch then Ok(targets)
    else if targets == [] then Err(IndexOutOfRange)
    else if targets[0] !in party then Ok(targets)
    else SwitchTo(party, t)
  }

  /** As written, neither `Up` nor `Down` ever moves the selection from one side to the other. */
  lemma UpDownTargetsAsWrittenNeverSwitch(party: seq<ActorId>, enemies: seq<ActorId>, targets: seq<ActorId>, t: TargetType, canSwitch: bool)
    requires Disjoint(party, enemies) && targets != [] && (targets[0] in party || targets[0] in enemies)
    ensures DownTargetsAsWritten(party, enemies, targets, t, canSwitch).Ok? ==>
      var r := DownTargetsAsWritten(party, enemies, targets, t, canSwitch).value;
      r != [] ==> (r[0] in party <==> targets[0] in party)
    ensures UpTargetsAsWritten(party, enemies, targets, t, canSwitch).Ok? ==>
      var r := UpTargetsAsWritten(party, enemies, targets, t, canSwitch).value;
      r != [] ==> (r[0] in party <==> targets[0] in party)
  {
    if canSwitch && targets[0] !in party {
      var d := SwitchTo(enemies, t);
      if d.Ok? && d.value != [] {
        var x := d.value[0];
        assert x in enemies;
        assert x in party ==> x !in enemies;
        assert DownTargetsAsWritten(party, enemies, targets, t, canSwitch) == d;
      }
    }
    if canSwitch && targets[0] in party {
      var u := SwitchTo(party, t);
      if u.Ok? && u.value != [] {
        assert u.value[0] in party;
      }
    }
  }

  /** A concrete case: from a party target, `Down` as written changes nothing. */
  lemma DownTargetsAsWrittenFromParty()
    ensures DownTargetsAsWritten([1], [2, 3], [1], One, true) == Ok([1])
  {
  }

  /** `Down` as intended: from a party target, select the enemy side; otherwise nothing changes. */
  function DownTargets(party: seq<ActorId>, enemies: seq<ActorId>, targets: seq<ActorId>, t: TargetType, canSwitch: bool): Result<seq<ActorId>>
  {
    if !canSwitch then Ok(targets)
    else if targets == [] then Err(IndexOutOfRange)
    else if targets[0] !in party then Ok(targets)
    else SwitchTo(enemies, t)
  }

  /** `Up` as intended: from an enemy target, select the party side; otherwise nothing changes. */
  function UpTargets(party: seq<ActorId>, enemies: seq<ActorId>, targets: seq<ActorId>, t: TargetType, canSwitch: bool): Result<seq<ActorId>>
  {
    if !canSwitch then Ok(targets)
    else if targets == [] then Err(IndexOutOfRange)
    else if targets[0] in party then Ok(targets)
    else SwitchTo(party, t)
  }

  /**
   * When switching is allowed, `Down` takes a party target to the enemies
   * and `Up` an enemy target to the party: the first actor for single
   * targeting, the whole side for side targeting, nobody for `All`.
   */
  lemma UpDownSwitchSides(party: seq<ActorId>, enemies: seq<ActorId>, targets: seq<ActorId>, t: TargetType)
    requires targets != []
    ensures targets[0] in party ==> DownTargets(party, enemies, targets, t, true) == SwitchTo(enemies, t)
    ensures targets[0] !in party ==> UpTargets(party, enemies, targets, t, true) == SwitchTo(party, t)
    ensures targets[0] in party && enemies != [] && Disjoint(party, enemies) ==>
      var r := DownTargets(party, enemies, targets, t, true);
      r.Ok? && forall a :: a in r.value ==> a !in party
    ensures t == One && targets[0] in party && enemies != [] ==> DownTargets(party, enemies, targets, t, true) == Ok([enemies[0]])
    ensures t == Side && targets[0] !in party ==> UpTargets(party, enemies, targets, t, true) == Ok(party)
  {
  }

  /** Down then Up, with single targeting, brings a party target to the first party member. */
  lemma DownThenUp(party: seq<ActorId>, enemies: seq<ActorId>, targets: seq<ActorId>)
    requires Disjoint(party, enemies) && targets != [] && targets[0] in party && enemies != []
    ensures DownTargets(party, enemies, targets, One, true).Ok?
    ensures UpTargets(party, enemies, DownTargets(party, enemies, targets, One, true).value, One, true) == Ok([party[0]])
  {
    var x := enemies[0];
    assert x in enemies;
    assert x in party ==> x !in enemies;
    assert DownTargets(party, enemies, targets, One, true) == Ok([enemies[0]]);
    assert party != [];
  }

  /** The targeting state: its configuration and the three actor lists. */
  class TargetState {
    var canSwitchSides: bool
    var targetType: TargetType
    var selector: Option<Selector>
    var party: seq<ActorId>
    var enemies: seq<ActorId>
    var targets: seq<ActorId>

    constructor ()
      ensures party == [] && enemies == [] && targets == []
      ensures canSwitchSides && targetType == One && selector.None?
    {
      canSwitchSides := true;
      targetType := One;
      selector := None;
      party := [];
      enemies := [];
      targets := [];
    }

    /**
     * `Init`: a missing configuration is refused; otherwise it is stored,
     * with a default selector installed when none is supplied.
     */
    method Init(config: Option<(bool, TargetType, Option<Selector>)>)
      modifies this
      ensures config.None? ==> canSwitchSides == old(canSwitchSides) && targetType == old(targetType) && selector == old(selector)
      ensures config.Some? ==> canSwitchSides == config.value.0 && targetType == config.value.1
      ensures config.Some? ==> selector == Some(DefaultSelector(config.value.2, config.value.1))
      ensures party == old(party) && enemies == old(enemies) && targets == old(targets)
    {
      if config.None? {
        return;
      }
      var (canSwitch, t, supplied) := config.value;
      canSwitchSides := canSwitch;
      targetType := t;
      if supplied.None? {
        if t == One {
          selector := Some(WeakestEnemy);
        } else if t == Side {
          selector := Some(Enemies);
        } else if t == All {
          selector := Some(SelectAll);
        } else {
          selector := Some(WeakestEnemy);
        }
      } else {
        selector := supplied;
      }
    }

    /** `GetActorIndex`: a linear scan for the first actor with the same id. */
    method GetActorIndex(actors: seq<ActorId>, actor: ActorId) returns (index: int)
      ensures index == IndexOf(actors, actor)
      ensures -1 <= index < |actors|
      ensures index >= 0 ==> actors[index] == actor && actor !in actors[..index]
      ensures index == -1 <==> actor !in actors
    {
      var i := 0;
      while i < |actors|
        invariant 0 <= i <= |actors|
        invariant actor !in actors[..i]
      {
        if actors[i] == actor {
          return i;
        }
        assert actors[..i + 1] == actors[..i] + [actors[i]];
        i := i + 1;
      }
      assert actors[..i] == actors;
      return -1;
    }

    /** `Right`: single targeting moves to the next actor on the target's side. */
    method Right() returns (fault: Option<Fault>)
      modifies this
      ensures var r := MoveRight(old(party), old(enemies), old(targets), targetType);
        if fault.None? then r == Ok(targets) else r == Err(fault.value)
      ensures party == old(party) && enemies == old(enemies) && targetType == old(targetType)
      ensures canSwitchSides == old(canSwitchSides) && selector == old(selector)
    {
      fault := None;
      if targetType != One {
        return;
      }
      if targets == [] {
        return Some(IndexOutOfRange);
      }
      var target := targets[0];
      var side := if target in party then party else enemies;
      var index := GetActorIndex(side, target);
      index := index + 1;
      if index >= |side| {
        index := 0;
      }
      targets := [];
      if index >= |side| {
        return Some(IndexOutOfRange);
      }
      targets := [side[index]];
    }

    /** `Left`: single targeting moves to the previous actor on the target's side. */
    method Left() returns (fault: Option<Fault>)
      modifies this
      ensures var r := MoveLeft(old(party), old(enemies), old(targets), targetType);
        if fault.None? then r == Ok(targets) else r == Err(fault.value)
      ensures party == old(party) && enemies == old(enemies) && targetType == old(targetType)
      ensures canSwitchSides == old(canSwitchSides) && selector == old(selector)
    {
      fault := None;
      if targetType != One {
        return;
      }
      if targets == [] {
        return Some(IndexOutOfRange);
      }
      var target := targets[0];
      var side := if target in party then party else enemies;
      var index := GetActorIndex(side, target);
      index := index - 1;
      if index < 0 {
        index := |side| - 1;
      }
      targets := [];
      if index < 0 {
        return Some(IndexOutOfRange);
      }
      targets := [side[index]];
    }

    /** Refills the target list from a side after it has been cleared. */
    method Fill(side: seq<ActorId>) returns (fault: Option<Fault>)
      modifies this
      ensures var r := SwitchTo(side, targetType);
        if fault.None? then r == Ok(targets) else r == Err(fault.value)
      ensures party == old(party) && enemies == old(enemies) && targetType == old(targetType)
      ensures canSwitchSides == old(canSwitchSides) && selector == old(selector)
    {
      fault := None;
      targets := [];
      if targetType == One {
        if side == [] {
          return Some(IndexOutOfRange);
        }
        targets := [side[0]];
      } else if targetType == Side {
        targets := side;
      }
    }

    /** `Down`, corrected: from a party target, the enemies are selected. */
    method Down() returns (fault: Option<Fault>)
      modifies this
      ensures var r := DownTargets(old(party), old(enemies), old(targets), targetType, canSwitchSides);
        if fault.None? then r == Ok(targets) else r == Err(fault.value)
      ensures party == old(party) && enemies == old(enemies) && targetType == old(targetType)
      ensures canSwitchSides == old(canSwitchSides) && selector == old(selector)
    {
      fault := None;
      if !canSwitchSides {
        return;
      }
      if targets == [] {
        return Some(IndexOutOfRange);
      }
      if targets[0] !in party {
        return;
      }
      fault := Fill(enemies);
    }

    /** `Up`, corrected: from an enemy target, the party is selected. */
    method Up() returns (fault: Option<Fault>)
      modifies this
      ensures var r := UpTargets(old(party), old(enemies), old(targets), targetType, canSwitchSides);
        if fault.None? then r == Ok(targets) else r == Err(fault.value)
      ensures party == old(party) && enemies == old(enemies) && targetType == old(targetType)
      ensures canSwitchSides == old(canSwitchSides) && selector == old(selector)
    {
      fault := None;
      if !canSwitchSides {
        return;
      }
      if targets == [] {
        return Some(IndexOutOfRange);
      }
      if targets[0] in party {
        return;
      }
      fault := Fill(party);
    }
  }
}
