/**
 * Shared vocabulary of the combat model: failure-carrying results, the actor
 * statistics, C#'s truncating integer division and Unity's integer
 * `Random.Range`, with the random draw made an explicit input.
 */
module Common {

  datatype Option<T> = None | Some(value: T)

  /** The run-time exceptions the modelled C# code can raise. */
  datatype Fault = DivideByZero | IndexOutOfRange | DuplicateKey | NullReference

  datatype Result<T> = Ok(value: T) | Err(fault: Fault)

  /** Actors are identified by their integer `Id`, as the scheduler and the targeting code do. */
  type ActorId = int

  /**
   * The statistics the combat code reads and writes. The enumeration itself
   * (Stats.cs) is not part of this model: these are the members the modelled
   * code names, plus MaxMP, which the HP/MP reset after a level-up implies.
   */
  datatype Stat = HP | MaxHP | MP | MaxMP | Speed | Attack | Defense | Magic | Resist | Counter

  /** Every statistic, in declaration order (what `Enum.GetValues(typeof(Stat))` enumerates). */
  function AllStats(): seq<Stat>
  {
    [HP, MaxHP, MP, MaxMP, Speed, Attack, Defense, Magic, Resist, Counter]
  }

  /** Each statistic appears in `AllStats()`, and none appears twice. */
  lemma AllStatsEnumerates(s: Stat)
    ensures s in AllStats()
    ensures forall i, j :: 0 <= i < j < |AllStats()| ==> AllStats()[i] != AllStats()[j]
  {
  }

  /** The spelling of each statistic as `Enum.TryParse` matches it. */
  function StatName(s: Stat): string
  {
    match s
    case HP => "HP"
    case MaxHP => "MaxHP"
    case MP => "MP"
    case MaxMP => "MaxMP"
    case Speed => "Speed"
    case Attack => "Attack"
    case Defense => "Defense"
    case Magic => "Magic"
    case Resist => "Resist"
    case Counter => "Counter"
  }

  /**
   * An `ItemUse` definition: the id, the amount it restores (0 or less means
   * the default) and the combat action id it runs.
   */
  datatype ItemUse = ItemUse(id: string, amount: int, action: string)

  /**
   * A `Spell` definition, as far as combat reads it: its MP cost, its hit
   * chance and the combat action id it runs. The spell class itself is not
   * part of this model.
   */
  datatype Spell = Spell(id: string, mpCost: int, hitChance: real, action: string)

  /** An actor's `Stats` object: the statistics it has, with their values. */
  type StatMap = map<Stat, int>

  /** `Stats.Get`: the value of a statistic, 0 when the actor does not have it. */
  function Get(m: StatMap, s: Stat): int
  {
    if s in m then m[s] else 0
  }

  /**
   * `Actor.ReduceManaForSpell` on an actor's statistics: MP drops by the
   * cost, floored at 0; an actor without an MP statistic is left as it is.
   */
  function ManaSpent(m: StatMap, cost: int): StatMap
  {
    if MP !in m then m else m[MP := Max(m[MP] - cost, 0)]
  }

  /** Casting never leaves MP negative, spends exactly the cost when it is affordable, and touches no other statistic. */
  lemma ManaSpentBounds(m: StatMap, cost: int)
    ensures MP in m ==> Get(ManaSpent(m, cost), MP) >= 0
    ensures MP in m && 0 <= cost <= m[MP] ==> Get(ManaSpent(m, cost), MP) == m[MP] - cost
    ensures MP in m && cost > m[MP] ==> Get(ManaSpent(m, cost), MP) == 0
    ensures forall s :: s != MP ==> Get(ManaSpent(m, cost), s) == Get(m, s)
    ensures MP !in m ==> ManaSpent(m, cost) == m
  {
  }

  function Max(a: int, b: int): (r: int)
    ensures r >= a && r >= b && (r == a || r == b)
  {
    if a >= b then a else b
  }

  function Min(a: int, b: int): (r: int)
    ensures r <= a && r <= b && (r == a || r == b)
  {
    if a <= b then a else b
  }

  function Abs(a: int): nat
  {
    if a < 0 then -a else a
  }

  /**
   * C#'s integer division, which rounds toward zero (Dafny's `/` is
   * Euclidean). The caller must exclude a zero divisor, which raises
   * `DivideByZeroException` in C#.
   */
  function TruncDiv(a: int, b: int): (q: int)
    requires b != 0
    ensures Abs(q) * Abs(b) <= Abs(a) < (Abs(q) + 1) * Abs(b)
    ensures q == 0 || (q > 0 <==> (a > 0) == (b > 0))
  {
    var m := Abs(a) / Abs(b);
    if (a >= 0) == (b > 0) then m else -m
  }

  lemma TruncDivNonNegative(a: int, b: int)
    requires a >= 0 && b > 0
    ensures TruncDiv(a, b) == a / b
  {
  }

  /**
   * Unity's integer `Random.Range(lo, hi)`, whose upper bound is exclusive,
   * given the generator's raw draw. Reversed bounds are taken to give a value
   * in (hi, lo], equal bounds give lo.
   */
  function RangeInt(lo: int, hi: int, draw: nat): (r: int)
    ensures lo < hi ==> lo <= r < hi
    ensures lo == hi ==> r == lo
    ensures lo > hi ==> hi < r <= lo
  {
    if lo < hi then lo + draw % (hi - lo)
    else if lo == hi then lo
    else lo - draw % (lo - hi)
  }

  /** `Random.Range(0, 1)` on integers returns 0 whatever the draw. */
  lemma RangeZeroOne(draw: nat)
    ensures RangeInt(0, 1, draw) == 0
  {
  }

  /** `Mathf.Clamp` on reals: below the minimum gives the minimum, else above the maximum gives the maximum. */
  function ClampReal(x: real, lo: real, hi: real): (r: real)
    ensures x < lo ==> r == lo
    ensures lo <= x ==> r <= x
    ensures lo <= x <= hi ==> r == x
  {
    if x < lo then lo else if x > hi then hi else x
  }

  function ClampInt(x: int, lo: int, hi: int): int
  {
    if x < lo then lo else if x > hi then hi else x
  }

  /** `(int)x` for a float: truncation toward zero. */
  function Truncate(x: real): (r: int)
    ensures Abs(r) as real <= (if x < 0.0 then -x else x) < Abs(r) as real + 1.0
    ensures x >= 0.0 ==> r >= 0
  {
    if x >= 0.0 then x.Floor else -((-x).Floor)
  }
}
