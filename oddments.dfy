/**
 * OddmentTable: weighted random choice. Each oddment carries an integer
 * chance; a pick draws an integer below the table's total and returns the
 * first oddment whose running sum of chances reaches it.
 */
module Oddments {
  import opened Common

  /** An oddment: its weight, a count and the item ids it stands for. */
  datatype Oddment = Oddment(chance: int, count: int, items: seq<string>)

  /** The sum of the chances, accumulated front to back. */
  function Sum(s: seq<Oddment>): int
  {
    if s == [] then 0 else Sum(s[..|s| - 1]) + s[|s| - 1].chance
  }

  /** The running sum through index j: the chances of s[0..j], inclusive. */
  function Running(s: seq<Oddment>, j: nat): int
    requires j < |s|
  {
    Sum(s[..j + 1])
  }

  predicate NonNegative(s: seq<Oddment>)
  {
    forall i :: 0 <= i < |s| ==> s[i].chance >= 0
  }

  /** With non-negative chances, running sums only grow: a longer prefix never sums to less. */
  lemma {:induction false} SumMonotone(s: seq<Oddment>, j: nat, k: nat)
    requires NonNegative(s) && j <= k <= |s|
    ensures 0 <= Sum(s[..j]) <= Sum(s[..k])
    decreases k
  {
    if k > 0 {
      assert s[..k][..k - 1] == s[..k - 1];
      if j < k {
        SumMonotone(s, j, k - 1);
      } else {
        SumMonotone(s, 0, k - 1);
        assert s[..0] == [];
      }
    } else {
      assert s[..0] == [];
    }
  }

  /** The first index at or after `k` whose running sum reaches `pick`, or the length if none does. */
  function FirstReaching(s: seq<Oddment>, pick: int, k: nat): (i: nat)
    requires k <= |s|
    ensures k <= i <= |s|
    ensures forall j :: k <= j < i ==> Running(s, j) < pick
    ensures i < |s| ==> Running(s, i) >= pick
    decreases |s| - k
  {
    if k == |s| then k
    else if Running(s, k) >= pick then k
    else FirstReaching(s, pick, k + 1)
  }

  /**
   * `Pick` given the generator's draw: null for an empty list; otherwise the
   * first oddment whose running sum reaches the drawn value, and past the end
   * the lookup `oddments[count]`, which is out of range.
   */
  function Picked(s: seq<Oddment>, total: int, draw: nat): Result<Option<Oddment>>
  {
    var pick := RangeInt(0, total, draw);
    var k := FirstReaching(s, pick, 0);
    if k < |s| then Ok(Some(s[k]))
    else if |s| == 0 then Ok(None)
    else Err(IndexOutOfRange)
  }

  /** An empty table picks nothing, whatever its stale total. */
  lemma PickedEmpty(total: int, draw: nat)
    ensures Picked([], total, draw) == Ok(None)
  {
  }

  /** A drawn value of 0 or below selects the first oddment, even one whose chance is 0. */
  lemma PickedFirst(s: seq<Oddment>, total: int, draw: nat)
    requires s != [] && s[0].chance >= 0 && RangeInt(0, total, draw) <= 0
    ensures Picked(s, total, draw) == Ok(Some(s[0]))
  {
    assert s[..1][..0] == [];
    assert Sum(s[..1]) == Sum(s[..1][..0]) + s[..1][0].chance;
    assert Running(s, 0) == s[0].chance;
  }

  /**
   * With non-negative chances and the total equal to their sum, a non-empty
   * table always returns an oddment: the out-of-range lookup is unreachable.
   */
  lemma PickedNeverFallsThrough(s: seq<Oddment>, draw: nat)
    requires s != [] && NonNegative(s)
    ensures Picked(s, Sum(s), draw).Ok?
    ensures Picked(s, Sum(s), draw).value.Some?
  {
    SumMonotone(s, 0, |s|);
    assert s[..|s|] == s;
    assert s[..0] == [];
    var pick := RangeInt(0, Sum(s), draw);
    assert pick <= Sum(s);
    assert Running(s, |s| - 1) == Sum(s);
    var k := FirstReaching(s, pick, 0);
    assert k < |s|;
  }

  /**
   * With non-negative chances, a drawn value above the sum of the chances
   * before index k and at most the sum including it picks the oddment at k:
   * each oddment owns a slice of the range as wide as its chance.
   */
  lemma PickedInterval(s: seq<Oddment>, total: int, draw: nat, k: nat)
    requires NonNegative(s) && k < |s|
    requires Sum(s[..k]) < RangeInt(0, total, draw) <= Sum(s[..k + 1])
    ensures Picked(s, total, draw) == Ok(Some(s[k]))
  {
    var pick := RangeInt(0, total, draw);
    var i := FirstReaching(s, pick, 0);
    assert Running(s, k) == Sum(s[..k + 1]);
    if i < k {
      SumMonotone(s, i + 1, k);
    }
  }

  /**
   * Conversely, the index a pick selects is the one whose slice holds the
   * drawn value: at most the running sum through it, and above the sum
   * before it unless it is the first.
   */
  lemma PickedSlice(s: seq<Oddment>, total: int, draw: nat)
    ensures var pick := RangeInt(0, total, draw);
            var k := FirstReaching(s, pick, 0);
            k < |s| ==>
              Picked(s, total, draw) == Ok(Some(s[k])) &&
              pick <= Sum(s[..k + 1]) && (k > 0 ==> Sum(s[..k]) < pick)
  {
    var pick := RangeInt(0, total, draw);
    var k := FirstReaching(s, pick, 0);
    if 0 < k < |s| {
      assert Running(s, k - 1) < pick;
    }
  }

  /** A table of oddments. */
  class OddmentTable {
    var total: int
    var oddments: seq<Oddment>

    /** The cached total matches the list whenever the list is non-empty. */
    predicate Valid()
      reads this
    {
      oddments != [] ==> total == Sum(oddments)
    }

    constructor ()
      ensures total == 0 && oddments == [] && Valid()
    {
      total := 0;
      oddments := [];
    }

    /** `CalcOddment`: the sum of the chances. */
    method CalcOddment() returns (t: int)
      ensures t == Sum(oddments)
    {
      t := 0;
      var i := 0;
      while i < |oddments|
        invariant 0 <= i <= |oddments|
        invariant t == Sum(oddments[..i])
      {
        assert oddments[..i + 1][..i] == oddments[..i];
        t := t + oddments[i].chance;
        i := i + 1;
      }
      assert oddments[..i] == oddments;
    }

    /**
     * `SetOddments`: the list is cleared and, for a non-null argument,
     * refilled and its sum cached; a null argument leaves the old total.
     */
    method SetOddments(list: Option<seq<Oddment>>)
      modifies this
      ensures list.None? ==> oddments == [] && total == old(total)
      ensures list.Some? ==> oddments == list.value && total == Sum(list.value)
      ensures Valid()
    {
      oddments := [];
      if list.None? {
        return;
      }
      oddments := oddments + list.value;
      total := CalcOddment();
    }

    /** `Pick`: a scan accumulating the chances until the running sum reaches the drawn value. */
    method Pick(draw: nat) returns (r: Result<Option<Oddment>>)
      ensures r == Picked(oddments, total, draw)
      ensures Valid() && oddments != [] && NonNegative(oddments) ==> r.Ok? && r.value.Some?
    {
      if Valid() && oddments != [] && NonNegative(oddments) {
        PickedNeverFallsThrough(oddments, draw);
      }
      var pick := RangeInt(0, total, draw);
      var sum := 0;
      var i := 0;
      while i < |oddments|
        invariant 0 <= i <= |oddments|
        invariant sum == Sum(oddments[..i])
        invariant FirstReaching(oddments, pick, 0) == FirstReaching(oddments, pick, i)
      {
        assert oddments[..i + 1][..i] == oddments[..i];
        sum := sum + oddments[i].chance;
        if sum >= pick {
          return Ok(Some(oddments[i]));
        }
        i := i + 1;
      }
      var count := |oddments|;
      if count == 0 {
        return Ok(None);
      }
      return Err(IndexOutOfRange);
    }
  }
}
