/** The identifier counter used for RIDs, SIDs and message ids, in 32-bit arithmetic. */
module IntCounters {

  const MAX_INT: int := 0x7FFF_FFFF
  const MIN_INT: int := -0x8000_0000

  predicate IsInt(x: int) {
    MIN_INT <= x <= MAX_INT
  }

  /** Two's complement truncation to 32 bits: the result of every Int operation. */
  function Wrap(x: int): (r: int)
    ensures IsInt(r)
    ensures IsInt(x) ==> r == x
    ensures MAX_INT < x <= 2 * MAX_INT ==> r < 0
  {
    (x + 0x8000_0000) % 0x1_0000_0000 - 0x8000_0000
  }

  /** Truncation keeps a number modulo 2^32, which its range determines. */
  lemma WrapMeaning(x: int, r: int)
    ensures r == Wrap(x) <==> IsInt(r) && (x - r) % 0x1_0000_0000 == 0
  {}

  /** The integers from lo up to, and not including, hi. */
  function Range(lo: int, hi: int): (r: seq<int>)
    ensures |r| == if lo <= hi then hi - lo else 0
    ensures forall k :: 0 <= k < |r| ==> r[k] == lo + k
  {
    if lo <= hi then seq(hi - lo, k requires 0 <= k < hi - lo => lo + k) else []
  }

  /** The state after one single step. */
  function Next(init: int, value: int): int {
    if value == MAX_INT then init else Wrap(value + 1)
  }

  /** The state after count single steps. */
  function After(init: int, value: int, count: nat): int
    decreases count
  {
    if count == 0 then value else After(init, Next(init, value), count - 1)
  }

  /** The ids handed out by count single steps. */
  function SingleIds(init: int, value: int, count: nat): (ids: seq<int>)
    ensures |ids| == count
    decreases count
  {
    if count == 0 then [] else [value] + SingleIds(init, Next(init, value), count - 1)
  }

  /** The state after one batch step; every intermediate result is truncated as the JVM does. */
  function BatchValue(init: int, value: int, count: int): int {
    if Wrap(MAX_INT - count) >= value then
      Wrap(value + count)
    else
      Wrap(Wrap(Wrap(count - 1) - Wrap(MAX_INT - value)) + init)
  }

  /** The ids handed out by one batch step. */
  function BatchIds(init: int, value: int, count: int): seq<int> {
    var next := BatchValue(init, value, count);
    if Wrap(MAX_INT - count) >= value then
      Range(value, next)
    else
      Range(value, MAX_INT + 1) + Range(init, next)
  }

  class IntCounter {
    const init: int
    var value: int

    constructor (init: int)
      requires IsInt(init)
      ensures this.init == init && value == init
    {
      this.init := init;
      this.value := init;
    }

    method Inc() returns (result: int)
      requires IsInt(init) && IsInt(value)
      modifies this
      ensures [result] == SingleIds(init, old(value), 1) && value == After(init, old(value), 1)
      ensures IsInt(value)
    {
      result := value;
      value := if value == MAX_INT then init else Wrap(value + 1);
      assert After(init, old(value), 1) == After(init, Next(init, old(value)), 0);
      assert SingleIds(init, old(value), 1) == [old(value)] + SingleIds(init, Next(init, old(value)), 0);
    }

    /** One batch step is the same as count single steps, exactly when the guard below holds. */
    method IncMany(count: int) returns (ids: seq<int>)
      requires IsInt(init) && IsInt(value) && IsInt(count)
      modifies this
      ensures ids == BatchIds(init, old(value), count) && value == BatchValue(init, old(value), count)
      ensures 0 <= init <= old(value) && 0 <= count && count + old(value) + init <= 2 * MAX_INT + 1 ==>
                ids == SingleIds(init, old(value), count) && value == After(init, old(value), count)
    {
      BatchIsExactWithin(init, value, count);
      var start := value;
      if Wrap(MAX_INT - count) >= start {
        value := Wrap(value + count);
        ids := Range(start, value);
      } else {
        value := Wrap(Wrap(Wrap(count - 1) - Wrap(MAX_INT - start)) + init);
        ids := Range(start, MAX_INT + 1) + Range(init, value);
      }
      assert value == BatchValue(init, start, count);
    }
  }

  lemma {:induction false} StepsWithoutWrap(init: int, value: int, count: nat)
    requires 0 <= value && value + count <= MAX_INT
    ensures SingleIds(init, value, count) == Range(value, value + count)
    ensures After(init, value, count) == value + count
    decreases count
  {
    if count > 0 {
      StepsWithoutWrap(init, value + 1, count - 1);
    }
  }

  lemma {:induction false} StepsSplit(init: int, value: int, a: nat, b: nat)
    ensures SingleIds(init, value, a + b) == SingleIds(init, value, a) + SingleIds(init, After(init, value, a), b)
    ensures After(init, value, a + b) == After(init, After(init, value, a), b)
    decreases a
  {
    if a > 0 {
      StepsSplit(init, Next(init, value), a - 1, b);
    }
  }

  /** Single steps that wrap once: up to MAX_INT, then on from init. */
  lemma StepsWithOneWrap(init: int, value: int, count: nat)
    requires 0 <= init <= value <= MAX_INT < value + count
    requires count + value + init <= 2 * MAX_INT + 1
    ensures var next := value + count - (MAX_INT - init + 1);
            && SingleIds(init, value, count) == Range(value, MAX_INT + 1) + Range(init, next)
            && After(init, value, count) == next
  {
    var low := MAX_INT - value;
    var rest := count - low;
    StepsWithoutWrap(init, value, low);
    StepsSplit(init, value, low, rest);
    WrapFromMax(init, rest);
    RangesMeet(value, init, init + rest - 1);
  }

  lemma RangesMeet(value: int, init: int, next: int)
    requires value <= MAX_INT
    ensures Range(value, MAX_INT) + ([MAX_INT] + Range(init, next)) == Range(value, MAX_INT + 1) + Range(init, next)
  {
    assert Range(value, MAX_INT) + [MAX_INT] == Range(value, MAX_INT + 1);
  }

  /** From MAX_INT the first step returns MAX_INT and the others go on from init. */
  lemma WrapFromMax(init: int, count: nat)
    requires 0 <= init <= MAX_INT && 1 <= count && init + count - 1 <= MAX_INT
    ensures SingleIds(init, MAX_INT, count) == [MAX_INT] + Range(init, init + count - 1)
    ensures After(init, MAX_INT, count) == init + count - 1
  {
    StepsWithoutWrap(init, init, count - 1);
  }

  lemma {:induction false} SingleStepsStayInRange(init: int, value: int, count: nat)
    requires 0 <= init <= value <= MAX_INT
    ensures init <= After(init, value, count) <= MAX_INT
    decreases count
  {
    if count > 0 {
      SingleStepsStayInRange(init, Next(init, value), count - 1);
    }
  }

  /**
   The batch form returns the ids and the state of count single steps if and only if its last sum
   stays within 32 bits; then no intermediate result is truncated.
   */
  lemma BatchRefinesSingleSteps(init: int, value: int, count: nat)
    requires 0 <= init <= value <= MAX_INT && count <= MAX_INT
    ensures BatchIds(init, value, count) == SingleIds(init, value, count)
            && BatchValue(init, value, count) == After(init, value, count)
            <==> count + value + init <= 2 * MAX_INT + 1
    ensures count + value + init <= 2 * MAX_INT + 1 && value + count > MAX_INT ==>
              IsInt(count - 1) && IsInt(MAX_INT - value) && IsInt(count - 1 - (MAX_INT - value))
              && IsInt(count - 1 - (MAX_INT - value) + init)
  {
    if value + count <= MAX_INT {
      StepsWithoutWrap(init, value, count);
    } else if count + value + init <= 2 * MAX_INT + 1 {
      StepsWithOneWrap(init, value, count);
    } else {
      SingleStepsStayInRange(init, value, count);
    }
  }

  lemma BatchIsExactWithin(init: int, value: int, count: int)
    requires IsInt(init) && IsInt(value) && IsInt(count)
    ensures 0 <= init <= value && 0 <= count && count + value + init <= 2 * MAX_INT + 1 ==>
              && BatchIds(init, value, count) == SingleIds(init, value, count)
              && BatchValue(init, value, count) == After(init, value, count)
  {
    if 0 <= init <= value && 0 <= count {
      BatchRefinesSingleSteps(init, value, count);
    }
  }

  /** The counters the broker creates start from 0 or 1, where every non-negative batch is exact. */
  lemma BrokerCountersAreExact(init: int, value: int, count: nat)
    requires 0 <= init <= 1 && init <= value <= MAX_INT && count <= MAX_INT
    ensures BatchIds(init, value, count) == SingleIds(init, value, count)
    ensures BatchValue(init, value, count) == After(init, value, count)
  {
    BatchRefinesSingleSteps(init, value, count);
  }

  /** The k-th id is the state after k steps. */
  lemma {:induction false} IdAt(init: int, value: int, count: nat, k: nat)
    requires k < count
    ensures SingleIds(init, value, count)[k] == After(init, value, k)
    decreases count
  {
    if count > 1 {
      IdAt(init, Next(init, value), count - 1, if k == 0 then 0 else k - 1);
    }
  }

  /** Within one round the counter visits each id of [init, MAX_INT] once; a full round brings it back. */
  lemma OneRound(init: int, value: int, k: nat)
    requires 0 <= init <= value <= MAX_INT && k <= MAX_INT - init + 1
    ensures After(init, value, k) == if value + k <= MAX_INT then value + k else value + k - (MAX_INT - init + 1)
  {
    if value + k <= MAX_INT {
      StepsWithoutWrap(init, value, k);
    } else {
      StepsWithOneWrap(init, value, k);
    }
  }

  /** The ids of a batch lie in [init, MAX_INT]; they are distinct if and only if they are at most one round. */
  lemma IdsDistinct(init: int, value: int, count: nat)
    requires 0 <= init <= value <= MAX_INT
    ensures forall id <- SingleIds(init, value, count) :: init <= id <= MAX_INT
    ensures Distinct(SingleIds(init, value, count)) <==> count <= MAX_INT - init + 1
  {
    var ids, round := SingleIds(init, value, count), MAX_INT - init + 1;
    forall k | 0 <= k < count
      ensures ids[k] == After(init, value, k) && init <= ids[k] <= MAX_INT
    {
      IdAt(init, value, count, k);
      SingleStepsStayInRange(init, value, k);
    }
    if count <= round {
      forall i, j | 0 <= i < j < count ensures ids[i] != ids[j] {
        OneRound(init, value, i);
        OneRound(init, value, j);
      }
    } else {
      OneRound(init, value, round);
      assert ids[0] == ids[round];
    }
  }

  predicate Distinct(ids: seq<int>) {
    forall i, j :: 0 <= i < j < |ids| ==> ids[i] != ids[j]
  }
}
