/**
 * Dice primitives of the combat engine (dice.helper.ts).
 *
 * The random source is not modelled: every die is an input. A *supply* is
 * the sequence of d6 values the random source would produce next; an
 * operation that throws `n` dice consumes the first `Count(n)` of them.
 */
module Dice {

  /** A value a six-sided die can show. */
  predicate IsD6(d: int) {
    1 <= d <= 6
  }

  predicate AllD6(s: seq<int>) {
    forall i :: 0 <= i < |s| ==> IsD6(s[i])
  }

  /** Number of iterations of `for (let i = 0; i < count; i++)`. */
  function Count(count: int): nat {
    if count > 0 then count else 0
  }

  /** Left fold `reduce((sum, roll) => sum + roll, 0)`. */
  function Sum(s: seq<int>): int {
    if |s| == 0 then 0 else Sum(s[..|s| - 1]) + s[|s| - 1]
  }

  /** `rollD6`: one die. */
  function RollD6(d: int): (r: int)
    requires IsD6(d)
    ensures 1 <= r <= 6
  {
    d
  }

  /** `rollMultipleD6(count)`: the next `count` dice, none when `count <= 0`. */
  method RollMultipleD6(count: int, supply: seq<int>) returns (results: seq<int>)
    requires AllD6(supply)
    requires Count(count) <= |supply|
    ensures |results| == Count(count)
    ensures AllD6(results)
    ensures results == Draw(count, supply)
  {
    results := [];
    var i := 0;
    while i < count
      invariant 0 <= i <= Count(count)
      invariant results == supply[..i]
    {
      results := results + [RollD6(supply[i])];
      i := i + 1;
    }
  }

  /** The dice `rollMultipleD6(count)` returns, as a value. */
  function Draw(count: int, supply: seq<int>): (r: seq<int>)
    requires Count(count) <= |supply|
    ensures |r| == Count(count)
    ensures forall i :: 0 <= i < |r| ==> r[i] == supply[i]
  {
    supply[..Count(count)]
  }

  /** Every die shows between 1 and 6, so n dice sum to between n and 6n. */
  lemma {:induction false} SumBounds(s: seq<int>)
    requires AllD6(s)
    ensures |s| <= Sum(s) <= 6 * |s|
  {
    if |s| > 0 {
      SumBounds(s[..|s| - 1]);
    }
  }

  /** Summing a sequence extended by one die adds that die. */
  lemma SumSnoc(s: seq<int>, d: int)
    ensures Sum(s + [d]) == Sum(s) + d
  {
    assert (s + [d])[..|s|] == s;
  }

  /** Three dice sum to the plain sum of their faces. */
  lemma SumOfThree(s: seq<int>)
    requires |s| == 3
    ensures Sum(s) == s[0] + s[1] + s[2]
  {
    assert s[..2][..1] == s[..1] && s[..1][..0] == [];
    assert Sum(s[..1]) == s[0];
    assert Sum(s[..2]) == s[0] + s[1];
  }

  /** `rollD6Sum(count)`: throws `count` dice and folds them into their total. */
  method RollD6Sum(count: int, supply: seq<int>) returns (total: int)
    requires AllD6(supply)
    requires Count(count) <= |supply|
    ensures total == D6Sum(count, supply)
    ensures Count(count) <= total <= 6 * Count(count)
    ensures count <= 0 ==> total == 0
  {
    var rolls := RollMultipleD6(count, supply);
    total := 0;
    var i := 0;
    while i < |rolls|
      invariant 0 <= i <= |rolls|
      invariant total == Sum(rolls[..i])
    {
      assert rolls[..i + 1] == rolls[..i] + [rolls[i]];
      SumSnoc(rolls[..i], rolls[i]);
      total := total + rolls[i];
      i := i + 1;
    }
    assert rolls[..i] == rolls;
    SumBounds(rolls);
  }

  /** Value form of `rollD6Sum(count)`. */
  function D6Sum(count: int, supply: seq<int>): (r: int)
    requires AllD6(supply)
    requires Count(count) <= |supply|
    ensures Count(count) <= r <= 6 * Count(count)
  {
    SumBounds(Draw(count, supply));
    Sum(Draw(count, supply))
  }

  /** `rollD6WithModifier(modifier)`: one die plus a flat modifier. */
  function RollD6WithModifier(d: int, modifier: int := 0): (r: int)
    requires IsD6(d)
    ensures 1 + modifier <= r <= 6 + modifier
    ensures r == d + modifier
  {
    RollD6(d) + modifier
  }
}
