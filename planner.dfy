/**
 * The trade plan `analyze` attaches to a signal: stop-loss and take-profit
 * prices around the latest close, and a position sized from the capital
 * and split into three tranches of 40/30/30 percent.
 */
module Planner {
  import opened Wrappers

  // ---------------------------------------------------------------------
  // Rounding
  // ---------------------------------------------------------------------

  /** Round to the nearest integer, ties to the even neighbour. */
  function RoundHalfEven(x: real): (n: int)
    ensures x - 0.5 <= n as real <= x + 0.5
    ensures (n as real == x - 0.5 || n as real == x + 0.5) ==> n % 2 == 0
  {
    var f := x.Floor;
    var frac := x - f as real;
    if frac < 0.5 then f
    else if frac > 0.5 then f + 1
    else if f % 2 == 0 then f
    else f + 1
  }

  /** Rounding never reverses the order of two values. */
  lemma RoundMonotone(x: real, y: real)
    requires x <= y
    ensures RoundHalfEven(x) <= RoundHalfEven(y)
  {
    // Two roundings at least one apart would need arguments at least one
    // apart, given each lies within one half of its argument.
  }

  /** A whole number rounds to itself. */
  lemma RoundWhole(k: int)
    ensures RoundHalfEven(k as real) == k
  {
  }

  // ---------------------------------------------------------------------
  // Stop-loss and take-profit levels
  // ---------------------------------------------------------------------

  /** Stop-loss at -3%, first target at +5%, second target at +7%. */
  datatype Levels = Levels(stopLoss: int, takeProfit1: int, takeProfit2: int)

  const StopFactor: real := 0.97
  const Target1Factor: real := 1.05
  const Target2Factor: real := 1.07

  /** The three prices, each the close times its factor, rounded. */
  function LevelsOf(close: real): (l: Levels)
    ensures close * StopFactor - 0.5 <= l.stopLoss as real <= close * StopFactor + 0.5
    ensures close * Target1Factor - 0.5 <= l.takeProfit1 as real <= close * Target1Factor + 0.5
    ensures close * Target2Factor - 0.5 <= l.takeProfit2 as real <= close * Target2Factor + 0.5
  {
    Levels(
      RoundHalfEven(close * StopFactor),
      RoundHalfEven(close * Target1Factor),
      RoundHalfEven(close * Target2Factor))
  }

  /** For a non-negative close the stop sits below both targets. */
  lemma LevelsOrdered(close: real)
    requires close >= 0.0
    ensures LevelsOf(close).stopLoss <= LevelsOf(close).takeProfit1 <= LevelsOf(close).takeProfit2
  {
    RoundMonotone(close * StopFactor, close * Target1Factor);
    RoundMonotone(close * Target1Factor, close * Target2Factor);
  }

  /** A whole-won close lies between the stop and the first target. */
  lemma LevelsBracketClose(close: int)
    requires close >= 0
    ensures LevelsOf(close as real).stopLoss <= close <= LevelsOf(close as real).takeProfit1
  {
    var c := close as real;
    RoundMonotone(c * StopFactor, c);
    RoundMonotone(c, c * Target1Factor);
    RoundWhole(close);
  }

  // ---------------------------------------------------------------------
  // Position sizing
  // ---------------------------------------------------------------------

  /** The budget of one position: 10% of the capital. */
  function Budget(capital: real): (b: real)
    ensures 10.0 * b == capital
  {
    capital * 0.1
  }

  /** A position of `shares` split into three tranches, with their costs. */
  datatype Plan = Plan(
    budget: real,
    shares: int,
    pos1: int,
    pos2: int,
    pos3: int,
    amount1: real,
    amount2: real,
    amount3: real)

  /**
   * The whole part of `m` tenths, truncated toward zero, as converting a
   * product like `n * 0.4` to an integer does.
   */
  function WholeOfTenths(m: int): (t: int)
    ensures m >= 0 ==> 0 <= 10 * t <= m < 10 * t + 10
    ensures m < 0 ==> m <= 10 * t < m + 10 && t <= 0
  {
    if m >= 0 then m / 10 else -((-m) / 10)
  }

  /**
   * `shares` split into 40% and 30% (truncated) with the rest in the third
   * tranche, each tranche costed at `price`.
   */
  function Split(budget: real, shares: int, price: real): (p: Plan)
    ensures p.budget == budget && p.shares == shares
    ensures p.pos1 + p.pos2 + p.pos3 == shares
    ensures shares >= 0 ==> 10 * p.pos1 <= 4 * shares < 10 * p.pos1 + 10
    ensures shares >= 0 ==> 10 * p.pos2 <= 3 * shares < 10 * p.pos2 + 10
    ensures shares < 0 ==> 4 * shares <= 10 * p.pos1 < 4 * shares + 10
    ensures shares < 0 ==> 3 * shares <= 10 * p.pos2 < 3 * shares + 10
    ensures shares >= 0 ==> 0 <= p.pos2 <= p.pos3 && p.pos2 <= p.pos1
    ensures p.amount1 == Cost(p.pos1, price) && p.amount2 == Cost(p.pos2, price)
            && p.amount3 == Cost(p.pos3, price)
    ensures p.amount1 + p.amount2 + p.amount3 == Cost(shares, price)
  {
    var pos1 := WholeOfTenths(4 * shares);
    var pos2 := WholeOfTenths(3 * shares);
    var pos3 := shares - pos1 - pos2;
    CostsAdd(pos1, pos2, pos3, price);
    Plan(budget, shares, pos1, pos2, pos3, Cost(pos1, price), Cost(pos2, price), Cost(pos3, price))
  }

  /** What `n` shares cost at `price`. */
  function Cost(n: int, price: real): real
  {
    n as real * price
  }

  lemma CostsAdd(a: int, b: int, c: int, price: real)
    ensures Cost(a, price) + Cost(b, price) + Cost(c, price) == Cost(a + b + c, price)
  {
  }

  /**
   * The largest whole number of shares `budget` buys at `close`, split into
   * tranches; a non-negative budget buys a non-negative number of shares.
   */
  function Buy(budget: real, close: real): (p: Plan)
    requires close > 0.0
    ensures p == Split(budget, p.shares, close)
    ensures Cost(p.shares, close) <= budget < Cost(p.shares, close) + close
    ensures budget >= 0.0 ==> p.shares >= 0
  {
    FloorQuotientFits(budget, close);
    Split(budget, (budget / close).Floor, close)
  }

  /**
   * The plan for a close and an optional capital: none without capital or
   * without a positive close; otherwise the budget is 10% of capital, the
   * share count is the most the budget buys, and for a non-negative capital
   * the tranches are 40% and 30% of it (truncated) with the rest in the
   * third, each costing its shares times the close.
   */
  function PlanOf(close: real, capital: Option<real>): (p: Option<Plan>)
    ensures p.None? <==> capital.None? || close <= 0.0
    ensures p.Some? ==> p.value.budget == Budget(capital.value)
    ensures p.Some? ==> p.value == Split(p.value.budget, p.value.shares, close)
    ensures p.Some? ==> p.value.pos1 + p.value.pos2 + p.value.pos3 == p.value.shares
    ensures p.Some? ==> p.value.amount1 == Cost(p.value.pos1, close) &&
                        p.value.amount2 == Cost(p.value.pos2, close) &&
                        p.value.amount3 == Cost(p.value.pos3, close)
    ensures p.Some? ==> p.value.amount1 + p.value.amount2 + p.value.amount3
                        == Cost(p.value.shares, close)
    ensures p.Some? ==> Cost(p.value.shares, close) <= p.value.budget
                        < Cost(p.value.shares, close) + close
    ensures p.Some? && capital.value >= 0.0 ==>
              10 * p.value.pos1 <= 4 * p.value.shares < 10 * p.value.pos1 + 10 &&
              10 * p.value.pos2 <= 3 * p.value.shares < 10 * p.value.pos2 + 10
    ensures p.Some? && capital.value >= 0.0 ==>
              0 <= p.value.pos2 <= p.value.pos3 && p.value.pos2 <= p.value.pos1
  {
    if capital.None? || close <= 0.0 then None
    else Some(Buy(Budget(capital.value), close))
  }

  /**
   * The floor of a quotient, times the divisor, is at most the dividend, and
   * one more is above it; a non-negative dividend has a non-negative floor.
   */
  lemma FloorQuotientFits(x: real, y: real)
    requires y > 0.0
    ensures (x / y).Floor as real * y <= x < (x / y).Floor as real * y + y
    ensures x >= 0.0 ==> (x / y).Floor >= 0
  {
    var q := x / y;
    var n := q.Floor as real;
    assert n <= q < n + 1.0;
    QuotientTimesDivisor(x, y);
    MultiplyBelow(n, q, y);
    MultiplyBelowStrict(q, n + 1.0, y);
    assert x < n * y + y;
  }

  lemma QuotientTimesDivisor(x: real, y: real)
    requires y > 0.0
    ensures (x / y) * y == x
  {
  }

  lemma MultiplyBelow(a: real, b: real, c: real)
    requires a <= b && c > 0.0
    ensures a * c <= b * c
  {
  }

  lemma MultiplyBelowStrict(a: real, b: real, c: real)
    requires a < b && c > 0.0
    ensures a * c < b * c
  {
  }

  /**
   * There is a plan exactly when there is a capital and the close is
   * positive; its cost, the amounts of the three tranches together, never
   * exceeds 10% of the capital.
   */
  lemma SpendWithinTenthOfCapital(close: real, capital: Option<real>)
    ensures PlanOf(close, capital).Some? <==> capital.Some? && close > 0.0
    ensures PlanOf(close, capital).Some? ==>
              var p := PlanOf(close, capital).value;
              10.0 * (p.amount1 + p.amount2 + p.amount3) <= capital.value
  {
  }

  /** No capital: every budget, share and amount field stays empty. */
  lemma NoCapitalNoPlan(close: real)
    ensures PlanOf(close, None).None?
  {
  }

  /** 10,000,000 won at a close of 50,000: 20 shares as 8, 6 and 6. */
  lemma PlanExample()
    ensures var p := PlanOf(50000.0, Some(10000000.0)).value;
      p.budget == 1000000.0 && p.shares == 20 && p.pos1 == 8 && p.pos2 == 6 && p.pos3 == 6
  {
    var p := PlanOf(50000.0, Some(10000000.0)).value;
    assert 1000000.0 / 50000.0 == 20.0;
  }
}
