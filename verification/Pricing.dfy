/** The price of a model call in exact integers (src/budget/pricing-service.ts). */
module Pricing {
  import opened Wrappers
  import opened BudgetVectors

  const MILLION: nat := 1000000

  /** Micros per request and micros per million tokens. */
  datatype Price = Price(fixed: Amount, input: Amount, output: Amount, cacheRead: Amount, cacheWrite: Amount)

  datatype Usage = Usage(input: int, output: int, cacheRead: Option<int>, cacheWrite: Option<int>)

  datatype PriceError = UnsafeTokens(what: string) | MoneyOverflow

  predicate IsSafe(n: int) {
    0 <= n <= MAX_SAFE_INTEGER
  }

  function OrZero(n: Option<int>): int {
    if n.Some? then n.value else 0
  }

  // ----- pricedTokens -----

  /** The cost of some tokens, rounded up to whole micros. */
  function Cost(tokens: nat, rate: nat): nat {
    (tokens * rate + (MILLION - 1)) / MILLION
  }

  function PricedTokens(tokens: int, rate: Amount, what: string): Result<Amount, PriceError> {
    if !IsSafe(tokens) then Failure(UnsafeTokens(what))
    else if Cost(tokens, rate) > MAX_SAFE_INTEGER then Failure(MoneyOverflow)
    else Success(Cost(tokens, rate))
  }

  /** The cost is the exact price rounded up: at least it, and less than one micro more. */
  lemma CostIsCeiling(tokens: nat, rate: nat)
    ensures tokens * rate <= Cost(tokens, rate) * 1_000_000 < tokens * rate + 1_000_000
  {
  }

  lemma CostMonotone(a: nat, b: nat, rate: nat)
    requires a <= b
    ensures Cost(a, rate) <= Cost(b, rate)
  {
  }

  function SumOf(ns: seq<nat>): nat {
    if |ns| == 0 then 0 else SumOf(ns[..|ns| - 1]) + ns[|ns| - 1]
  }

  function CostsOf(ns: seq<nat>, rate: nat): nat {
    if |ns| == 0 then 0 else CostsOf(ns[..|ns| - 1], rate) + Cost(ns[|ns| - 1], rate)
  }

  /** Two calls instead of one never cost less, and at most one micro more. */
  lemma CostSplits(a: nat, b: nat, rate: nat)
    ensures Cost(a + b, rate) <= Cost(a, rate) + Cost(b, rate) <= Cost(a + b, rate) + 1
  {
  }

  /** Splitting usage into k calls costs at most k - 1 extra micros for each rate, and never saves any. */
  lemma {:induction false} SplitCosts(ns: seq<nat>, rate: nat)
    ensures Cost(SumOf(ns), rate) <= CostsOf(ns, rate)
    ensures |ns| > 0 ==> CostsOf(ns, rate) <= Cost(SumOf(ns), rate) + |ns| - 1
    decreases |ns|
  {
    if |ns| > 0 {
      var init, last := ns[..|ns| - 1], ns[|ns| - 1];
      SplitCosts(init, rate);
      CostSplits(SumOf(init), last, rate);
      if |init| == 0 {
        assert SumOf(init) == 0 && CostsOf(init, rate) == 0;
      }
    } else {
      assert Cost(0, rate) == 0;
    }
  }

  // ----- estimate -----

  /** The exact total, without the checks. */
  function Total(p: Price, u: Usage): nat
    requires Countable(u)
  {
    p.fixed + Cost(u.input, p.input) + Cost(u.output, p.output)
    + Cost(OrZero(u.cacheRead), p.cacheRead) + Cost(OrZero(u.cacheWrite), p.cacheWrite)
  }

  predicate Countable(u: Usage) {
    IsSafe(u.input) && IsSafe(u.output) && IsSafe(OrZero(u.cacheRead)) && IsSafe(OrZero(u.cacheWrite))
  }

  /** One step of the sum, checked. */
  function AddMoney(total: Result<Amount, PriceError>, value: Amount): Result<Amount, PriceError> {
    match total
    case Failure(e) => Failure(e)
    case Success(t) => if t + value <= MAX_SAFE_INTEGER then Success(t + value) else Failure(MoneyOverflow)
  }

  /** The four priced parts first, each of which may fail, then the sum. */
  function Money(p: Price, u: Usage): Result<Amount, PriceError> {
    var input := PricedTokens(u.input, p.input, "inputTokens");
    var output := PricedTokens(u.output, p.output, "outputTokens");
    var cacheRead := PricedTokens(OrZero(u.cacheRead), p.cacheRead, "cacheReadTokens");
    var cacheWrite := PricedTokens(OrZero(u.cacheWrite), p.cacheWrite, "cacheWriteTokens");
    if input.Failure? then input
    else if output.Failure? then output
    else if cacheRead.Failure? then cacheRead
    else if cacheWrite.Failure? then cacheWrite
    else AddMoney(AddMoney(AddMoney(AddMoney(Success(p.fixed), input.value), output.value), cacheRead.value), cacheWrite.value)
  }

  /** The tokens and the one call are kept beside the money, zeros included. */
  function EstimateUsage(p: Price, u: Usage): Result<Vector, PriceError> {
    match Money(p, u)
    case Failure(e) => Failure(e)
    case Success(money) =>
      Success(map[MoneyMicros := money, InputTokens := u.input, OutputTokens := u.output, ModelCalls := 1])
  }

  /** An estimate succeeds exactly when every count is a safe integer and so is the exact total. */
  lemma EstimateSucceedsExactly(p: Price, u: Usage)
    ensures EstimateUsage(p, u).Success? <==> Countable(u) && Total(p, u) <= MAX_SAFE_INTEGER
    ensures EstimateUsage(p, u).Success? ==> EstimateUsage(p, u).value[MoneyMicros] == Total(p, u)
    ensures EstimateUsage(p, u) == Failure(MoneyOverflow) ==> !Countable(u) || Total(p, u) > MAX_SAFE_INTEGER
  {
  }

  /** Usage at or below a bound in every count; cached tokens that are not reported count as none. */
  predicate UsageWithin(u: Usage, bound: Usage) {
    && 0 <= u.input <= bound.input && 0 <= u.output <= bound.output
    && 0 <= OrZero(u.cacheRead) <= OrZero(bound.cacheRead) && 0 <= OrZero(u.cacheWrite) <= OrZero(bound.cacheWrite)
  }

  /** The price is the fixed part and each count at its own rate, beside the tokens and one call. */
  lemma EstimateMeans(p: Price, u: Usage)
    requires EstimateUsage(p, u).Success?
    ensures var read := if u.cacheRead.Some? then u.cacheRead.value else 0;
            var write := if u.cacheWrite.Some? then u.cacheWrite.value else 0;
            && u.input >= 0 && u.output >= 0 && read >= 0 && write >= 0
            && EstimateUsage(p, u).value == map[
                 MoneyMicros := p.fixed + Cost(u.input, p.input) + Cost(u.output, p.output)
                                + Cost(read, p.cacheRead) + Cost(write, p.cacheWrite),
                 InputTokens := u.input, OutputTokens := u.output, ModelCalls := 1]
  {
    EstimateSucceedsExactly(p, u);
  }

  /** Which count is refused: the first that is not a safe integer, if no cost before it is unsafe. */
  lemma EstimateRefuses(p: Price, u: Usage)
    ensures var read := if u.cacheRead.Some? then u.cacheRead.value else 0;
            var write := if u.cacheWrite.Some? then u.cacheWrite.value else 0;
            var one := 0 <= u.input <= 9007199254740991 && Cost(u.input, p.input) <= 9007199254740991;
            var two := one && 0 <= u.output <= 9007199254740991 && Cost(u.output, p.output) <= 9007199254740991;
            var three := two && 0 <= read <= 9007199254740991 && Cost(read, p.cacheRead) <= 9007199254740991;
            && (EstimateUsage(p, u) == Failure(UnsafeTokens("inputTokens")) <==> !(0 <= u.input <= 9007199254740991))
            && (EstimateUsage(p, u) == Failure(UnsafeTokens("outputTokens")) <==> one && !(0 <= u.output <= 9007199254740991))
            && (EstimateUsage(p, u) == Failure(UnsafeTokens("cacheReadTokens")) <==> two && !(0 <= read <= 9007199254740991))
            && (EstimateUsage(p, u) == Failure(UnsafeTokens("cacheWriteTokens")) <==> three && !(0 <= write <= 9007199254740991))
  {
    RefusedNames(u);
  }

  /** The names of the counts differ. */
  lemma RefusedNames(u: Usage)
    ensures "inputTokens" != "outputTokens" && "inputTokens" != "cacheReadTokens" && "inputTokens" != "cacheWriteTokens"
    ensures "outputTokens" != "cacheReadTokens" && "outputTokens" != "cacheWriteTokens" && "cacheReadTokens" != "cacheWriteTokens"
  {
    assert "inputTokens"[0] != "outputTokens"[0] && "inputTokens"[0] != "cacheReadTokens"[0] && "outputTokens"[0] != "cacheReadTokens"[0];
    assert |"cacheReadTokens"| != |"cacheWriteTokens"| && "inputTokens"[0] != "cacheWriteTokens"[0] && "outputTokens"[0] != "cacheWriteTokens"[0];
  }

  lemma TotalMonotone(p: Price, u: Usage, bound: Usage)
    requires UsageWithin(u, bound) && Countable(u) && Countable(bound)
    ensures Total(p, u) <= Total(p, bound)
  {
    CostMonotone(u.input, bound.input, p.input);
    CostMonotone(u.output, bound.output, p.output);
    CostMonotone(OrZero(u.cacheRead), OrZero(bound.cacheRead), p.cacheRead);
    CostMonotone(OrZero(u.cacheWrite), OrZero(bound.cacheWrite), p.cacheWrite);
  }

  lemma Priced(p: Price, u: Usage)
    requires Countable(u) && Total(p, u) <= MAX_SAFE_INTEGER
    ensures EstimateUsage(p, u)
         == Success(map[MoneyMicros := Total(p, u), InputTokens := u.input, OutputTokens := u.output, ModelCalls := 1])
  {
    EstimateSucceedsExactly(p, u);
  }

  /** Less usage is priced whenever more is, and never higher in any dimension. */
  lemma EstimateMonotone(p: Price, u: Usage, bound: Usage)
    requires UsageWithin(u, bound) && EstimateUsage(p, bound).Success?
    ensures EstimateUsage(p, u).Success? && Fits(EstimateUsage(p, u).value, EstimateUsage(p, bound).value)
  {
    EstimateSucceedsExactly(p, bound);
    TotalMonotone(p, u, bound);
    Priced(p, bound);
    Priced(p, u);
  }

  /** The reduce over the priced parts. */
  method SumMoney(values: seq<Amount>) returns (res: Result<Amount, PriceError>)
    ensures res.Success? <==> SumOf(values) <= MAX_SAFE_INTEGER
    ensures res.Success? ==> res.value == SumOf(values)
  {
    var total: Amount := 0;
    for i := 0 to |values|
      invariant total == SumOf(values[..i])
    {
      assert values[..i + 1][..i] == values[..i];
      if total + values[i] > MAX_SAFE_INTEGER {
        PartAtMostSum(values, i + 1);
        return Failure(MoneyOverflow);
      }
      total := total + values[i];
    }
    assert values[..|values|] == values;
    res := Success(total);
  }

  lemma {:induction false} PartAtMostSum(values: seq<nat>, n: nat)
    requires n <= |values|
    ensures SumOf(values[..n]) <= SumOf(values)
    decreases |values| - n
  {
    if n < |values| {
      assert values[..n + 1][..n] == values[..n];
      PartAtMostSum(values, n + 1);
    } else {
      assert values[..n] == values;
    }
  }

  /** estimate, for a price that was found in its snapshot. */
  method PriceUsage(p: Price, u: Usage) returns (res: Result<Vector, PriceError>)
    ensures res == EstimateUsage(p, u)
  {
    var input := PricedTokens(u.input, p.input, "inputTokens");
    if input.Failure? {
      return Failure(input.error);
    }
    var output := PricedTokens(u.output, p.output, "outputTokens");
    if output.Failure? {
      return Failure(output.error);
    }
    var cacheRead := PricedTokens(OrZero(u.cacheRead), p.cacheRead, "cacheReadTokens");
    if cacheRead.Failure? {
      return Failure(cacheRead.error);
    }
    var cacheWrite := PricedTokens(OrZero(u.cacheWrite), p.cacheWrite, "cacheWriteTokens");
    if cacheWrite.Failure? {
      return Failure(cacheWrite.error);
    }
    var parts := [p.fixed, input.value, output.value, cacheRead.value, cacheWrite.value];
    FiveParts(parts);
    var money := SumMoney(parts);
    EstimateSucceedsExactly(p, u);
    if money.Failure? {
      return Failure(MoneyOverflow);
    }
    res := Success(map[MoneyMicros := money.value, InputTokens := u.input, OutputTokens := u.output, ModelCalls := 1]);
  }

  lemma SumOfPrefix(ns: seq<nat>, i: nat)
    requires i < |ns|
    ensures SumOf(ns[..i + 1]) == SumOf(ns[..i]) + ns[i]
  {
    assert ns[..i + 1][..i] == ns[..i];
  }

  lemma FiveParts(ns: seq<nat>)
    requires |ns| == 5
    ensures SumOf(ns) == ns[0] + ns[1] + ns[2] + ns[3] + ns[4]
  {
    assert ns[..5] == ns && ns[..0] == [];
    SumOfPrefix(ns, 0);
    SumOfPrefix(ns, 1);
    SumOfPrefix(ns, 2);
    SumOfPrefix(ns, 3);
    SumOfPrefix(ns, 4);
  }
}
