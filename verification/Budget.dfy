/**
 Usage accounting of an agent run: `internal/agents/budget.go`, `pricing.go` and `account` of
 `internal/agentrun/loop.go`. Counters are 64-bit and saturate; prices are rounded up.
 */
module Budget {
  import opened Wrappers

  const MAX: int := 0x7fff_ffff_ffff_ffff
  const MILLION: int := 1_000_000

  type Int64 = x: int | -MAX - 1 <= x <= MAX

  /** Micro-units of currency per million tokens. */
  datatype Price = Price(input: Int64, output: Int64)

  datatype Usage = Usage(total: Int64, input: Int64, output: Int64)

  // ----- prices -----

  predicate ValidPrice(p: Price) { p.input >= 0 && p.output >= 0 }

  predicate Priceable(u: Usage) { u.input >= 0 && u.output >= 0 }

  /** The exact price in millionths of a micro-unit. */
  function Exact(p: Price, u: Usage): int { u.input * p.input + u.output * p.output }

  function Saturate(x: int): (r: Int64)
    requires x >= 0
    ensures r == if x > MAX then MAX else x
  {
    if x > MAX then MAX else x
  }

  /** `CostMicrosChecked`: the price rounded up, and whether it does not fit. */
  function CostMicros(p: Price, u: Usage): (Int64, bool) {
    if !Priceable(u) || !ValidPrice(p) then (MAX, true)
    else
      var exact := Exact(p, u);
      if exact <= 0 then (0, false)
      else
        var cost := (exact + MILLION - 1) / MILLION;
        if cost > MAX then (MAX, true) else (cost, false)
  }

  lemma ExactIsNat(p: Price, u: Usage)
    requires ValidPrice(p) && Priceable(u)
    ensures Exact(p, u) >= 0
  {
    MulIsNat(u.input, p.input);
    MulIsNat(u.output, p.output);
  }

  lemma MulIsNat(a: int, b: int)
    requires a >= 0 && b >= 0
    ensures a * b >= 0
  {
  }

  lemma RoundedUp(x: int, r: int)
    requires r == (x + MILLION - 1) / MILLION
    ensures x <= r * MILLION < x + MILLION
  {
  }

  /**
   One response costs at least its input at the input rate and its output at the output rate, and less
   than one micro-unit more; what cannot be priced, or does not fit, is flagged at the largest value.
   */
  lemma CostRoundsUp(p: Price, u: Usage)
    ensures var (cost, overflow) := CostMicros(p, u);
            if u.input < 0 || u.output < 0 || p.input < 0 || p.output < 0 then cost == MAX && overflow
            else
              var price := u.input * p.input + u.output * p.output;
              && cost >= 0
              && (overflow <==> price > 0x7fff_ffff_ffff_ffff * 1_000_000)
              && (overflow ==> cost == MAX)
              && (!overflow ==> price <= cost * 1_000_000 < price + 1_000_000)
  {
    if ValidPrice(p) && Priceable(u) { PricedRoundsUp(p, u); }
  }

  lemma PricedRoundsUp(p: Price, u: Usage)
    requires ValidPrice(p) && Priceable(u)
    ensures var (cost, overflow) := CostMicros(p, u);
            && cost >= 0
            && (overflow <==> Exact(p, u) > MAX * MILLION)
            && (overflow ==> cost == MAX)
            && (!overflow ==> Exact(p, u) <= cost * MILLION < Exact(p, u) + MILLION)
  {
    var exact := Exact(p, u);
    ExactIsNat(p, u);
    RoundedUp(exact, (exact + MILLION - 1) / MILLION);
  }

  // ----- one thread's accounting -----

  datatype Meter = Meter(tokens: Int64, cost: Int64, overflow: bool)

  const ZERO: Meter := Meter(0, 0, false)

  predicate Sound(m: Meter) { m.tokens >= 0 && m.cost >= 0 }

  /** A negative delta is refused, a sum that does not fit saturates; both are flagged. */
  function Added(value: Int64, n: Int64): (r: (Int64, bool))
    requires value >= 0
    ensures r.0 >= value
    ensures n >= 0 ==> r == (if value + n > MAX then MAX else value + n, value + n > MAX)
    ensures n < 0 ==> r == (value, true)
  {
    if n < 0 then (value, true) else if n > MAX - value then (MAX, true) else (value + n, false)
  }

  /** The tokens one response is charged: its total, or its parts if they are more. */
  function Charged(u: Usage): (r: int)
    ensures r >= 0 && r >= u.total && (u.input >= 0 && u.output >= 0 ==> r >= u.input + u.output)
    ensures r == 0 || r == u.total || (u.input >= 0 && u.output >= 0 && r == u.input + u.output)
  {
    var tokens := if Priceable(u) && u.input + u.output > u.total then u.input + u.output else u.total;
    if tokens < 0 then 0 else tokens
  }

  function Account(m: Meter, price: Option<Price>, u: Usage): (r: Meter)
    requires Sound(m)
    ensures Sound(r)
  {
    var tokens := Added(m.tokens, Saturate(Charged(u)));
    var m1 := m.(tokens := tokens.0, overflow := m.overflow || tokens.1 || Charged(u) > MAX);
    if price.None? || !Priceable(u) then m1
    else
      var (cost, wide) := CostMicros(price.value, u);
      var costs := Added(m1.cost, if cost < 0 then 0 else cost);
      m1.(cost := costs.0, overflow := m1.overflow || wide || costs.1)
  }

  class Counter {
    var tokensUsed: Int64
    var costUsed: Int64
    var overflow: bool

    constructor ()
      ensures View() == ZERO
    {
      tokensUsed, costUsed, overflow := 0, 0, false;
    }

    function View(): Meter
      reads this
    {
      Meter(tokensUsed, costUsed, overflow)
    }

    method MarkOverflow()
      modifies `overflow
      ensures overflow
    {
      overflow := true;
    }

    method AddTokens(n: Int64)
      requires tokensUsed >= 0
      modifies `tokensUsed, `overflow
      ensures tokensUsed == Added(old(tokensUsed), n).0 && overflow == (old(overflow) || Added(old(tokensUsed), n).1)
    {
      if n < 0 {
        overflow := true;
        return;
      }
      if n > MAX - tokensUsed {
        tokensUsed := MAX;
        overflow := true;
      } else {
        tokensUsed := tokensUsed + n;
      }
    }

    method AddCostMicros(n: Int64)
      requires costUsed >= 0
      modifies `costUsed, `overflow
      ensures costUsed == Added(old(costUsed), n).0 && overflow == (old(overflow) || Added(old(costUsed), n).1)
    {
      if n < 0 {
        overflow := true;
        return;
      }
      if n > MAX - costUsed {
        costUsed := MAX;
        overflow := true;
      } else {
        costUsed := costUsed + n;
      }
    }

    method AccountUsage(price: Option<Price>, u: Usage)
      requires Sound(View())
      modifies this
      ensures View() == Account(old(View()), price, u)
    {
      var tokens: Int64 := u.total;
      if u.input >= 0 && u.output >= 0 {
        var parts: Int64 := MAX;
        if u.input > MAX - u.output { MarkOverflow(); } else { parts := u.input + u.output; }
        if parts > tokens { tokens := parts; }
      }
      if tokens < 0 { tokens := 0; }
      AddTokens(tokens);
      if price.Some? && u.input >= 0 && u.output >= 0 {
        var (cost, wide) := CostMicros(price.value, u);
        if wide { MarkOverflow(); }
        AddCostMicros(cost);
      }
    }
  }

  function AccountAll(m: Meter, price: Option<Price>, us: seq<Usage>): (r: Meter)
    requires Sound(m)
    ensures Sound(r)
  {
    if us == [] then m else Account(AccountAll(m, price, us[..|us| - 1]), price, us[|us| - 1])
  }

  // ----- what the meter means -----

  function TokenSum(us: seq<Usage>): (r: nat) {
    if us == [] then 0 else TokenSum(us[..|us| - 1]) + Charged(us[|us| - 1])
  }

  function ExactOf(p: Price, u: Usage): int { if Priceable(u) then Exact(p, u) else 0 }

  function ExactSum(p: Price, us: seq<Usage>): int {
    if us == [] then 0 else ExactSum(p, us[..|us| - 1]) + ExactOf(p, us[|us| - 1])
  }

  /** The rounded price without any limit of width. */
  function Rounded(p: Price, u: Usage): int { if Priceable(u) then (Exact(p, u) + MILLION - 1) / MILLION else 0 }

  function RoundedSum(p: Price, us: seq<Usage>): int {
    if us == [] then 0 else RoundedSum(p, us[..|us| - 1]) + Rounded(p, us[|us| - 1])
  }

  lemma RoundedIs(p: Price, u: Usage)
    requires ValidPrice(p)
    ensures Rounded(p, u) >= 0 && ExactOf(p, u) <= Rounded(p, u) * MILLION < ExactOf(p, u) + MILLION
    ensures Priceable(u) ==> CostMicros(p, u) == (if Rounded(p, u) > MAX then MAX else Rounded(p, u), Rounded(p, u) > MAX)
  {
    if Priceable(u) {
      ExactIsNat(p, u);
      RoundedUp(Exact(p, u), Rounded(p, u));
    }
  }

  /** Both counters are their true sums cut off at the largest value, and the flag says exactly when a cut was made. */
  lemma {:induction false} MeterIs(p: Price, us: seq<Usage>)
    requires ValidPrice(p)
    ensures var m := AccountAll(ZERO, Some(p), us);
            && RoundedSum(p, us) >= 0
            && m.tokens == (if TokenSum(us) > MAX then MAX else TokenSum(us))
            && m.cost == (if RoundedSum(p, us) > MAX then MAX else RoundedSum(p, us))
            && (m.overflow <==> TokenSum(us) > MAX || RoundedSum(p, us) > MAX)
  {
    hide CostMicros, Rounded, Charged;
    if us != [] {
      MeterIs(p, us[..|us| - 1]);
      RoundedIs(p, us[|us| - 1]);
      UnpricedIsFree(p, us[|us| - 1]);
    }
  }

  /** Without a price only tokens are counted: their sum cut off, flagged exactly when it was. */
  lemma {:induction false} UnpricedMeterIs(us: seq<Usage>)
    ensures var m := AccountAll(ZERO, None, us);
            && m.cost == 0 && m.tokens == (if TokenSum(us) > MAX then MAX else TokenSum(us)) && (m.overflow <==> TokenSum(us) > MAX)
  {
    hide Charged;
    if us != [] { UnpricedMeterIs(us[..|us| - 1]); }
  }

  lemma UnpricedIsFree(p: Price, u: Usage)
    ensures !Priceable(u) ==> Rounded(p, u) == 0
  {
  }

  lemma {:induction false} RoundingBound(p: Price, us: seq<Usage>)
    requires ValidPrice(p)
    ensures ExactSum(p, us) <= RoundedSum(p, us) * MILLION <= ExactSum(p, us) + |us| * (MILLION - 1)
  {
    hide Rounded, ExactOf;
    if us != [] {
      RoundingBound(p, us[..|us| - 1]);
      RoundedIs(p, us[|us| - 1]);
    }
  }

  /**
   While the flag is down, the recorded cost of n responses is never below their exact price and
   exceeds it by less than n micro-units, and the recorded tokens are all that were used.
   */
  lemma {:induction false} BillIsBounded(p: Price, us: seq<Usage>)
    requires ValidPrice(p) && us != [] && !AccountAll(ZERO, Some(p), us).overflow
    ensures var m := AccountAll(ZERO, Some(p), us);
            && m.tokens == TokenSum(us)
            && ExactSum(p, us) <= m.cost * MILLION < ExactSum(p, us) + |us| * MILLION
  {
    MeterIs(p, us);
    RoundingBound(p, us);
  }
}
