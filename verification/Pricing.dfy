/** The price book: which price applies, what a call costs, and what figures may be added together. */
module Pricing {
  import opened Rows

  /** Prices are per million tokens, so a figure in micro-units is tokens times price. */
  datatype ModelPrice = ModelPrice(
    model: string, inputPerMillion: real, outputPerMillion: real, currency: string, effectiveFrom: Instant)

  predicate ValidPrice(p: ModelPrice) {
    p.model != "" && p.inputPerMillion >= 0.0 && p.outputPerMillion >= 0.0 && |p.currency| == 3
  }

  /** An amount is in millionths of the currency's unit, the precision every figure is kept to. */
  datatype Cost = Cost(micros: real, currency: string)

  // -- Rounding ---------------------------------------------------------------------------------

  /** `quantize`, under the default context: to the nearest, ties to the even neighbour. */
  function RoundHalfEven(x: real): (n: int)
    ensures -0.5 <= n as real - x <= 0.5
    ensures n as real - x == 0.5 || n as real - x == -0.5 ==> n % 2 == 0
  {
    var low := x.Floor;
    var over := x - low as real;
    if over < 0.5 || (over == 0.5 && low % 2 == 0) then low else low + 1
  }

  /** There is one such number: nearest, and even when two are equally near. */
  lemma RoundingIsTheNearest(x: real, n: int)
    requires -0.5 <= n as real - x <= 0.5
    requires n as real - x == 0.5 || n as real - x == -0.5 ==> n % 2 == 0
    ensures n == RoundHalfEven(x)
  {
  }

  lemma RoundingIsMonotone(x: real, y: real)
    requires x <= y
    ensures RoundHalfEven(x) <= RoundHalfEven(y)
  {
  }

  // -- Which price -------------------------------------------------------------------------------

  predicate Applies(p: ModelPrice, model: string, at: Instant) {
    p.model == model && p.effectiveFrom <= at
  }

  function Candidates(prices: seq<ModelPrice>, model: string, at: Instant): (found: seq<ModelPrice>)
    ensures forall p :: p in found <==> p in prices && Applies(p, model, at)
  {
    if prices == [] then []
    else
      var rest := Candidates(prices[1..], model, at);
      assert forall p :: p in prices <==> p == prices[0] || p in prices[1..];
      if Applies(prices[0], model, at) then [prices[0]] + rest else rest
  }

  /** `max(..., key=effective_from)`: the first of the latest. */
  function Latest(prices: seq<ModelPrice>): (latest: ModelPrice)
    requires prices != []
    ensures latest in prices && forall p | p in prices :: p.effectiveFrom <= latest.effectiveFrom
  {
    if |prices| == 1 then prices[0]
    else
      var rest := Latest(prices[1..]);
      assert forall p :: p in prices <==> p == prices[0] || p in prices[1..];
      if rest.effectiveFrom > prices[0].effectiveFrom then rest else prices[0]
  }

  function PriceFor(prices: seq<ModelPrice>, model: string, at: Instant): (price: Option<ModelPrice>)
    ensures price.None? <==> forall p | p in prices :: p.model != model || p.effectiveFrom > at
    ensures price.Some? ==>
              && price.value in prices && price.value.model == model && price.value.effectiveFrom <= at
              && forall p | p in prices && p.model == model && p.effectiveFrom <= at :: p.effectiveFrom <= price.value.effectiveFrom
  {
    var candidates := Candidates(prices, model, at);
    if candidates == [] then
      assert forall p | p in prices && Applies(p, model, at) :: p in candidates;
      None
    else
      assert candidates[0] in candidates;
      Some(Latest(candidates))
  }

  predicate NoDuplicates(prices: seq<ModelPrice>) {
    forall i, j | 0 <= i < j < |prices| :: (prices[i].model, prices[i].effectiveFrom) != (prices[j].model, prices[j].effectiveFrom)
  }

  lemma SamePrices(prices: seq<ModelPrice>, prices': seq<ModelPrice>)
    requires multiset(prices) == multiset(prices')
    ensures forall p :: p in prices <==> p in prices'
  {
    assert forall p :: p in prices <==> p in multiset(prices);
    assert forall p :: p in prices' <==> p in multiset(prices');
  }

  /** With one price per model and date, the order of the book decides nothing. */
  lemma PriceIsOrderIndependent(prices: seq<ModelPrice>, prices': seq<ModelPrice>, model: string, at: Instant)
    requires NoDuplicates(prices) && multiset(prices) == multiset(prices')
    ensures PriceFor(prices, model, at) == PriceFor(prices', model, at)
  {
    hide PriceFor;
    SamePrices(prices, prices');
    var one, two := PriceFor(prices, model, at), PriceFor(prices', model, at);
    if one.Some? && two.Some? {
      var i :| 0 <= i < |prices| && prices[i] == one.value;
      var j :| 0 <= j < |prices| && prices[j] == two.value;
      assert Applies(two.value, model, at) && Applies(one.value, model, at);
      assert i == j;
    }
  }

  lemma FirstOfTwo(a: ModelPrice, b: ModelPrice)
    requires a.model == b.model && a.effectiveFrom == b.effectiveFrom
    ensures PriceFor([a, b], a.model, a.effectiveFrom) == Some(a)
  {
    assert [a, b][1..] == [b] && [b][1..] == [];
    assert Candidates([b], a.model, a.effectiveFrom) == [b];
    assert Candidates([a, b], a.model, a.effectiveFrom) == [a, b];
  }

  /** ... and with two, it does: which is why a book with two is refused when it is read. */
  lemma DuplicatesDependOnOrder()
    ensures var a, b := ModelPrice("m", 1.0, 1.0, "EUR", 0), ModelPrice("m", 2.0, 2.0, "EUR", 0);
            multiset([a, b]) == multiset([b, a]) && PriceFor([a, b], "m", 0) != PriceFor([b, a], "m", 0)
  {
    hide PriceFor;
    var a, b := ModelPrice("m", 1.0, 1.0, "EUR", 0), ModelPrice("m", 2.0, 2.0, "EUR", 0);
    FirstOfTwo(a, b);
    FirstOfTwo(b, a);
  }

  /** True where the original accepts the book. */
  method RejectDuplicates(prices: seq<ModelPrice>) returns (ok: bool)
    ensures ok <==> forall i, j | 0 <= i < j < |prices| ::
              prices[i].model != prices[j].model || prices[i].effectiveFrom != prices[j].effectiveFrom
  {
    var seen: set<(string, Instant)> := {};
    for k := 0 to |prices|
      invariant forall key :: key in seen <==> exists i :: 0 <= i < k && (prices[i].model, prices[i].effectiveFrom) == key
      invariant NoDuplicates(prices[..k])
    {
      var key := (prices[k].model, prices[k].effectiveFrom);
      if key in seen {
        return false;
      }
      seen := seen + {key};
    }
    assert prices[..|prices|] == prices;
    return true;
  }

  // -- What a call costs ---------------------------------------------------------------------------

  function NonNegative(tokens: int): nat {
    if tokens > 0 then tokens else 0
  }

  /** Exact, before rounding. */
  function Exact(p: ModelPrice, inputTokens: int, outputTokens: int): real {
    Micros(NonNegative(inputTokens), p.inputPerMillion) + Micros(NonNegative(outputTokens), p.outputPerMillion)
  }

  function Micros(tokens: nat, perMillion: real): real {
    tokens as real * perMillion
  }

  function Estimate(prices: seq<ModelPrice>, model: string, inputTokens: int, outputTokens: int, at: Instant): Option<Cost> {
    match PriceFor(prices, model, at)
    case None => None
    case Some(p) => Some(Cost(RoundHalfEven(Exact(p, inputTokens, outputTokens)) as real, p.currency))
  }

  lemma MoreCostsNoLess(a: nat, b: nat, price: real)
    requires a <= b && price >= 0.0
    ensures 0.0 <= Micros(a, price) <= Micros(b, price)
  {
  }

  lemma ExactGrows(p: ModelPrice, i: int, o: int, i': int, o': int)
    requires ValidPrice(p) && i <= i' && o <= o'
    ensures 0.0 <= Exact(p, i, o) <= Exact(p, i', o')
  {
    hide Micros;
    MoreCostsNoLess(NonNegative(i), NonNegative(i'), p.inputPerMillion);
    MoreCostsNoLess(NonNegative(o), NonNegative(o'), p.outputPerMillion);
  }

  predicate NearestWhole(micros: real, exact: real) {
    && micros == micros.Floor as real && -0.5 <= micros - exact <= 0.5
    && (micros - exact == 0.5 || micros - exact == -0.5 ==> micros.Floor % 2 == 0)
  }

  lemma RoundedIsNearest(x: real)
    ensures NearestWhole(RoundHalfEven(x) as real, x)
  {
    var n := RoundHalfEven(x);
    assert (n as real).Floor == n;
  }

  lemma EstimateRounds(prices: seq<ModelPrice>, model: string, at: Instant, inputTokens: int, outputTokens: int)
    ensures match PriceFor(prices, model, at)
            case None => Estimate(prices, model, inputTokens, outputTokens, at).None?
            case Some(p) =>
              var estimate := Estimate(prices, model, inputTokens, outputTokens, at);
              && estimate.Some? && estimate.value.currency == p.currency
              && NearestWhole(estimate.value.micros, Exact(p, inputTokens, outputTokens))
  {
    hide PriceFor, Exact, NearestWhole;
    if PriceFor(prices, model, at).Some? { RoundedIsNearest(Exact(PriceFor(prices, model, at).value, inputTokens, outputTokens)); }
  }

  /** A price per million tokens is a price in millionths per token. */
  lemma ExactIs(p: ModelPrice, inputTokens: int, outputTokens: int, exact: real)
    requires exact == (if inputTokens > 0 then inputTokens else 0) as real * p.inputPerMillion
                      + (if outputTokens > 0 then outputTokens else 0) as real * p.outputPerMillion
    ensures exact == Exact(p, inputTokens, outputTokens)
  {
  }

  /**
   A call is estimated exactly when a price applies: in that price's currency, at a whole number of
   micro-units, within half of one of what its tokens come to, and even when two are as near.
   */
  lemma EstimateIsTheNearest(prices: seq<ModelPrice>, model: string, at: Instant, inputTokens: int, outputTokens: int, exact: real)
    requires PriceFor(prices, model, at).Some? ==>
               var p := PriceFor(prices, model, at).value;
               exact == (if inputTokens > 0 then inputTokens else 0) as real * p.inputPerMillion
                        + (if outputTokens > 0 then outputTokens else 0) as real * p.outputPerMillion
    ensures match PriceFor(prices, model, at)
            case None => Estimate(prices, model, inputTokens, outputTokens, at).None?
            case Some(p) =>
              var estimate := Estimate(prices, model, inputTokens, outputTokens, at);
              && estimate.Some? && estimate.value.currency == p.currency
              && NearestWhole(estimate.value.micros, exact)
  {
    hide PriceFor, Exact, Estimate, NearestWhole;
    EstimateRounds(prices, model, at, inputTokens, outputTokens);
    if PriceFor(prices, model, at).Some? { ExactIs(PriceFor(prices, model, at).value, inputTokens, outputTokens, exact); }
  }

  /** More tokens never cost less, and none is ever paid back. */
  lemma EstimateIsMonotone(prices: seq<ModelPrice>, model: string, at: Instant, i: int, o: int, i': int, o': int)
    requires forall p | p in prices :: ValidPrice(p)
    requires i <= i' && o <= o'
    ensures Estimate(prices, model, i, o, at).None? <==> Estimate(prices, model, i', o', at).None?
    ensures Estimate(prices, model, i, o, at).Some? ==>
              0.0 <= Estimate(prices, model, i, o, at).value.micros <= Estimate(prices, model, i', o', at).value.micros
  {
    hide PriceFor, Exact;
    if PriceFor(prices, model, at).Some? {
      var p := PriceFor(prices, model, at).value;
      ExactGrows(p, i, o, i', o');
      RoundingIsMonotone(Exact(p, i, o), Exact(p, i', o'));
      RoundingIsMonotone(0.0, Exact(p, i, o));
      assert RoundHalfEven(0.0) == 0;
    }
  }

  // -- Rounding many -----------------------------------------------------------------------------

  datatype Tokens = Tokens(input: nat, output: nat)

  function SumTokens(calls: seq<Tokens>): Tokens {
    if calls == [] then Tokens(0, 0)
    else
      var front := SumTokens(calls[..|calls| - 1]);
      Tokens(front.input + calls[|calls| - 1].input, front.output + calls[|calls| - 1].output)
  }

  /** The figures of calls priced one by one. */
  function Estimates(prices: seq<ModelPrice>, model: string, calls: seq<Tokens>, at: Instant): seq<Option<Cost>> {
    seq(|calls|, k requires 0 <= k < |calls| => Estimate(prices, model, calls[k].input, calls[k].output, at))
  }

  function SumCosts(costs: seq<Option<Cost>>): real {
    if costs == [] then 0.0
    else SumCosts(costs[..|costs| - 1]) + if costs[|costs| - 1].Some? then costs[|costs| - 1].value.micros else 0.0
  }

  lemma ExactAdds(p: ModelPrice, a: Tokens, b: Tokens)
    ensures Exact(p, a.input + b.input, a.output + b.output) == Exact(p, a.input, a.output) + Exact(p, b.input, b.output)
  {
    assert (a.input + b.input) as real * p.inputPerMillion == a.input as real * p.inputPerMillion + b.input as real * p.inputPerMillion;
    assert (a.output + b.output) as real * p.outputPerMillion == a.output as real * p.outputPerMillion + b.output as real * p.outputPerMillion;
  }

  lemma NothingCostsNothing(p: ModelPrice)
    ensures Exact(p, 0, 0) == 0.0
  {
  }

  lemma {:induction false} SumStaysNear(prices: seq<ModelPrice>, model: string, calls: seq<Tokens>, at: Instant)
    requires PriceFor(prices, model, at).Some?
    ensures var exact := Exact(PriceFor(prices, model, at).value, SumTokens(calls).input, SumTokens(calls).output);
            -0.5 * |calls| as real <= SumCosts(Estimates(prices, model, calls, at)) - exact <= 0.5 * |calls| as real
  {
    hide PriceFor, Estimate, Exact;
    if calls == [] {
      NothingCostsNothing(PriceFor(prices, model, at).value);
    } else {
      var front, last := calls[..|calls| - 1], calls[|calls| - 1];
      SumStaysNear(prices, model, front, at);
      EstimateRounds(prices, model, at, last.input, last.output);
      ExactAdds(PriceFor(prices, model, at).value, SumTokens(front), last);
      assert Estimates(prices, model, calls, at)[..|calls| - 1] == Estimates(prices, model, front, at);
    }
  }

  /**
   Figures of `n` calls added up are within n / 2 micro-units of what all their tokens come to, and so
   within (n + 1) / 2 of the figure of the tokens added up.
   */
  lemma SummingIsNearPricingTheSum(prices: seq<ModelPrice>, model: string, calls: seq<Tokens>, at: Instant, exact: real)
    requires PriceFor(prices, model, at).Some?
    requires var p := PriceFor(prices, model, at).value;
             exact == SumTokens(calls).input as real * p.inputPerMillion + SumTokens(calls).output as real * p.outputPerMillion
    ensures var n, summed := |calls| as real, SumCosts(Estimates(prices, model, calls, at));
            var whole := Estimate(prices, model, SumTokens(calls).input, SumTokens(calls).output, at);
            && -n <= 2.0 * (summed - exact) <= n
            && whole.Some? && -(n + 1.0) <= 2.0 * (summed - whole.value.micros) <= n + 1.0
  {
    hide PriceFor, Estimate, Exact, SumCosts, SumTokens;
    SumStaysNear(prices, model, calls, at);
    EstimateRounds(prices, model, at, SumTokens(calls).input, SumTokens(calls).output);
    ExactIs(PriceFor(prices, model, at).value, SumTokens(calls).input, SumTokens(calls).output, exact);
  }

  // -- Totals -------------------------------------------------------------------------------------

  datatype TotalResult = Nothing | Mixed | Summed(cost: Cost)

  predicate Priced(costs: seq<Option<Cost>>) {
    exists c :: c in costs && c.Some?
  }

  predicate InOneCurrency(costs: seq<Option<Cost>>, currency: string) {
    forall c | c in costs && c.Some? :: c.value.currency == currency
  }

  /** What a list of figures comes to: nothing if none is priced, no sum across currencies, one figure otherwise. */
  ghost predicate ComesTo(costs: seq<Option<Cost>>, result: TotalResult) {
    match result
    case Nothing => !Priced(costs)
    case Mixed => exists c, d :: c in costs && d in costs && c.Some? && d.Some? && c.value.currency != d.value.currency
    case Summed(cost) =>
      Priced(costs) && InOneCurrency(costs, cost.currency) && cost.micros == RoundHalfEven(SumCosts(costs)) as real
  }

  method Total(costs: seq<Option<Cost>>) returns (result: TotalResult)
    ensures ComesTo(costs, result)
  {
    var amount, counted := 0.0, 0;
    var currency: Option<string> := None;
    for k := 0 to |costs|
      invariant amount == SumCosts(costs[..k])
      invariant currency.None? <==> !Priced(costs[..k])
      invariant currency.Some? ==> InOneCurrency(costs[..k], currency.value)
      invariant currency.None? <==> counted == 0
    {
      assert costs[..k + 1] == costs[..k] + [costs[k]];
      assert costs[..k + 1][..k] == costs[..k];
      var cost := costs[k];
      if cost.Some? {
        if currency.None? {
          currency := Some(cost.value.currency);
        } else if cost.value.currency != currency.value {
          var c :| c in costs[..k] && c.Some?;
          assert c in costs && cost in costs && c.value.currency == currency.value;
          return Mixed;
        }
        amount := amount + cost.value.micros;
        counted := counted + 1;
        assert cost in costs[..k + 1];
      }
    }
    assert costs[..|costs|] == costs;
    if currency.None? || counted == 0 { return Nothing; }
    return Summed(Cost(RoundHalfEven(amount) as real, currency.value));
  }

  /** There is one such result. */
  lemma TotalIsDetermined(costs: seq<Option<Cost>>, one: TotalResult, two: TotalResult)
    requires ComesTo(costs, one) && ComesTo(costs, two)
    ensures one == two
  {
    if Priced(costs) { var c :| c in costs && c.Some?; }
  }

  lemma {:induction false} SumCostsAppend(a: seq<Option<Cost>>, b: seq<Option<Cost>>)
    ensures SumCosts(a + b) == SumCosts(a) + SumCosts(b)
  {
    if b == [] {
      assert a + b == a;
    } else {
      assert (a + b)[..|a + b| - 1] == a + b[..|b| - 1];
      SumCostsAppend(a, b[..|b| - 1]);
    }
  }

  lemma SumWithout(costs: seq<Option<Cost>>, i: nat)
    requires i < |costs|
    ensures SumCosts(costs) == SumCosts(costs[..i] + costs[i + 1..]) + SumCosts([costs[i]])
  {
    hide SumCosts;
    assert costs == costs[..i] + ([costs[i]] + costs[i + 1..]);
    SumCostsAppend(costs[..i], [costs[i]] + costs[i + 1..]);
    SumCostsAppend([costs[i]], costs[i + 1..]);
    SumCostsAppend(costs[..i], costs[i + 1..]);
  }

  lemma MultisetWithout(costs: seq<Option<Cost>>, i: nat)
    requires i < |costs|
    ensures multiset(costs[..i] + costs[i + 1..]) == multiset(costs) - multiset{costs[i]}
  {
    assert costs == costs[..i] + ([costs[i]] + costs[i + 1..]);
  }

  lemma {:induction false} SumIsOrderIndependent(a: seq<Option<Cost>>, b: seq<Option<Cost>>)
    requires multiset(a) == multiset(b)
    ensures SumCosts(a) == SumCosts(b)
    decreases |a|
  {
    hide SumCosts;
    if a == [] {
      assert |multiset(b)| == 0;
      assert b == a;
    } else {
      assert a[0] in multiset(b);
      var i :| 0 <= i < |b| && b[i] == a[0];
      MultisetWithout(a, 0);
      MultisetWithout(b, i);
      SumIsOrderIndependent(a[..0] + a[1..], b[..i] + b[i + 1..]);
      SumWithout(a, 0);
      SumWithout(b, i);
    }
  }

  /** The order figures arrive in decides nothing, not even whether they may be added. */
  lemma TotalIsOrderIndependent(a: seq<Option<Cost>>, b: seq<Option<Cost>>, result: TotalResult)
    requires multiset(a) == multiset(b) && ComesTo(a, result)
    ensures ComesTo(b, result) && forall other | ComesTo(b, other) :: other == result
  {
    assert forall c :: c in a <==> c in multiset(a);
    assert forall c :: c in b <==> c in multiset(b);
    SumIsOrderIndependent(a, b);
    forall other | ComesTo(b, other) ensures other == result { TotalIsDetermined(b, other, result); }
  }

  predicate IsWhole(x: real) {
    x == x.Floor as real
  }

  predicate Whole(costs: seq<Option<Cost>>) {
    forall c | c in costs && c.Some? :: IsWhole(c.value.micros)
  }

  lemma WholeAdds(x: real, y: real)
    requires IsWhole(x) && IsWhole(y)
    ensures IsWhole(x + y)
  {
    assert x + y == (x.Floor + y.Floor) as real;
  }

  lemma WholeIsKept(x: real)
    requires IsWhole(x)
    ensures RoundHalfEven(x) as real == x
  {
    RoundingIsTheNearest(x, x.Floor);
  }

  lemma {:induction false} WholeSums(costs: seq<Option<Cost>>)
    requires Whole(costs)
    ensures IsWhole(SumCosts(costs)) && RoundHalfEven(SumCosts(costs)) as real == SumCosts(costs)
  {
    hide IsWhole;
    if costs == [] {
      assert IsWhole(0.0) by { WholeZero(); }
    } else {
      var front, last := costs[..|costs| - 1], costs[|costs| - 1];
      assert forall c | c in front :: c in costs;
      WholeSums(front);
      assert last in costs;
      if last.Some? { WholeAdds(SumCosts(front), last.value.micros); }
    }
    WholeIsKept(SumCosts(costs));
  }

  lemma WholeZero()
    ensures IsWhole(0.0)
  {
  }

  /** Totals of totals: in one currency, adding up two lists is adding up their totals. */
  lemma TotalDistributes(a: seq<Option<Cost>>, b: seq<Option<Cost>>, one: Cost, two: Cost)
    requires Whole(a) && Whole(b) && one.currency == two.currency
    requires ComesTo(a, Summed(one)) && ComesTo(b, Summed(two))
    ensures ComesTo(a + b, Summed(Cost(one.micros + two.micros, one.currency)))
    ensures ComesTo([Some(one), Some(two)], Summed(Cost(one.micros + two.micros, one.currency)))
  {
    WholeSums(a);
    WholeSums(b);
    SumCostsAppend(a, b);
    assert forall c :: c in a + b <==> c in a || c in b;
    assert Whole(a + b);
    WholeSums(a + b);
    var both := [Some(one), Some(two)];
    assert Some(one) in both;
    assert [Some(one)][..0] == [] && [Some(two)][..0] == [];
    assert both == [Some(one)] + [Some(two)];
    SumCostsAppend([Some(one)], [Some(two)]);
    assert Whole(both);
    WholeSums(both);
  }
}
