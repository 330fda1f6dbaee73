/** Prices (internal/pricing/pricing.go) and token totals (internal/card/state.go). */
module Pricing {
  import opened Common

  datatype Rates = Rates(input: real, output: real, cacheRead: real, contextWindow: int)
  datatype Entry = Entry(prefix: string, rates: Rates, peakMul: real)

  // ----- the table ----------------------------------------------------------

  /** The order that sorting by prefix length, longest first, guarantees. Entries of
      equal length may come out in any order. */
  ghost predicate Sorted(table: seq<Entry>) {
    forall i, j :: 0 <= i < j < |table| ==> |table[i].prefix| >= |table[j].prefix|
  }

  ghost predicate DistinctPrefixes(table: seq<Entry>) {
    forall i, j :: 0 <= i < j < |table| ==> table[i].prefix != table[j].prefix
  }

  /** No entry of the table has a longer prefix of `model`. */
  ghost predicate LongestMatch(table: seq<Entry>, model: string, e: Entry) {
    && e in table && e.prefix <= model
    && (forall other :: other in table && other.prefix <= model ==> |other.prefix| <= |e.prefix|)
  }

  /** `Lookup`; `toLower` stands for `strings.ToLower`. */
  method Lookup(registry: seq<Entry>, model: string, toLower: string -> string) returns (found: Option<Entry>)
    requires Sorted(registry)
    ensures found.None? <==> forall e :: e in registry ==> !(e.prefix <= toLower(model))
    ensures found.Some? ==> LongestMatch(registry, toLower(model), found.value)
  {
    var lower := toLower(model);
    for i := 0 to |registry|
      invariant forall k :: 0 <= k < i ==> !(registry[k].prefix <= lower)
    {
      if registry[i].prefix <= lower {
        LongestOfSorted(registry, lower, i);
        return Some(registry[i]);
      }
    }
    return None;
  }

  /** In a sorted table the first match is the longest. */
  lemma LongestOfSorted(table: seq<Entry>, model: string, i: nat)
    requires Sorted(table) && i < |table| && table[i].prefix <= model
    requires forall k :: 0 <= k < i ==> !(table[k].prefix <= model)
    ensures LongestMatch(table, model, table[i])
  {
    forall other | other in table && other.prefix <= model ensures |other.prefix| <= |table[i].prefix| {
      var j :| 0 <= j < |table| && table[j] == other;
      assert i <= j;
    }
  }

  lemma SameLengthPrefixes(p: string, q: string, model: string)
    requires p <= model && q <= model
    ensures |p| == |q| ==> p == q
  {
    assert p == model[..|p|] && q == model[..|q|];
  }

  /** When the prefixes differ the answer does not depend on the order ties land in: any
      two arrangements of the same entries have the same longest match, and it is
      strictly longer than every other match. */
  lemma OrderOfTiesIsIrrelevant(a: seq<Entry>, b: seq<Entry>, model: string, x: Entry, y: Entry, other: Entry)
    requires DistinctPrefixes(a) && multiset(a) == multiset(b)
    requires LongestMatch(a, model, x) && LongestMatch(b, model, y)
    ensures x == y
    ensures other in a && other.prefix <= model && other != x ==> |other.prefix| < |x.prefix|
  {
    assert x in multiset(a) && y in multiset(b);
    assert x in b && y in a;
    SameLengthPrefixes(x.prefix, y.prefix, model);
    if other in a && other.prefix <= model {
      SameLengthPrefixes(x.prefix, other.prefix, model);
    }
  }

  // ----- token totals -------------------------------------------------------

  function ContextTokens(input: int, cached: int): int {
    if cached > input then input + cached else input
  }

  function TotalTokens(input: int, output: int, cached: int, reasoning: int): int {
    var total := input + output + reasoning;
    if cached > input then total + cached else total
  }

  /** The input tokens billed at the full rate. */
  function NonCachedInput(input: int, cached: int): int {
    if cached > 0 && cached <= input then input - cached else input
  }

  /** What is billed as input plus what is billed as cache is the context, for all
      counts but a negative cache count that does not exceed the input; the total
      is the context plus output and reasoning. */
  lemma BilledIsContext(input: int, output: int, cached: int, reasoning: int)
    ensures NonCachedInput(input, cached) + cached == ContextTokens(input, cached) <==> !(cached < 0 && cached <= input)
    ensures TotalTokens(input, output, cached, reasoning) == ContextTokens(input, cached) + output + reasoning
  {
  }

  // ----- cost ---------------------------------------------------------------

  /** `math.Round`: to the nearest integer, halves away from zero. */
  function Round(x: real): int {
    if x >= 0.0 then (x + 0.5).Floor else -((-x + 0.5).Floor)
  }

  function ExactCost(e: Entry, input: int, output: int, cached: int, multiplier: real): real {
    (NonCachedInput(input, cached) as real * e.rates.input + cached as real * e.rates.cacheRead
     + output as real * e.rates.output) / 1000000.0 * multiplier
  }

  /** `Calculate`, over the reals; `peak` tells whether the clock shows peak hours. */
  method Calculate(registry: seq<Entry>, model: string, toLower: string -> string,
                   input: int, output: int, cached: int, peak: bool)
    returns (cost: real, priced: Option<Entry>, peakPriced: bool)
    requires Sorted(registry)
    ensures priced.None? <==> forall e :: e in registry ==> !(e.prefix <= toLower(model))
    ensures priced.None? ==> cost == 0.0 && !peakPriced
    ensures priced.Some? ==>
              && LongestMatch(registry, toLower(model), priced.value)
              && (peakPriced <==> peak && priced.value.peakMul > 1.0)
              && var exact := ExactCost(priced.value, input, output, cached,
                                        if peak && priced.value.peakMul > 0.0 then priced.value.peakMul else 1.0);
                 -0.00005 <= cost - exact <= 0.00005 && cost * 10000.0 == Round(exact * 10000.0) as real
  {
    priced := Lookup(registry, model, toLower);
    if priced.None? {
      return 0.0, None, false;
    }
    var e := priced.value;
    var multiplier := 1.0;
    if e.peakMul > 0.0 && peak {
      multiplier := e.peakMul;
    }
    var nonCached := input;
    if cached > 0 && cached <= input {
      nonCached := input - cached;
    }
    cost := (nonCached as real * e.rates.input + cached as real * e.rates.cacheRead + output as real * e.rates.output)
            / 1000000.0 * multiplier;
    assert cost == ExactCost(e, input, output, cached, multiplier);
    RoundIsNear(cost * 10000.0);
    cost := Round(cost * 10000.0) as real / 10000.0;
    peakPriced := e.peakMul > 0.0 && multiplier > 1.0;
  }

  /** Rounding moves a number by at most a half, and symmetrically. */
  lemma RoundIsNear(x: real)
    ensures -0.5 <= Round(x) as real - x <= 0.5
    ensures Round(-x) == -Round(x)
  {
    var up, down := (x + 0.5).Floor, (-x + 0.5).Floor;
    assert up as real <= x + 0.5 < up as real + 1.0;
    assert down as real <= -x + 0.5 < down as real + 1.0;
  }

  /** A dearer exact cost never rounds to less. */
  lemma RoundIsMonotone(x: real, y: real)
    requires x <= y
    ensures Round(x) <= Round(y)
  {
  }

  /** More output never makes a run cheaper, before or after rounding. */
  lemma MoreOutputCostsNoLess(e: Entry, input: int, output: int, more: int, cached: int, multiplier: real)
    requires output <= more && e.rates.output >= 0.0 && multiplier >= 0.0
    ensures ExactCost(e, input, output, cached, multiplier) <= ExactCost(e, input, more, cached, multiplier)
    ensures Round(ExactCost(e, input, output, cached, multiplier) * 10000.0) <=
            Round(ExactCost(e, input, more, cached, multiplier) * 10000.0)
  {
    Scaled(output as real, more as real, e.rates.output);
    var rest := NonCachedInput(input, cached) as real * e.rates.input + cached as real * e.rates.cacheRead;
    Scaled((rest + output as real * e.rates.output) / 1000000.0,
           (rest + more as real * e.rates.output) / 1000000.0, multiplier);
    RoundIsMonotone(ExactCost(e, input, output, cached, multiplier) * 10000.0,
                    ExactCost(e, input, more, cached, multiplier) * 10000.0);
  }

  lemma Scaled(x: real, y: real, factor: real)
    requires x <= y && factor >= 0.0
    ensures x * factor <= y * factor
  {
    assert (y - x) * factor >= 0.0;
  }

  /** A million tokens of one kind cost exactly the rate of their kind: input that is not
      cached, output, and input read from the cache; in peak hours, times the
      multiplier. No tokens cost nothing. */
  lemma RatesPerMillion(e: Entry, multiplier: real)
    ensures ExactCost(e, 1000000, 0, 0, 1.0) == e.rates.input
    ensures ExactCost(e, 0, 1000000, 0, 1.0) == e.rates.output
    ensures ExactCost(e, 1000000, 0, 1000000, 1.0) == e.rates.cacheRead
    ensures ExactCost(e, 0, 0, 1000000, 1.0) == e.rates.cacheRead
    ensures ExactCost(e, 0, 0, 0, multiplier) == 0.0
  {
  }

  lemma MultiplierScales(e: Entry, input: int, output: int, cached: int, multiplier: real)
    ensures ExactCost(e, input, output, cached, multiplier) == ExactCost(e, input, output, cached, 1.0) * multiplier
  {
  }

  /** Costs add up over requests whose cached tokens are part of their input. */
  lemma CostsAddUp(e: Entry, input: int, output: int, cached: int, input2: int, output2: int, cached2: int)
    requires 0 <= cached <= input && 0 <= cached2 <= input2
    ensures ExactCost(e, input + input2, output + output2, cached + cached2, 1.0) ==
            ExactCost(e, input, output, cached, 1.0) + ExactCost(e, input2, output2, cached2, 1.0)
  {
    Distributes(input - cached, input2 - cached2, e.rates.input);
    Distributes(cached, cached2, e.rates.cacheRead);
    Distributes(output, output2, e.rates.output);
  }

  lemma Distributes(a: int, b: int, rate: real)
    ensures (a + b) as real * rate == a as real * rate + b as real * rate
  {
  }

  // ----- the registered prices ----------------------------------------------

  /** The registered prices, in the order of registration. */
  const REGISTERED := [
    Entry("deepseek/deepseek-chat", Rates(0.5, 2.0, 0.1, 131072), 2.0),
    Entry("deepseek-chat", Rates(0.5, 2.0, 0.1, 131072), 2.0),
    Entry("deepseek/deepseek-reasoner", Rates(1.0, 4.0, 0.25, 131072), 2.0),
    Entry("deepseek-reasoner", Rates(1.0, 4.0, 0.25, 131072), 2.0),
    Entry("deepseek/deepseek-r1", Rates(1.0, 4.0, 0.25, 131072), 2.0),
    Entry("deepseek/deepseek-v4-flash", Rates(0.14, 0.28, 0.0028, 1048576), 2.0),
    Entry("deepseek/deepseek-v4-pro", Rates(0.435, 0.87, 0.003625, 1048576), 2.0),
    Entry("claude-sonnet-4-", Rates(22.0, 110.0, 2.2, 200000), 0.0),
    Entry("claude-sonnet-4", Rates(22.0, 110.0, 2.2, 200000), 0.0),
    Entry("claude-3.5-sonnet", Rates(22.0, 110.0, 2.2, 200000), 0.0),
    Entry("claude-3-haiku", Rates(5.8, 29.2, 0.6, 200000), 0.0),
    Entry("claude-opus-4-", Rates(110.0, 440.0, 11.0, 200000), 0.0),
    Entry("claude-opus-4", Rates(110.0, 440.0, 11.0, 200000), 0.0),
    Entry("gpt-4o-mini", Rates(1.1, 4.4, 0.55, 131072), 0.0),
    Entry("gpt-4o", Rates(18.3, 73.0, 9.1, 131072), 0.0)]

  lemma RegisteredPrefixesDiffer()
    ensures DistinctPrefixes(REGISTERED)
  {
  }

  /** However the sort arranges the registered prices, a model is priced the same. */
  lemma RegisteredPriceIsStable(a: seq<Entry>, b: seq<Entry>, model: string, x: Entry, y: Entry)
    requires multiset(a) == multiset(REGISTERED) && multiset(b) == multiset(REGISTERED)
    requires LongestMatch(a, model, x) && LongestMatch(b, model, y)
    ensures x == y
  {
    SameEntries(a, REGISTERED, model, x);
    SameEntries(b, REGISTERED, model, y);
    RegisteredPrefixesDiffer();
    OrderOfTiesIsIrrelevant(REGISTERED, REGISTERED, model, x, y, x);
  }

  /** A longest match depends on the entries only, not on their order. */
  lemma SameEntries(a: seq<Entry>, b: seq<Entry>, model: string, e: Entry)
    requires multiset(a) == multiset(b) && LongestMatch(a, model, e)
    ensures LongestMatch(b, model, e)
  {
    assert forall x :: x in a <==> x in multiset(a);
    assert forall x :: x in b <==> x in multiset(b);
  }
}
