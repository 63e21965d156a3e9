/**
 Dynamic pricing: spot price + cost basis + tier margin, with tax.  Rates are published in whole
 ten-thousandths of a euro per kWh by two code paths that round in different places.
 */
module Pricing {
  import opened Common
  import opened Rounding

  datatype ConfigRow = ConfigRow(key: string, value: real)
  datatype Tier = Tier(id: string, margin: real)

  /** Published rates, in ten-thousandths of a euro. */
  datatype TierRate = TierRate(rateExcl: int, rateIncl: int)

  const META_KEYS: set<string> := {"tax_rate", "btw_rate", "spot_source", "spot_manual"}
  const SPOT_CACHE_TTL: real := 60.0
  const FALLBACK_TTL: real := 10.0

  // ---------------------------------------------------------------- rates

  function AddTax(units: real, tax: real): int {
    HalfEven(units * (1.0 + tax))
  }

  /** Rounded before tax and again after it: what a single tier and the public snapshot publish. */
  function TwiceRounded(price: real, tax: real): TierRate {
    var excl := HalfEven(price * 10000.0);
    TierRate(excl, AddTax(excl as real, tax))
  }

  /** Rounded once, from the unrounded price: what the management view publishes. */
  function OnceRounded(price: real, tax: real): TierRate {
    TierRate(HalfEven(price * 10000.0), AddTax(price * 10000.0, tax))
  }

  /** The nearest number with tax, even on a tie. */
  predicate IsTaxed(units: real, tax: real, n: int) {
    NearestEven(units + units * tax, n)
  }

  /** Each published number is nearest, even on a tie: in ten-thousandths, tax on the rounded or on the exact price. */
  lemma RatesAreNearest(price: real, tax: real)
    ensures var twice, once, units := TwiceRounded(price, tax), OnceRounded(price, tax), price * 10000.0;
            && NearestEven(units, twice.rateExcl) && once.rateExcl == twice.rateExcl
            && IsTaxed(twice.rateExcl as real, tax, twice.rateIncl)
            && IsTaxed(units, tax, once.rateIncl)
  {
    Taxed(HalfEven(price * 10000.0) as real, tax);
    Taxed(price * 10000.0, tax);
  }

  lemma Taxed(units: real, tax: real)
    ensures IsTaxed(units, tax, AddTax(units, tax))
  {
    WithTax(units, tax);
  }

  lemma WithTax(x: real, tax: real)
    ensures x * (1.0 + tax) == x + x * tax
  {
  }

  lemma TierRatesAgree(price: real, tax: real)
    requires 0.0 <= tax < 1.0
    ensures TwiceRounded(price, tax).rateExcl == OnceRounded(price, tax).rateExcl
    ensures -1 <= TwiceRounded(price, tax).rateIncl - OnceRounded(price, tax).rateIncl <= 1
  {
    var units := price * 10000.0;
    var excl := HalfEven(units) as real;
    AddTaxNear(excl, units, tax);
  }

  lemma AddTaxNear(rounded: real, exact: real, tax: real)
    requires -0.5 <= rounded - exact <= 0.5 && 0.0 <= tax < 1.0
    ensures -1 <= AddTax(rounded, tax) - AddTax(exact, tax) <= 1
  {
    NearAfterTax(rounded, exact, 1.0 + tax);
    HalfEvenNear(rounded * (1.0 + tax), exact * (1.0 + tax));
  }

  lemma NearAfterTax(rounded: real, exact: real, factor: real)
    requires -0.5 <= rounded - exact <= 0.5 && 1.0 <= factor < 2.0
    ensures -1.0 < rounded * factor - exact * factor < 1.0
  {
    var error := rounded - exact;
    ProductNotNegative(0.5 - error, factor);
    ProductNotNegative(0.5 + error, factor);
    assert (0.5 - error) * factor == 0.5 * factor - error * factor;
    assert (0.5 + error) * factor == 0.5 * factor + error * factor;
    assert error * factor == rounded * factor - exact * factor;
  }

  lemma ProductNotNegative(x: real, y: real)
    requires x >= 0.0 && y >= 0.0
    ensures x * y >= 0.0
  {
  }

  /** The allowance of one unit is needed: 0.00005 euro at 21 % is published as 0 and as 0.0001. */
  lemma TierRatesMayDiffer()
    ensures TwiceRounded(0.00005, 0.21).rateIncl == 0 && OnceRounded(0.00005, 0.21).rateIncl == 1
  {
  }

  // ---------------------------------------------------------------- configuration table

  function Lookup(rows: seq<ConfigRow>, key: string): (v: Option<real>)
    ensures v.Some? <==> exists i :: 0 <= i < |rows| && rows[i].key == key
    ensures v.Some? ==> ConfigRow(key, v.value) in rows
  {
    if rows == [] then None
    else if rows[0].key == key then Some(rows[0].value)
    else Lookup(rows[1..], key)
  }

  function CostBasis(rows: seq<ConfigRow>): real {
    if rows == [] then 0.0
    else CostBasis(rows[..|rows| - 1]) + (if rows[|rows| - 1].key in META_KEYS then 0.0 else rows[|rows| - 1].value)
  }

  /** An empty table costs nothing; the four meta keys are these. */
  lemma EmptyTableIsFree(key: string)
    ensures CostBasis([]) == 0.0
    ensures key in META_KEYS <==> key == "tax_rate" || key == "btw_rate" || key == "spot_source" || key == "spot_manual"
  {
  }

  /** Smallest key of the two first: a btw_rate row shadows a tax_rate row. */
  function TaxRate(rows: seq<ConfigRow>): real {
    match Lookup(rows, "btw_rate")
    case Some(v) => v
    case None => match Lookup(rows, "tax_rate") case Some(v) => v case None => 0.21
  }

  /** The documented rate: the tax_rate row, and btw_rate only where there is none. */
  function DocumentedTaxRate(rows: seq<ConfigRow>): real {
    match Lookup(rows, "tax_rate")
    case Some(v) => v
    case None => match Lookup(rows, "btw_rate") case Some(v) => v case None => 0.21
  }

  /** The rate is the documented one exactly when one of the two rows is missing or both say the same. */
  lemma TaxRateIsDocumentedIff(rows: seq<ConfigRow>)
    ensures TaxRate(rows) == DocumentedTaxRate(rows) <==>
              || Lookup(rows, "tax_rate").None? || Lookup(rows, "btw_rate").None?
              || Lookup(rows, "tax_rate") == Lookup(rows, "btw_rate")
  {
  }

  /** Both rows present: the old one decides. */
  lemma OldTaxRowWins(tax: real, legacy: real)
    ensures TaxRate([ConfigRow("tax_rate", tax), ConfigRow("btw_rate", legacy)]) == legacy
    ensures DocumentedTaxRate([ConfigRow("tax_rate", tax), ConfigRow("btw_rate", legacy)]) == tax
  {
    var rows := [ConfigRow("tax_rate", tax), ConfigRow("btw_rate", legacy)];
    assert rows[1..] == [ConfigRow("btw_rate", legacy)];
    assert rows[0].key[0] != "btw_rate"[0];
    assert Lookup(rows[1..], "btw_rate") == Some(legacy);
    assert Lookup(rows, "btw_rate") == Some(legacy);
  }

  function FindTier(tiers: seq<Tier>, id: string): (t: Option<Tier>)
    ensures t.Some? <==> exists i :: 0 <= i < |tiers| && tiers[i].id == id
    ensures t.Some? ==> t.value in tiers && t.value.id == id
  {
    if tiers == [] then None
    else if tiers[0].id == id then Some(tiers[0])
    else FindTier(tiers[1..], id)
  }

  /** Tier identifiers are the primary key of their table. */
  ghost predicate UniqueIds(tiers: seq<Tier>) {
    forall i, j :: 0 <= i < j < |tiers| ==> tiers[i].id != tiers[j].id
  }

  /** A row with a meta key contributes nothing wherever it stands: the basis is the sum of the others. */
  lemma {:induction false} MetaRowsAreFree(before: seq<ConfigRow>, row: ConfigRow, after: seq<ConfigRow>)
    ensures CostBasis(before + [row] + after)
         == CostBasis(before + after) + (if row.key in META_KEYS then 0.0 else row.value)
    decreases |after|
  {
    var whole := before + [row] + after;
    if after == [] {
      assert before + after == before;
      assert whole[..|whole| - 1] == before;
    } else {
      var init := after[..|after| - 1];
      assert whole[..|whole| - 1] == before + [row] + init;
      assert (before + after)[..|before + after| - 1] == before + init;
      MetaRowsAreFree(before, row, init);
    }
  }

  /** Exactly the tiers, each at the price with its margin, rounded before tax and after it. */
  ghost predicate RatesAre(rates: map<string, TierRate>, tiers: seq<Tier>, base: real, tax: real) {
    && (forall id :: id in rates ==> exists i :: 0 <= i < |tiers| && tiers[i].id == id)
    && (forall i :: 0 <= i < |tiers| ==>
          tiers[i].id in rates && rates[tiers[i].id] == TwiceRounded(base + tiers[i].margin, tax))
  }

  /** The loop over the tiers, at one price before margin. */
  method RatesOf(tiers: seq<Tier>, base: real, tax: real) returns (rates: map<string, TierRate>)
    requires UniqueIds(tiers)
    ensures RatesAre(rates, tiers, base, tax)
  {
    rates := map[];
    for i := 0 to |tiers|
      invariant forall id :: id in rates ==> exists j :: 0 <= j < i && tiers[j].id == id
      invariant forall j :: 0 <= j < i ==>
                  tiers[j].id in rates && rates[tiers[j].id] == TwiceRounded(base + tiers[j].margin, tax)
    {
      rates := rates[tiers[i].id := TwiceRounded(base + tiers[i].margin, tax)];
    }
  }

  // ---------------------------------------------------------------- the service

  class Service {
    var config: seq<ConfigRow>
    var tiers: seq<Tier>
    var spotPrice: Option<real>
    var spotTime: real

    /** When the cached price was obtained, and whether it was the manual fallback. */
    ghost var obtainedAt: real
    ghost var fellBack: bool

    ghost predicate Valid()
      reads this
    {
      && UniqueIds(tiers)
      && (spotPrice.Some? ==> spotTime == obtainedAt - (if fellBack then SPOT_CACHE_TTL - FALLBACK_TTL else 0.0))
    }

    constructor (config: seq<ConfigRow>, tiers: seq<Tier>)
      requires UniqueIds(tiers)
      ensures Valid() && spotPrice == None && this.config == config && this.tiers == tiers
    {
      this.config, this.tiers := config, tiers;
      spotPrice, spotTime, obtainedAt, fellBack := None, 0.0, 0.0, false;
    }

    /**
     `external` is what the configured price source would answer now; None when no source is
     configured or the request fails.
     */
    method GetSpotPrice(now: real, external: Option<real>) returns (price: real)
      requires Valid()
      modifies this`spotPrice, this`spotTime, this`obtainedAt, this`fellBack
      ensures Valid() && spotPrice == Some(price)
      ensures now - obtainedAt < (if fellBack then 10.0 else 60.0)
      ensures old(spotPrice.Some? && now - spotTime < SPOT_CACHE_TTL) ==>
                spotPrice == old(spotPrice) && obtainedAt == old(obtainedAt) && fellBack == old(fellBack)
      ensures !old(spotPrice.Some? && now - spotTime < SPOT_CACHE_TTL) ==>
                && obtainedAt == now
                && var manual := match Lookup(config, "spot_manual") case Some(v) => v case None => 0.10;
                   var manualSource := match Lookup(config, "spot_source")
                                       case Some(v) => v.Floor == 2
                                       case None => false;
                   price == (if manualSource || external.None? then manual else external.value)
                   && (fellBack <==> !manualSource && external.None?)
    {
      if spotPrice.Some? && now - spotTime < SPOT_CACHE_TTL {
        return spotPrice.value;
      }
      var source := Lookup(config, "spot_source");
      var manualRow := Lookup(config, "spot_manual");
      var manual := if manualRow.Some? then manualRow.value else 0.10;
      obtainedAt, fellBack := now, false;
      if source.Some? && source.value.Floor == 2 {
        spotPrice, spotTime := Some(manual), now;
        return manual;
      }
      if external.Some? {
        spotPrice, spotTime := external, now;
        return external.value;
      }
      fellBack := true;
      spotPrice, spotTime := Some(manual), now - (SPOT_CACHE_TTL - FALLBACK_TTL);
      return manual;
    }

    method GetCostBasis() returns (total: real)
      ensures total == CostBasis(config)
    {
      total := 0.0;
      for i := 0 to |config|
        invariant total == CostBasis(config[..i])
      {
        assert config[..i + 1][..i] == config[..i];
        if config[i].key !in META_KEYS {
          total := total + config[i].value;
        }
      }
      assert config[..|config|] == config;
    }

    method GetTierRate(id: string, now: real, external: Option<real>) returns (rate: Option<TierRate>)
      requires Valid()
      modifies this`spotPrice, this`spotTime, this`obtainedAt, this`fellBack
      ensures Valid()
      ensures rate.None? <==> FindTier(tiers, id).None?
      ensures rate.None? ==> spotPrice == old(spotPrice) && spotTime == old(spotTime)
      ensures rate.Some? ==> FindTier(tiers, id).Some? && spotPrice.Some?
                             && var price := spotPrice.value + CostBasis(config) + FindTier(tiers, id).value.margin;
                                rate.value == TwiceRounded(price, TaxRate(config))
    {
      var tier := FindTier(tiers, id);
      if tier.None? { return None; }
      var spot := GetSpotPrice(now, external);
      var basis := GetCostBasis();
      var tax := TaxRate(config);
      rate := Some(TwiceRounded(spot + basis + tier.value.margin, tax));
    }

    method GetAllTierRates(now: real, external: Option<real>) returns (rates: map<string, TierRate>)
      requires Valid()
      modifies this`spotPrice, this`spotTime, this`obtainedAt, this`fellBack
      ensures Valid() && spotPrice.Some?
      ensures RatesAre(rates, tiers, spotPrice.value + CostBasis(config), TaxRate(config))
    {
      var spot := GetSpotPrice(now, external);
      rates := RatesAt(spot);
    }

    method RatesAt(spot: real) returns (rates: map<string, TierRate>)
      requires UniqueIds(tiers) && spotPrice == Some(spot)
      ensures RatesAre(rates, tiers, spotPrice.value + CostBasis(config), TaxRate(config))
    {
      var basis := GetCostBasis();
      var tax := TaxRate(config);
      rates := RatesOf(tiers, spot + basis, tax);
    }

    method PricingConfig(now: real, external: Option<real>) returns (rates: seq<TierRate>)
      requires Valid()
      modifies this`spotPrice, this`spotTime, this`obtainedAt, this`fellBack
      ensures Valid() && spotPrice.Some? && |rates| == |tiers|
      ensures forall i :: 0 <= i < |tiers| ==>
                rates[i] == OnceRounded(spotPrice.value + CostBasis(config) + tiers[i].margin, TaxRate(config))
    {
      var spot := GetSpotPrice(now, external);
      var basis := GetCostBasis();
      var tax := TaxRate(config);
      var table := tiers;
      rates := seq(|table|, i requires 0 <= i < |table| => OnceRounded(spot + basis + table[i].margin, tax));
    }
  }
}
