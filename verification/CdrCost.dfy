/** The cost of a Charge Detail Record: two successive roundings to whole cents. */
module CdrCost {
  import opened Rounding

  const VAT_RATE: real := 0.21
  const DEFAULT_RATE: real := 0.35

  /** Largest distance, in euro, between a recorded total and the unrounded price. */
  const TOTAL_ERROR: real := 0.01105

  /** The cost object of a CDR, amounts in whole cents. */
  datatype Cost = Cost(energyCost: int, vatAmount: int, total: int)

  function Calculate(energyKwh: real, tariffRate: real := DEFAULT_RATE): (c: Cost)
    ensures c.total == c.energyCost + c.vatAmount
    ensures energyKwh * tariffRate >= 0.0 ==> c.energyCost >= 0 && c.vatAmount >= 0
  {
    var energyCost := HalfUp(energyKwh * tariffRate * 100.0);
    var vatAmount := HalfUp(energyCost as real * VAT_RATE);
    Cost(energyCost, vatAmount, energyCost + vatAmount)
  }

  /** The amounts of a CDR: each rounded to the nearest cent, VAT on the rounded cost at 21 %. */
  predicate IsCost(energyKwh: real, tariffRate: real, c: Cost) {
    && NearestUp(100.0 * (energyKwh * tariffRate), c.energyCost)
    && NearestUp(0.21 * c.energyCost as real, c.vatAmount)
    && c.total == c.energyCost + c.vatAmount
  }

  /** The cost object says exactly that, and a session is billed at 0.35 euro per kWh. */
  lemma CalculateIff(energyKwh: real, tariffRate: real, c: Cost)
    ensures c == Calculate(energyKwh, tariffRate) <==> IsCost(energyKwh, tariffRate, c)
    ensures Calculate(energyKwh) == Calculate(energyKwh, 0.35)
  {
    var d, x := Calculate(energyKwh, tariffRate), energyKwh * tariffRate;
    assert x * 100.0 == 100.0 * x && d.energyCost == HalfUp(x * 100.0);
    if IsCost(energyKwh, tariffRate, c) {
      NearestUpIsOne(100.0 * x, c.energyCost, d.energyCost);
      NearestUpIsOne(0.21 * c.energyCost as real, c.vatAmount, d.vatAmount);
    }
  }

  /** 10 kWh: 3.50 and 0.74 VAT. */
  lemma TenKilowattHours()
    ensures Calculate(10.0) == Cost(350, 74, 424)
  {
    CalculateIff(10.0, 0.35, Cost(350, 74, 424));
  }

  /** The total in euro. */
  function Total(energyKwh: real, tariffRate: real): real {
    Calculate(energyKwh, tariffRate).total as real / 100.0
  }

  /** The price before any rounding, VAT included. */
  function Exact(energyKwh: real, tariffRate: real): real {
    (1.0 + VAT_RATE) * (energyKwh * tariffRate)
  }

  lemma TotalNearExact(energyKwh: real, tariffRate: real)
    ensures -TOTAL_ERROR <= Total(energyKwh, tariffRate) - Exact(energyKwh, tariffRate) <= TOTAL_ERROR
  {
  }

  /** The bound cannot be improved: 99/70 kWh at the default rate costs 0.61 where the exact price is 0.59895. */
  lemma TotalErrorIsAttained()
    ensures Total(99.0 / 70.0, DEFAULT_RATE) - Exact(99.0 / 70.0, DEFAULT_RATE) == TOTAL_ERROR
  {
  }

  lemma TotalMonotone(less: real, more: real, tariffRate: real)
    requires less <= more && tariffRate >= 0.0
    ensures Calculate(less, tariffRate).total <= Calculate(more, tariffRate).total
    ensures Total(less, tariffRate) <= Total(more, tariffRate)
  {
    EnergyCostMonotone(less, more, tariffRate);
    VatMonotone(Calculate(less, tariffRate).energyCost, Calculate(more, tariffRate).energyCost);
  }

  lemma EnergyCostMonotone(less: real, more: real, tariffRate: real)
    requires less <= more && tariffRate >= 0.0
    ensures HalfUp(less * tariffRate * 100.0) <= HalfUp(more * tariffRate * 100.0)
  {
    var x, y := ProductMonotone(less, more, tariffRate);
    HundredfoldMonotone(x, y);
  }

  lemma HundredfoldMonotone(x: real, y: real)
    requires x <= y
    ensures HalfUp(x * 100.0) <= HalfUp(y * 100.0)
  {
    HalfUpMonotone(x * 100.0, y * 100.0);
  }

  lemma VatMonotone(a: int, b: int)
    requires a <= b
    ensures HalfUp(a as real * VAT_RATE) <= HalfUp(b as real * VAT_RATE)
  {
    HalfUpMonotone(a as real * VAT_RATE, b as real * VAT_RATE);
  }

  lemma ProductMonotone(less: real, more: real, factor: real) returns (x: real, y: real)
    requires less <= more && factor >= 0.0
    ensures x == less * factor && y == more * factor && x <= y
  {
    x, y := less * factor, more * factor;
    var difference := (more - less) * factor;
    assert difference >= 0.0;
    assert difference == y - x;
  }

  function Sum(xs: seq<real>): real {
    if xs == [] then 0.0 else xs[0] + Sum(xs[1..])
  }

  /** The energy of several sessions billed one by one. */
  function SumOfTotals(energies: seq<real>, tariffRate: real): real {
    if energies == [] then 0.0 else Total(energies[0], tariffRate) + SumOfTotals(energies[1..], tariffRate)
  }

  lemma ExactAdds(x: real, y: real, tariffRate: real)
    ensures Exact(x + y, tariffRate) == Exact(x, tariffRate) + Exact(y, tariffRate)
  {
  }

  lemma {:induction false} SumOfTotalsNearExact(energies: seq<real>, tariffRate: real)
    ensures -TOTAL_ERROR * |energies| as real
         <= SumOfTotals(energies, tariffRate) - Exact(Sum(energies), tariffRate)
         <= TOTAL_ERROR * |energies| as real
  {
    if energies == [] {
      assert 0.0 * tariffRate == 0.0;
    } else {
      var rest := energies[1..];
      TotalNearExact(energies[0], tariffRate);
      SumOfTotalsNearExact(rest, tariffRate);
      ExactAdds(energies[0], Sum(rest), tariffRate);
      assert |energies| as real == |rest| as real + 1.0;
    }
  }

  /** Splitting an energy over n sessions moves the amount billed by at most (n + 1) times the error of one total. */
  lemma SplitBillsTheSame(energies: seq<real>, tariffRate: real)
    ensures -TOTAL_ERROR * (|energies| + 1) as real
         <= SumOfTotals(energies, tariffRate) - Total(Sum(energies), tariffRate)
         <= TOTAL_ERROR * (|energies| + 1) as real
  {
    SumOfTotalsNearExact(energies, tariffRate);
    TotalNearExact(Sum(energies), tariffRate);
  }
}
