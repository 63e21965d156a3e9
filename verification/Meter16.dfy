/** OCPP 1.6 meter values: the session delta of a cumulative register, and the SampledValue parser. */
module Meter16 {
  import opened Common
  import opened Rounding
  import opened SampledValues

  // ---------------------------------------------------------------- session energy

  /** Energy of a session in kWh, from the register in kWh and the meterStart in Wh. */
  function SessionEnergy(registerKwh: real, meterStartWh: real): (kwh: real)
    ensures kwh >= 0.0
    ensures kwh > 0.0 <==> meterStartWh > 0.0 && registerKwh > meterStartWh / 1000.0
  {
    if registerKwh <= 0.0 || meterStartWh <= 0.0 then 0.0
    else if registerKwh - meterStartWh / 1000.0 > 0.0 then registerKwh - meterStartWh / 1000.0
    else 0.0
  }

  /** One charge on a meter: meterStart and meterStop, in Wh. */
  datatype Charge = Charge(start: real, stop: real)

  /** Successive charges on one meter whose register never decreases. */
  ghost predicate Chronological(charges: seq<Charge>) {
    && (forall i :: 0 <= i < |charges| ==> charges[i].start <= charges[i].stop)
    && (forall i :: 0 < i < |charges| ==> charges[i - 1].stop <= charges[i].start)
  }

  function Billed(c: Charge): real {
    SessionEnergy(c.stop / 1000.0, c.start)
  }

  function TotalBilled(charges: seq<Charge>): real {
    if charges == [] then 0.0 else TotalBilled(charges[..|charges| - 1]) + Billed(charges[|charges| - 1])
  }

  /** Wh that passed between two sessions. */
  function Idle(charges: seq<Charge>): real {
    if |charges| < 2 then 0.0
    else Idle(charges[..|charges| - 1]) + charges[|charges| - 1].start - charges[|charges| - 2].stop
  }

  /** Wh of the sessions whose meterStart is not positive: those are billed as zero. */
  function Unmetered(charges: seq<Charge>): real {
    if charges == [] then 0.0
    else
      var c := charges[|charges| - 1];
      Unmetered(charges[..|charges| - 1]) + (if c.start <= 0.0 then c.stop - c.start else 0.0)
  }

  /** Every Wh between the first start and the last stop is billed once, or idle, or unmetered. */
  lemma {:induction false} EnergyConserved(charges: seq<Charge>)
    requires Chronological(charges) && charges != []
    ensures 1000.0 * TotalBilled(charges) + Idle(charges) + Unmetered(charges)
         == charges[|charges| - 1].stop - charges[0].start
    ensures Idle(charges) >= 0.0 && Unmetered(charges) >= 0.0
  {
    var init := charges[..|charges| - 1];
    if init == [] {
      assert TotalBilled(init) == Unmetered(init) == 0.0;
    } else {
      EnergyConserved(init);
    }
  }

  /** Never more than the register moved; exactly that much iff nothing was idle or unmetered. */
  lemma BilledAtMostDelivered(charges: seq<Charge>)
    requires Chronological(charges) && charges != []
    ensures var moved := (charges[|charges| - 1].stop - charges[0].start) / 1000.0;
            && TotalBilled(charges) <= moved
            && (TotalBilled(charges) == moved <==> Idle(charges) == 0.0 && Unmetered(charges) == 0.0)
  {
    EnergyConserved(charges);
  }

  /** Back-to-back sessions from a positive reading bill exactly the register's movement. */
  lemma {:induction false} BackToBackBillsAll(charges: seq<Charge>)
    requires Chronological(charges) && charges != [] && charges[0].start > 0.0
    requires forall i :: 0 < i < |charges| ==> charges[i - 1].stop == charges[i].start
    ensures 1000.0 * TotalBilled(charges) == charges[|charges| - 1].stop - charges[0].start
    ensures charges[|charges| - 1].start > 0.0
  {
    var init := charges[..|charges| - 1];
    if init == [] {
      assert TotalBilled(init) == 0.0;
    } else {
      BackToBackBillsAll(init);
    }
  }

  /** Splitting at an intermediate reading keeps the total, except when an unmetered head is cut off. */
  lemma SplitPreservesEnergy(start: real, middle: real, stop: real)
    requires start <= middle <= stop
    ensures Billed(Charge(start, middle)) + Billed(Charge(middle, stop)) == Billed(Charge(start, stop))
       <==> start > 0.0 || middle <= 0.0 || middle == stop
  {
  }

  /** The documented delta, (meterStop - meterStart) / 1000, is what is billed exactly in these cases. */
  lemma DocumentedDeltaIff(c: Charge)
    ensures Billed(c) == (c.stop - c.start) / 1000.0 <==> (c.start > 0.0 && c.stop >= c.start) || c.stop == c.start
  {
  }

  // ---------------------------------------------------------------- parser

  function LineOf(phase: Option<string>): Option<Line> {
    if phase == Some("L1") then Some(L1)
    else if phase == Some("L2") then Some(L2)
    else if phase == Some("L3") then Some(L3)
    else if phase == None || phase == Some("") then Some(L1)
    else None
  }

  /** The slot a sample writes; None when it is ignored. */
  function SlotOf(s: Sample): Option<Slot> {
    if s.value.None? then None
    else match KindOf(s.measurand)
      case RegisterKind => Some(Register)
      case PowerKind => Some(Power)
      case SocKind => Some(Soc)
      case TemperatureKind => Some(Temperature)
      case VoltageKind => (match LineOf(s.phase) case Some(line) => Some(Voltage(line)) case None => None)
      case CurrentKind => (match LineOf(s.phase) case Some(line) => Some(Current(line)) case None => None)
      case OtherKind => None
  }

  /** The number it writes there: Wh and W become kWh and kW. */
  function ScaledValue(s: Sample): real
    requires s.value.Some?
  {
    var kind := KindOf(s.measurand);
    if (kind == RegisterKind && s.unit == "Wh") || (kind == PowerKind && s.unit == "W")
    then s.value.value / 1000.0
    else s.value.value
  }

  function WriteOf(s: Sample): Write {
    match SlotOf(s)
    case Some(slot) => Write(slot, ScaledValue(s))
    case None => Ignored
  }

  function Writes(samples: seq<Sample>): seq<Write> {
    seq(|samples|, i requires 0 <= i < |samples| => WriteOf(samples[i]))
  }

  /** The number the last sample for a slot writes there. */
  function Last(samples: seq<Sample>, slot: Slot): Option<real> {
    LastWrite(Writes(samples), |samples|, slot)
  }

  function OrZero(x: Option<real>): real {
    match x case Some(v) => v case None => 0.0
  }

  /** Watts from the phases that report; a missing phase counts as zero. */
  function PhaseWatts(v: Phases, c: Phases): real {
    OrZero(v.l1) * OrZero(c.l1) + OrZero(v.l2) * OrZero(c.l2) + OrZero(v.l3) * OrZero(c.l3)
  }

  /** Power computed from V x I, rounded to whole watts; None unless it is positive. */
  function FallbackPower(v: Phases, c: Phases): (p: Option<real>)
    ensures p.Some? <==> v.Present() && c.Present() && PhaseWatts(v, c) > 0.0
  {
    if v.Present() && c.Present() && PhaseWatts(v, c) > 0.0
    then Some(HalfEven(PhaseWatts(v, c)) as real / 1000.0)
    else None
  }

  function ReadingsOf(samples: seq<Sample>): Readings {
    var v, c := Voltages(Writes(samples), |samples|), Currents(Writes(samples), |samples|);
    var sent := Last(samples, Power);
    Readings(
      Last(samples, Register), if sent.Some? then sent else FallbackPower(v, c),
      SocOf(Last(samples, Soc)), Last(samples, Temperature), IfPresent(v), IfPresent(c))
  }

  /** The body of the loop. */
  method ParseSample(s: Sample, r0: Readings, v0: Phases, c0: Phases)
    returns (r: Readings, voltages: Phases, currents: Phases)
    ensures Applied(WriteOf(s), r0, v0, c0, r, voltages, currents)
  {
    r, voltages, currents := r0, v0, c0;
    if s.value.None? {
      return;
    }
    var val := s.value.value;
    match KindOf(s.measurand) {
      case RegisterKind => r := r.(register := Some(if s.unit == "Wh" then val / 1000.0 else val));
      case PowerKind => r := r.(power := Some(if s.unit == "W" then val / 1000.0 else val));
      case SocKind => r := r.(soc := Some(Truncate(val)));
      case TemperatureKind => r := r.(temperature := Some(val));
      case VoltageKind =>
        var line := LineOf(s.phase);
        if line.Some? { voltages := Set(voltages, line.value, val); }
      case CurrentKind =>
        var line := LineOf(s.phase);
        if line.Some? { currents := Set(currents, line.value, val); }
      case OtherKind =>
    }
  }

  method ParseSampledValues(samples: seq<Sample>) returns (r: Readings)
    ensures r == ReadingsOf(samples)
  {
    r := Readings(None, None, None, None, None, None);
    var voltages, currents := NO_PHASES, NO_PHASES;
    ghost var writes := Writes(samples);
    for i := 0 to |samples|
      invariant ReadSoFar(writes, i, r, voltages, currents)
    {
      ghost var before, volts, amps := r, voltages, currents;
      r, voltages, currents := ParseSample(samples[i], r, voltages, currents);
      OneMoreWrite(writes, i, before, volts, amps, r, voltages, currents);
    }
    if voltages.Present() { r := r.(voltage := Some(voltages)); }
    if currents.Present() { r := r.(current := Some(currents)); }
    if r.power.None? && voltages.Present() && currents.Present() {
      var watts := PhaseWatts(voltages, currents);
      if watts > 0.0 {
        r := r.(power := Some(HalfEven(watts) as real / 1000.0));
      }
    }
  }

  // ---------------------------------------------------------------- what the parser reads

  /** An absent or empty phase is the first line; other phases are no line. */
  predicate OnLine(phase: Option<string>, line: Line) {
    match line
    case L1 => phase in {None, Some(""), Some("L1")}
    case L2 => phase == Some("L2")
    case L3 => phase == Some("L3")
  }

  /** The samples that write a slot, by measurand and phase. */
  ghost predicate Fills(s: Sample, slot: Slot) {
    s.value.Some?
    && match slot
       case Register => IsEnergy(s.measurand)
       case Power => IsPower(s.measurand)
       case Soc => s.measurand == Some("SoC")
       case Temperature => s.measurand == Some("Temperature")
       case Voltage(line) => IsVoltage(s.measurand) && OnLine(s.phase, line)
       case Current(line) => IsCurrent(s.measurand) && OnLine(s.phase, line)
  }

  /** The number a sample says: energy in kWh and power in kW. */
  ghost predicate Says(s: Sample, x: real) {
    s.value.Some?
    && var v := s.value.value;
       if IsEnergy(s.measurand) && s.unit == "Wh" then x == v / 1000.0
       else if IsPower(s.measurand) && s.unit == "W" then x == v / 1000.0
       else x == v
  }

  /** x is what the last sample for the slot says, None when there is none. */
  ghost predicate LastSays(samples: seq<Sample>, slot: Slot, x: Option<real>) {
    match x
    case None => forall i :: 0 <= i < |samples| ==> !Fills(samples[i], slot)
    case Some(v) =>
      exists i :: 0 <= i < |samples| && Fills(samples[i], slot) && Says(samples[i], v)
                  && forall j :: i < j < |samples| ==> !Fills(samples[j], slot)
  }

  ghost predicate PhasesSay(samples: seq<Sample>, p: Option<Phases>, l1: Slot, l2: Slot, l3: Slot) {
    match p
    case None => LastSays(samples, l1, None) && LastSays(samples, l2, None) && LastSays(samples, l3, None)
    case Some(q) =>
      && LastSays(samples, l1, q.l1) && LastSays(samples, l2, q.l2) && LastSays(samples, l3, q.l3)
      && (q.l1.Some? || q.l2.Some? || q.l3.Some?)
  }

  /** A percentage, cut towards zero. */
  ghost predicate SocSays(samples: seq<Sample>, soc: Option<int>) {
    match soc
    case None => LastSays(samples, Soc, None)
    case Some(n) =>
      exists x :: LastSays(samples, Soc, Some(x))
                  && if x >= 0.0 then n as real <= x < n as real + 1.0 else n as real - 1.0 < x <= n as real
  }

  lemma SlotIff(s: Sample, slot: Slot)
    ensures SlotOf(s) == Some(slot) <==> Fills(s, slot)
    ensures s.value.Some? ==> Says(s, ScaledValue(s))
  {
    KindTable(s.measurand);
  }

  lemma LastIsSaid(samples: seq<Sample>, slot: Slot)
    ensures LastSays(samples, slot, Last(samples, slot))
  {
    var writes := Writes(samples);
    var i := LastWriteIs(writes, |samples|, slot);
    forall j | 0 <= j < |samples| ensures Hits(writes[j], slot) <==> Fills(samples[j], slot) {
      SlotIff(samples[j], slot);
    }
    if Last(samples, slot).Some? {
      SlotIff(samples[i], slot);
    }
  }

  ghost predicate IsProduct(v: Option<real>, c: Option<real>, watts: real) {
    watts == if v.Some? && c.Some? then v.value * c.value else 0.0
  }

  /** Without a power sample: the sum of V x I over the phases, to the watt and even on a tie, if it is positive. */
  ghost predicate IsFallback(v: Option<Phases>, c: Option<Phases>, power: Option<real>) {
    if v.None? || c.None? then power.None?
    else
      forall w1, w2, w3 ::
        IsProduct(v.value.l1, c.value.l1, w1) && IsProduct(v.value.l2, c.value.l2, w2)
        && IsProduct(v.value.l3, c.value.l3, w3) ==>
          if w1 + w2 + w3 <= 0.0 then power.None? else power.Some? && ToTheWatt(w1 + w2 + w3, power.value)
  }

  predicate ToTheWatt(watts: real, kw: real) {
    (1000.0 * kw).Floor as real == 1000.0 * kw && NearestEven(watts, (1000.0 * kw).Floor)
  }

  lemma PhasesAreSaid(samples: seq<Sample>)
    ensures PhasesSay(samples, IfPresent(Voltages(Writes(samples), |samples|)), Voltage(L1), Voltage(L2), Voltage(L3))
    ensures PhasesSay(samples, IfPresent(Currents(Writes(samples), |samples|)), Current(L1), Current(L2), Current(L3))
  {
    LastIsSaid(samples, Voltage(L1));
    LastIsSaid(samples, Voltage(L2));
    LastIsSaid(samples, Voltage(L3));
    LastIsSaid(samples, Current(L1));
    LastIsSaid(samples, Current(L2));
    LastIsSaid(samples, Current(L3));
  }

  /** All readings of a message, by its samples. */
  ghost predicate ReadingsSay(samples: seq<Sample>, r: Readings) {
    && LastSays(samples, Register, r.register) && LastSays(samples, Temperature, r.temperature)
    && SocSays(samples, r.soc)
    && PhasesSay(samples, r.voltage, Voltage(L1), Voltage(L2), Voltage(L3))
    && PhasesSay(samples, r.current, Current(L1), Current(L2), Current(L3))
    && (if LastSays(samples, Power, None) then IsFallback(r.voltage, r.current, r.power)
        else LastSays(samples, Power, r.power))
  }

  lemma SocIsSaid(samples: seq<Sample>)
    ensures SocSays(samples, SocOf(Last(samples, Soc)))
  {
    LastIsSaid(samples, Soc);
  }

  lemma ReadingsAreSaid(samples: seq<Sample>)
    ensures ReadingsSay(samples, ReadingsOf(samples))
  {
    LastIsSaid(samples, Register);
    LastIsSaid(samples, Power);
    SocIsSaid(samples);
    LastIsSaid(samples, Temperature);
    PhasesAreSaid(samples);
    FallbackIs(Voltages(Writes(samples), |samples|), Currents(Writes(samples), |samples|));
  }

  lemma ProductIs(v: Option<real>, c: Option<real>, watts: real)
    requires IsProduct(v, c, watts)
    ensures watts == OrZero(v) * OrZero(c)
  {
  }

  lemma ProductsSum(v: Phases, c: Phases, w1: real, w2: real, w3: real)
    requires IsProduct(v.l1, c.l1, w1) && IsProduct(v.l2, c.l2, w2) && IsProduct(v.l3, c.l3, w3)
    ensures w1 + w2 + w3 == PhaseWatts(v, c)
  {
    ProductIs(v.l1, c.l1, w1);
    ProductIs(v.l2, c.l2, w2);
    ProductIs(v.l3, c.l3, w3);
  }

  lemma WholeWatts(watts: real)
    ensures ToTheWatt(watts, HalfEven(watts) as real / 1000.0)
  {
    var n := HalfEven(watts);
    assert 1000.0 * (n as real / 1000.0) == n as real;
  }

  lemma FallbackIs(v: Phases, c: Phases)
    ensures IsFallback(IfPresent(v), IfPresent(c), FallbackPower(v, c))
  {
    WholeWatts(PhaseWatts(v, c));
    forall w1, w2, w3 | IsProduct(v.l1, c.l1, w1) && IsProduct(v.l2, c.l2, w2) && IsProduct(v.l3, c.l3, w3)
      ensures w1 + w2 + w3 == PhaseWatts(v, c)
    {
      ProductsSum(v, c, w1, w2, w3);
    }
  }
}
