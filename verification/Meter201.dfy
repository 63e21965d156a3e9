/** The OCPP 2.0.1 SampledValue parser, and where it agrees with the 1.6 one. */
module Meter201 {
  import opened Common
  import opened SampledValues
  import M16 = Meter16

  function Pow10(m: int): (p: real)
    ensures p > 0.0
    ensures m > 0 ==> p > 1.0
    ensures m == 0 ==> p == 1.0
    ensures m < 0 ==> p < 1.0
    decreases if m >= 0 then m else -m
  {
    if m == 0 then 1.0 else if m > 0 then 10.0 * Pow10(m - 1) else Pow10(m + 1) / 10.0
  }

  /** The powers of ten, negative ones included. */
  lemma PowersOfTen(m: int)
    ensures Pow10(0) == 1.0 && Pow10(m + 1) == 10.0 * Pow10(m)
  {
  }

  /** Any phase other than L2 and L3 is read as the first line. */
  function LineOf(phase: Option<string>): Line {
    if phase == Some("L2") then L2 else if phase == Some("L3") then L3 else L1
  }

  function SlotOf(s: Sample): Option<Slot> {
    if s.value.None? then None
    else match KindOf(s.measurand)
      case RegisterKind => Some(Register)
      case PowerKind => Some(Power)
      case SocKind => Some(Soc)
      case TemperatureKind => Some(Temperature)
      case VoltageKind => Some(Voltage(LineOf(s.phase)))
      case CurrentKind => Some(Current(LineOf(s.phase)))
      case OtherKind => None
  }

  function Scaled(s: Sample): real
    requires s.value.Some?
  {
    s.value.value * Pow10(s.multiplier)
  }

  function ScaledValue(s: Sample): real
    requires s.value.Some?
  {
    var val := Scaled(s);
    var kind := KindOf(s.measurand);
    if (kind == RegisterKind && s.unit == "Wh") || (kind == PowerKind && s.unit == "W") then val / 1000.0 else val
  }

  function WriteOf(s: Sample): Write {
    match SlotOf(s)
    case Some(slot) => Write(slot, ScaledValue(s))
    case None => Ignored
  }

  function Writes(samples: seq<Sample>): seq<Write> {
    seq(|samples|, i requires 0 <= i < |samples| => WriteOf(samples[i]))
  }

  /** The number the last sample for a slot writes there. */
  function Last(samples: seq<Sample>, slot: Slot): Option<real> {
    LastWrite(Writes(samples), |samples|, slot)
  }

  function ReadingsOf(samples: seq<Sample>): Readings {
    Readings(
      Last(samples, Register), Last(samples, Power), SocOf(Last(samples, Soc)), Last(samples, Temperature),
      IfPresent(Voltages(Writes(samples), |samples|)), IfPresent(Currents(Writes(samples), |samples|)))
  }

  /** The body of the loop. */
  method ParseSample(s: Sample, r0: Readings, v0: Phases, c0: Phases)
    returns (r: Readings, voltages: Phases, currents: Phases)
    ensures Applied(WriteOf(s), r0, v0, c0, r, voltages, currents)
  {
    r, voltages, currents := r0, v0, c0;
    if s.value.None? {
      return;
    }
    var val := Scaled(s);
    match KindOf(s.measurand) {
      case RegisterKind => r := r.(register := Some(if s.unit == "Wh" then val / 1000.0 else val));
      case PowerKind => r := r.(power := Some(if s.unit == "W" then val / 1000.0 else val));
      case SocKind => r := r.(soc := Some(Truncate(val)));
      case TemperatureKind => r := r.(temperature := Some(val));
      case VoltageKind => voltages := Set(voltages, LineOf(s.phase), val);
      case CurrentKind => currents := Set(currents, LineOf(s.phase), val);
      case OtherKind =>
    }
  }

  method ParseSampledValues(samples: seq<Sample>) returns (r: Readings)
    ensures r == ReadingsOf(samples)
  {
    r := Readings(None, None, None, None, None, None);
    var voltages, currents := NO_PHASES, NO_PHASES;
    ghost var writes := Writes(samples);
    for i := 0 to |samples|
      invariant ReadSoFar(writes, i, r, voltages, currents)
    {
      ghost var before, volts, amps := r, voltages, currents;
      r, voltages, currents := ParseSample(samples[i], r, voltages, currents);
      OneMoreWrite(writes, i, before, volts, amps, r, voltages, currents);
    }
    if voltages.Present() { r := r.(voltage := Some(voltages)); }
    if currents.Present() { r := r.(current := Some(currents)); }
  }

  // ---------------------------------------------------------------- what the parser reads

  /** Every phase but L2 and L3 is the first line. */
  predicate OnLine(phase: Option<string>, line: Line) {
    match line
    case L1 => phase !in {Some("L2"), Some("L3")}
    case L2 => phase == Some("L2")
    case L3 => phase == Some("L3")
  }

  /** The samples that write a slot, by measurand and phase. */
  ghost predicate Fills(s: Sample, slot: Slot) {
    s.value.Some?
    && match slot
       case Register => IsEnergy(s.measurand)
       case Power => IsPower(s.measurand)
       case Soc => s.measurand == Some("SoC")
       case Temperature => s.measurand == Some("Temperature")
       case Voltage(line) => IsVoltage(s.measurand) && OnLine(s.phase, line)
       case Current(line) => IsCurrent(s.measurand) && OnLine(s.phase, line)
  }

  /** The number a sample says: energy in kWh and power in kW. */
  ghost predicate Says(s: Sample, x: real) {
    s.value.Some?
    && var v := s.value.value * Pow10(s.multiplier);
       if IsEnergy(s.measurand) && s.unit == "Wh" then x == v / 1000.0
       else if IsPower(s.measurand) && s.unit == "W" then x == v / 1000.0
       else x == v
  }

  /** x is what the last sample for the slot says, None when there is none. */
  ghost predicate LastSays(samples: seq<Sample>, slot: Slot, x: Option<real>) {
    match x
    case None => forall i :: 0 <= i < |samples| ==> !Fills(samples[i], slot)
    case Some(v) =>
      exists i :: 0 <= i < |samples| && Fills(samples[i], slot) && Says(samples[i], v)
                  && forall j :: i < j < |samples| ==> !Fills(samples[j], slot)
  }

  ghost predicate PhasesSay(samples: seq<Sample>, p: Option<Phases>, l1: Slot, l2: Slot, l3: Slot) {
    match p
    case None => LastSays(samples, l1, None) && LastSays(samples, l2, None) && LastSays(samples, l3, None)
    case Some(q) =>
      && LastSays(samples, l1, q.l1) && LastSays(samples, l2, q.l2) && LastSays(samples, l3, q.l3)
      && (q.l1.Some? || q.l2.Some? || q.l3.Some?)
  }

  /** A percentage, cut towards zero. */
  ghost predicate SocSays(samples: seq<Sample>, soc: Option<int>) {
    match soc
    case None => LastSays(samples, Soc, None)
    case Some(n) =>
      exists x :: LastSays(samples, Soc, Some(x))
                  && if x >= 0.0 then n as real <= x < n as real + 1.0 else n as real - 1.0 < x <= n as real
  }

  lemma SlotIff(s: Sample, slot: Slot)
    ensures SlotOf(s) == Some(slot) <==> Fills(s, slot)
    ensures s.value.Some? ==> Says(s, ScaledValue(s))
  {
    KindTable(s.measurand);
  }

  lemma LastIsSaid(samples: seq<Sample>, slot: Slot)
    ensures LastSays(samples, slot, Last(samples, slot))
  {
    var writes := Writes(samples);
    var i := LastWriteIs(writes, |samples|, slot);
    forall j | 0 <= j < |samples| ensures Hits(writes[j], slot) <==> Fills(samples[j], slot) {
      SlotIff(samples[j], slot);
    }
    if Last(samples, slot).Some? {
      SlotIff(samples[i], slot);
    }
  }

  lemma PhasesAreSaid(samples: seq<Sample>)
    ensures PhasesSay(samples, IfPresent(Voltages(Writes(samples), |samples|)), Voltage(L1), Voltage(L2), Voltage(L3))
    ensures PhasesSay(samples, IfPresent(Currents(Writes(samples), |samples|)), Current(L1), Current(L2), Current(L3))
  {
    LastIsSaid(samples, Voltage(L1));
    LastIsSaid(samples, Voltage(L2));
    LastIsSaid(samples, Voltage(L3));
    LastIsSaid(samples, Current(L1));
    LastIsSaid(samples, Current(L2));
    LastIsSaid(samples, Current(L3));
  }

  /** All readings of a meter value, by its samples. */
  ghost predicate ReadingsSay(samples: seq<Sample>, r: Readings) {
    && LastSays(samples, Register, r.register) && LastSays(samples, Temperature, r.temperature)
    && SocSays(samples, r.soc)
    && PhasesSay(samples, r.voltage, Voltage(L1), Voltage(L2), Voltage(L3))
    && PhasesSay(samples, r.current, Current(L1), Current(L2), Current(L3))
    && LastSays(samples, Power, r.power)
  }

  lemma SocIsSaid(samples: seq<Sample>)
    ensures SocSays(samples, SocOf(Last(samples, Soc)))
  {
    LastIsSaid(samples, Soc);
  }

  lemma ReadingsAreSaid(samples: seq<Sample>)
    ensures ReadingsSay(samples, ReadingsOf(samples))
  {
    LastIsSaid(samples, Register);
    LastIsSaid(samples, Power);
    SocIsSaid(samples);
    LastIsSaid(samples, Temperature);
    PhasesAreSaid(samples);
  }

  // ---------------------------------------------------------------- agreement with 1.6

  /** Phase absent or L1, L2, L3. */
  predicate PlainPhase(phase: Option<string>) {
    phase in {None, Some(""), Some("L1"), Some("L2"), Some("L3")}
  }

  /** The two parsers put a voltage or current sample in the same slot exactly when its phase is plain. */
  lemma SameSlotIff(s: Sample)
    requires s.value.Some? && KindOf(s.measurand) in {VoltageKind, CurrentKind}
    ensures SlotOf(s) == M16.SlotOf(s) <==> PlainPhase(s.phase)
  {
  }

  /** They read the same number exactly when there is nothing to scale. */
  lemma SameValueIff(s: Sample)
    requires s.value.Some?
    ensures ScaledValue(s) == M16.ScaledValue(s) <==> s.multiplier == 0 || s.value.value == 0.0
  {
    var v, p := s.value.value, Pow10(s.multiplier);
    FixedPoint(v, p);
    assert Scaled(s) == v * p;
    assert p == 1.0 <==> s.multiplier == 0;
    Thousandths(v * p, v);
  }

  lemma Thousandths(x: real, y: real)
    ensures x / 1000.0 == y / 1000.0 <==> x == y
  {
  }

  lemma FixedPoint(v: real, p: real)
    ensures v * p == v <==> v == 0.0 || p == 1.0
  {
    assert v * p - v == v * (p - 1.0);
    if v != 0.0 && p != 1.0 {
      assert v * (p - 1.0) != 0.0;
    }
  }

  lemma SameWrites(samples: seq<Sample>)
    requires forall s :: s in samples ==> PlainPhase(s.phase) && s.multiplier == 0
    ensures Writes(samples) == M16.Writes(samples)
  {
    forall i | 0 <= i < |samples| ensures WriteOf(samples[i]) == M16.WriteOf(samples[i]) {
      if samples[i].value.Some? {
        SameValueIff(samples[i]);
      }
    }
  }

  /**
   On plain samples the two parsers agree on everything a charger sent.  When no power was sent, 1.6
   adds the rounded sum of V x I, exactly when both are present and the sum is positive.
   */
  lemma ParsersAgree(samples: seq<Sample>)
    requires forall s :: s in samples ==> PlainPhase(s.phase) && s.multiplier == 0
    ensures var r16, r201 := M16.ReadingsOf(samples), ReadingsOf(samples);
            && r16.(power := None) == r201.(power := None)
            && (r201.power.Some? ==> r16 == r201)
            && (r201.power.None? ==> M16.IsFallback(r201.voltage, r201.current, r16.power))
  {
    SameWrites(samples);
    M16.FallbackIs(Voltages(Writes(samples), |samples|), Currents(Writes(samples), |samples|));
  }

  /** Without the phase condition they differ: 2.0.1 files a line-to-neutral voltage under L1, 1.6 drops it. */
  lemma OtherPhasesDisagree()
    ensures var s := Sample(Some("Voltage"), Some(230.0), Some("L1-N"), "V", 0);
            M16.ReadingsOf([s]).voltage == None && ReadingsOf([s]).voltage == Some(Phases(Some(230.0), None, None))
  {
    var s := Sample(Some("Voltage"), Some(230.0), Some("L1-N"), "V", 0);
    VoltageIsVoltage();
    assert Pow10(0) == 1.0;
    assert M16.WriteOf(s) == Ignored && WriteOf(s) == Write(Voltage(L1), 230.0);
  }

  lemma VoltageIsVoltage()
    ensures KindOf(Some("Voltage")) == VoltageKind
  {
  }

  lemma {:induction false} NotIn(text: string, part: string)
    requires |text| < |part|
    ensures !Contains(text, part)
  {
    if text != [] {
      NotIn(text[1..], part);
    }
  }
}
