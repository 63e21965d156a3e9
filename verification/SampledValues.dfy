/**
 SampledValue lists.  Every sample either writes one slot of the readings or is ignored, and a later
 sample overwrites an earlier one, so a parser is determined by the last sample written to each slot.
 */
module SampledValues {
  import opened Common

  /**
   One SampledValue.  `value` is None when the text is not a number; a missing value reads as 0.
   `unit` and `multiplier` are "" and 0 when missing; `multiplier` exists in OCPP 2.0.1 only.
   */
  datatype Sample = Sample(
    measurand: Option<string>, value: Option<real>, phase: Option<string>, unit: string, multiplier: int)

  datatype Line = L1 | L2 | L3

  datatype Slot = Register | Power | Soc | Temperature | Voltage(line: Line) | Current(line: Line)

  datatype Phases = Phases(l1: Option<real>, l2: Option<real>, l3: Option<real>) {
    predicate Present() {
      l1.Some? || l2.Some? || l3.Some?
    }
  }

  datatype Readings = Readings(
    register: Option<real>,
    power: Option<real>,
    soc: Option<int>,
    temperature: Option<real>,
    voltage: Option<Phases>,
    current: Option<Phases>)

  datatype Kind = RegisterKind | PowerKind | SocKind | TemperatureKind | VoltageKind | CurrentKind | OtherKind

  /** Python's `part in text`. */
  predicate Contains(text: string, part: string) {
    part <= text || (text != [] && Contains(text[1..], part))
  }

  /** The measurand tests both parsers make, in their order. */
  function KindOf(measurand: Option<string>): Kind {
    var m := match measurand case Some(m) => m case None => "Energy.Active.Import" + ".Register";
    if Contains(m, "Energy.Active.Import") then RegisterKind
    else if Contains(m, "Power.Active.Import") then PowerKind
    else if m == "SoC" then SocKind
    else if m == "Temperature" then TemperatureKind
    else if Contains(m, "Voltage") then VoltageKind
    else if Contains(m, "Current.Import") then CurrentKind
    else OtherKind
  }

  // ---------------------------------------------------------------- the measurand table

  /** `part` stands somewhere in `text`. */
  ghost predicate Names(text: string, part: string) {
    exists a: string, b: string :: text == a + part + b
  }

  lemma {:induction false} NamedIsFound(a: string, part: string, b: string)
    ensures Contains(a + part + b, part)
  {
    if a != "" {
      assert (a + part + b)[1..] == a[1..] + part + b;
      NamedIsFound(a[1..], part, b);
    } else {
      assert a + part + b == part + b;
    }
  }

  lemma {:induction false} FoundIsNamed(text: string, part: string)
    requires Contains(text, part)
    ensures Names(text, part)
  {
    if part <= text {
      assert text == "" + part + text[|part|..];
    } else {
      FoundIsNamed(text[1..], part);
      var a: string, b: string :| text[1..] == a + part + b;
      assert text == ([text[0]] + a) + part + b;
    }
  }

  lemma ContainsIff(text: string, part: string)
    ensures Contains(text, part) <==> Names(text, part)
  {
    if Contains(text, part) {
      FoundIsNamed(text, part);
    }
    if Names(text, part) {
      var a: string, b: string :| text == a + part + b;
      NamedIsFound(a, part, b);
    }
  }

  /** An absent measurand is an energy register. */
  ghost predicate IsEnergy(m: Option<string>) {
    m.None? || Names(m.value, "Energy.Active.Import")
  }

  ghost predicate IsPower(m: Option<string>) {
    !IsEnergy(m) && Names(m.value, "Power.Active.Import")
  }

  ghost predicate IsVoltage(m: Option<string>) {
    !IsEnergy(m) && !IsPower(m) && Names(m.value, "Voltage")
  }

  ghost predicate IsCurrent(m: Option<string>) {
    !IsEnergy(m) && !IsPower(m) && !IsVoltage(m) && Names(m.value, "Current.Import")
  }

  lemma KindTable(m: Option<string>)
    ensures KindOf(m) == RegisterKind <==> IsEnergy(m)
    ensures KindOf(m) == PowerKind <==> IsPower(m)
    ensures KindOf(m) == SocKind <==> m == Some("SoC")
    ensures KindOf(m) == TemperatureKind <==> m == Some("Temperature")
    ensures KindOf(m) == VoltageKind <==> IsVoltage(m)
    ensures KindOf(m) == CurrentKind <==> IsCurrent(m)
  {
    if m.None? {
      AbsentIsEnergy();
    } else {
      ContainsIff(m.value, "Energy.Active.Import");
      ContainsIff(m.value, "Power.Active.Import");
      ContainsIff(m.value, "Voltage");
      ContainsIff(m.value, "Current.Import");
      if m.value in {"SoC", "Temperature"} {
        PlainNames(m.value);
      }
    }
  }

  lemma AbsentIsEnergy()
    ensures KindOf(None) == RegisterKind
  {
    var part, rest := "Energy.Active.Import", ".Register";
    assert "" + part + rest == part + rest;
    NamedIsFound("", part, rest);
  }

  lemma PlainNames(text: string)
    requires text in {"SoC", "Temperature"}
    ensures !Names(text, "Energy.Active.Import") && !Names(text, "Power.Active.Import")
    ensures !Names(text, "Voltage") && !Names(text, "Current.Import")
  {
    NotNamed(text, "Energy.Active.Import", 6);
    NotNamed(text, "Power.Active.Import", 5);
    NotNamed(text, "Voltage", 0);
    NotNamed(text, "Current.Import", 7);
  }

  lemma NotNamed(text: string, part: string, i: nat)
    requires i < |part| && part[i] !in text
    ensures !Names(text, part)
  {
    forall a: string, b: string ensures text != a + part + b {
      assert (a + part + b)[|a| + i] == part[i];
    }
  }

  /** Python's int(): towards zero. */
  function Truncate(x: real): (n: int)
    ensures if x >= 0.0 then n as real <= x < n as real + 1.0 else n as real - 1.0 < x <= n as real
  {
    if x >= 0.0 then x.Floor else -((-x).Floor)
  }

  function Set(p: Phases, line: Line, v: real): Phases {
    match line
    case L1 => p.(l1 := Some(v))
    case L2 => p.(l2 := Some(v))
    case L3 => p.(l3 := Some(v))
  }

  // ---------------------------------------------------------------- the last sample of a slot

  /** What a parser does with a sample. */
  datatype Write = Ignored | Write(slot: Slot, number: real)

  /** The number the last of the first n writes puts into a slot. */
  function LastWrite(writes: seq<Write>, n: nat, slot: Slot): Option<real>
    requires n <= |writes|
  {
    if n == 0 then None
    else if writes[n - 1].Write? && writes[n - 1].slot == slot then Some(writes[n - 1].number)
    else LastWrite(writes, n - 1, slot)
  }

  predicate Hits(w: Write, slot: Slot) {
    w.Write? && w.slot == slot
  }

  lemma {:induction false} LastWriteIs(writes: seq<Write>, n: nat, slot: Slot) returns (i: nat)
    requires n <= |writes|
    ensures var x := LastWrite(writes, n, slot);
            if x.None? then forall j :: 0 <= j < n ==> !Hits(writes[j], slot)
            else i < n && writes[i] == Write(slot, x.value) && forall j :: i < j < n ==> !Hits(writes[j], slot)
  {
    i := 0;
    if n > 0 {
      if Hits(writes[n - 1], slot) {
        i := n - 1;
      } else {
        i := LastWriteIs(writes, n - 1, slot);
      }
    }
  }

  function Voltages(writes: seq<Write>, n: nat): Phases
    requires n <= |writes|
  {
    Phases(LastWrite(writes, n, Voltage(L1)), LastWrite(writes, n, Voltage(L2)), LastWrite(writes, n, Voltage(L3)))
  }

  function Currents(writes: seq<Write>, n: nat): Phases
    requires n <= |writes|
  {
    Phases(LastWrite(writes, n, Current(L1)), LastWrite(writes, n, Current(L2)), LastWrite(writes, n, Current(L3)))
  }


  function IfPresent(p: Phases): Option<Phases> {
    if p.Present() then Some(p) else None
  }

  function SocOf(v: Option<real>): Option<int> {
    match v case Some(x) => Some(Truncate(x)) case None => None
  }

  const NO_PHASES := Phases(None, None, None)

  /** What one write does to the readings and phases collected so far. */
  predicate Applied(w: Write, r0: Readings, v0: Phases, c0: Phases, r: Readings, v: Phases, c: Phases) {
    match w
    case Ignored => r == r0 && v == v0 && c == c0
    case Write(Register, x) => r == r0.(register := Some(x)) && v == v0 && c == c0
    case Write(Power, x) => r == r0.(power := Some(x)) && v == v0 && c == c0
    case Write(Soc, x) => r == r0.(soc := Some(Truncate(x))) && v == v0 && c == c0
    case Write(Temperature, x) => r == r0.(temperature := Some(x)) && v == v0 && c == c0
    case Write(Voltage(line), x) => r == r0 && v == Set(v0, line, x) && c == c0
    case Write(Current(line), x) => r == r0 && v == v0 && c == Set(c0, line, x)
  }

  /** The loop after n samples. */
  predicate ReadSoFar(writes: seq<Write>, n: nat, r: Readings, v: Phases, c: Phases) {
    && n <= |writes|
    && r == Readings(LastWrite(writes, n, Register), LastWrite(writes, n, Power), SocOf(LastWrite(writes, n, Soc)),
                     LastWrite(writes, n, Temperature), None, None)
    && v == Voltages(writes, n) && c == Currents(writes, n)
  }

  lemma OneMoreWrite(writes: seq<Write>, n: nat, r0: Readings, v0: Phases, c0: Phases, r: Readings, v: Phases,
                     c: Phases)
    requires n < |writes| && ReadSoFar(writes, n, r0, v0, c0) && Applied(writes[n], r0, v0, c0, r, v, c)
    ensures ReadSoFar(writes, n + 1, r, v, c)
  {
  }
}
