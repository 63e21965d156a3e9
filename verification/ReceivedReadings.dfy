/** Energy and peak power of a session, in terms of the messages of the run: what its charger has sent for it. */
module ReceivedReadings {
  import opened Common
  import opened Meter16
  import opened ChargingState
  import opened ChargingInvariants
  import opened ChargingSteps

  // ---------------------------------------------------------------- OCPP 2.0.1

  /** The reading a step takes in for row sid, read off its message. */
  function ReportOf(st: State, step: Step, sid: nat): Option<Reading> {
    if !step.Meter201Step? then None
    else match TaskOf(st.tasks, step.cp)
      case Metering201(row, readings, _) => if row == Some(sid) && readings != [] then Some(readings[0]) else None
      case _ => None
  }

  /** The readings a run has taken in for row sid. */
  function Reported(steps: seq<Step>, sid: nat): Log<Reading> {
    if steps == [] then Empty
    else
      var init, last := steps[..|steps| - 1], steps[|steps| - 1];
      match ReportOf(Exec(INITIAL, init), last, sid)
      case Some(r) => Then(Reported(init, sid), r)
      case None => Reported(init, sid)
  }

  /** The reading has an energy, which Python takes for true. */
  predicate HasEnergy(r: Reading) {
    r.energy.Some? && r.energy.value != 0.0
  }

  /** The power it says, 0 when it says none. */
  predicate PowerIs(r: Reading, p: real) {
    if r.power.Some? then p == r.power.value else p == 0.0
  }

  /** The maxima of what was taken in, and 0. */
  ghost predicate AreMaxima(log: Log<Reading>, energy: real, peak: real) {
    && energy >= 0.0 && peak >= 0.0
    && (forall r :: Has(log, r) && HasEnergy(r) ==>
          r.energy.value <= energy && forall p :: PowerIs(r, p) ==> p <= peak)
    && (energy == 0.0 || exists r :: Has(log, r) && HasEnergy(r) && r.energy.value == energy)
    && (peak == 0.0 || exists r :: Has(log, r) && HasEnergy(r) && PowerIs(r, peak))
  }

  /** One meter value raises energy and peak to what it says, and without an energy changes nothing. */
  lemma OneReadingRaises(s: Session, r: Reading)
    ensures var s' := Raise201(s, r);
            && s' == s.(energy := s'.energy, peak := s'.peak, samples := s'.samples)
            && (!HasEnergy(r) ==> s' == s)
            && (HasEnergy(r) ==>
                  && s'.energy == (if r.energy.value > s.energy then r.energy.value else s.energy)
                  && forall p :: PowerIs(r, p) ==> s'.peak == if p > s.peak then p else s.peak)
  {
  }

  lemma MaximaGrow(log: Log<Reading>, r: Reading, s: Session)
    requires AreMaxima(log, s.energy, s.peak)
    ensures AreMaxima(Then(log, r), Raise201(s, r).energy, Raise201(s, r).peak)
  {
    OneReadingRaises(s, r);
    var s', log' := Raise201(s, r), Then(log, r);
    assert PowerIs(r, OrZero(r.power)) && Has(log', r);
    if s'.energy != 0.0 && s'.energy == s.energy {
      var x :| Has(log, x) && HasEnergy(x) && x.energy.value == s.energy;
      assert Has(log', x);
    }
    if s'.peak != 0.0 && s'.peak == s.peak {
      var x :| Has(log, x) && HasEnergy(x) && PowerIs(x, s.peak);
      assert Has(log', x);
    }
  }

  /** Nothing else touches the energy of a 2.0.1 row. */
  lemma EnergyUnmoved201(st: State, step: Step, sid: nat)
    requires Inv(st) && sid < |st.sessions| && st.sessions[sid].txn.Some? && ReportOf(st, step, sid).None?
    ensures sid < |Next(st, step).sessions| && SameMaxima(st.sessions[sid], Next(st, step).sessions[sid])
  {
    assert RowOk(st.sessions[sid]);
    if step.MeterSessionStep? {
      MeterSessionMisses(st, step.cp, sid);
    } else if step.Meter201Step? {
      ReportMisses(st, step.cp, step.reason, step.now, sid);
    } else {
      OthersMiss(st, step, sid);
    }
  }

  predicate SameMaxima(s: Session, s': Session) {
    s'.energy == s.energy && s'.peak == s.peak
  }

  lemma MeterSessionMisses(st: State, cp: string, sid: nat)
    requires TasksOk(st.sessions, st.tasks) && sid < |st.sessions| && st.sessions[sid].tid.None?
    ensures |MeterSession(st, cp).sessions| == |st.sessions|
    ensures SameMaxima(st.sessions[sid], MeterSession(st, cp).sessions[sid])
  {
    assert cp in st.tasks ==> TaskOk(st.sessions, cp, st.tasks[cp]);
  }

  lemma ReportMisses(st: State, cp: string, reason: string, now: int, sid: nat)
    requires sid < |st.sessions| && ReportOf(st, Meter201Step(cp, reason, now), sid).None?
    ensures |Meter201(st, cp, reason, now).sessions| == |st.sessions|
    ensures SameMaxima(st.sessions[sid], Meter201(st, cp, reason, now).sessions[sid])
  {
  }

  /** Apart from metering, only a stop of 1.6 writes an energy. */
  lemma OthersMiss(st: State, step: Step, sid: nat)
    requires sid < |st.sessions| && !step.MeterSessionStep? && !step.Meter201Step?
    requires step.StopCloseStep? ==> st.sessions[sid].tid.None?
    ensures sid < |Next(st, step).sessions| && SameMaxima(st.sessions[sid], Next(st, step).sessions[sid])
  {
  }

  lemma ReportRaises(st: State, step: Step, sid: nat)
    requires Inv(st) && ReportOf(st, step, sid).Some?
    ensures sid < |st.sessions| && |Next(st, step).sessions| == |st.sessions|
    ensures Next(st, step).sessions[sid] == Raise201(st.sessions[sid], ReportOf(st, step, sid).value)
  {
    assert TaskOk(st.sessions, step.cp, st.tasks[step.cp]);
    assert Next(st, step) == Meter201(st, step.cp, step.reason, step.now);
  }

  lemma NewRowIsEmpty(st: State, step: Step, sid: nat)
    requires sid >= |st.sessions| && sid < |Next(st, step).sessions|
    ensures Next(st, step).sessions[sid].energy == 0.0 && Next(st, step).sessions[sid].peak == 0.0
  {
  }

  lemma {:induction false} MaximaOverRun(steps: seq<Step>, sid: nat)
    ensures var ss := Exec(INITIAL, steps).sessions;
            && (sid >= |ss| ==> Reported(steps, sid) == Empty)
            && (sid < |ss| && ss[sid].txn.Some? ==> AreMaxima(Reported(steps, sid), ss[sid].energy, ss[sid].peak))
  {
    if steps != [] {
      var init, last := steps[..|steps| - 1], steps[|steps| - 1];
      var mid := Exec(INITIAL, init);
      MaximaOverRun(init, sid);
      ReachableInv(init);
      NextKeeps(mid, last);
      var report := ReportOf(mid, last, sid);
      if report.Some? {
        ReportRaises(mid, last, sid);
        if mid.sessions[sid].txn.Some? {
          MaximaGrow(Reported(init, sid), report.value, mid.sessions[sid]);
        }
      } else if sid < |mid.sessions| {
        if mid.sessions[sid].txn.Some? {
          EnergyUnmoved201(mid, last, sid);
        }
        assert RowEvolves(Who(last), mid.sessions[sid], Next(mid, last).sessions[sid]);
      } else if sid < |Next(mid, last).sessions| {
        NewRowIsEmpty(mid, last, sid);
      }
    }
  }

  /**
   In every run a 2.0.1 session's energy is the largest energy its charger reported for it, and its peak the
   largest power reported with an energy, whatever else the row went through.
   */
  lemma EnergyIsTheMaximum201(steps: seq<Step>, sid: nat)
    requires sid < |Exec(INITIAL, steps).sessions| && Exec(INITIAL, steps).sessions[sid].txn.Some?
    ensures var s := Exec(INITIAL, steps).sessions[sid];
            AreMaxima(Reported(steps, sid), s.energy, s.peak)
  {
    MaximaOverRun(steps, sid);
  }

  // ---------------------------------------------------------------- OCPP 1.6

  /** The sample a step takes in for row sid: its MeterValues entry found the row, and it is still active. */
  function SampleFor(st: State, step: Step, sid: nat): Option<MeterSample> {
    if !step.MeterSessionStep? || sid >= |st.sessions| || st.sessions[sid].status != Active then None
    else match TaskOf(st.tasks, step.cp)
      case MeteringSession(_, row, sample, _) => if row == Some(sid) then Some(sample) else None
      case _ => None
  }

  function Sampled(steps: seq<Step>, sid: nat): Log<MeterSample> {
    if steps == [] then Empty
    else
      var init, last := steps[..|steps| - 1], steps[|steps| - 1];
      match SampleFor(Exec(INITIAL, init), last, sid)
      case Some(x) => Then(Sampled(init, sid), x)
      case None => Sampled(init, sid)
  }

  /** The energy since meterStart (Wh) at a register (kWh): 0 without a positive meterStart, and never below 0. */
  predicate IsDelta(register: real, meterStart: real, kwh: real) {
    if meterStart > 0.0 && register > meterStart / 1000.0 then kwh == register - meterStart / 1000.0 else kwh == 0.0
  }

  /** The maxima of the samples taken in, and 0. */
  ghost predicate SampleMaxima(log: Log<MeterSample>, meterStart: real, energy: real, peak: real) {
    && energy >= 0.0 && peak >= 0.0
    && (forall x :: Has(log, x) ==> x.power <= peak && forall e :: IsDelta(x.register, meterStart, e) ==> e <= energy)
    && (energy == 0.0 || exists x :: Has(log, x) && IsDelta(x.register, meterStart, energy))
    && (peak == 0.0 || exists x :: Has(log, x) && x.power == peak)
  }

  lemma SampleMaximaGrow(log: Log<MeterSample>, x: MeterSample, s: Session)
    requires s.status == Active && SampleMaxima(log, s.meterStart, s.energy, s.peak)
    ensures var s' := Raise(s, x, SessionEnergy(x.register, s.meterStart));
            SampleMaxima(Then(log, x), s.meterStart, s'.energy, s'.peak)
  {
    var s', log' := Raise(s, x, SessionEnergy(x.register, s.meterStart)), Then(log, x);
    assert IsDelta(x.register, s.meterStart, SessionEnergy(x.register, s.meterStart)) && Has(log', x);
    if s'.energy != 0.0 && s'.energy == s.energy {
      var y :| Has(log, y) && IsDelta(y.register, s.meterStart, s.energy);
      assert Has(log', y);
    }
    if s'.peak != 0.0 && s'.peak == s.peak {
      var y :| Has(log, y) && y.power == s.peak;
      assert Has(log', y);
    }
  }

  lemma SampleRaises(st: State, step: Step, sid: nat)
    requires Inv(st) && SampleFor(st, step, sid).Some?
    ensures var s, x := st.sessions[sid], SampleFor(st, step, sid).value;
            && |Next(st, step).sessions| == |st.sessions|
            && Next(st, step).sessions[sid] == Raise(s, x, SessionEnergy(x.register, s.meterStart))
  {
    assert TaskOk(st.sessions, step.cp, st.tasks[step.cp]);
    assert Next(st, step) == MeterSession(st, step.cp);
  }

  /** Nothing else touches the energy of a 1.6 row that no stop handler closes. */
  lemma EnergyUnmoved16(st: State, step: Step, sid: nat)
    requires Inv(st) && sid < |st.sessions| && st.sessions[sid].tid.Some? && SampleFor(st, step, sid).None?
    ensures sid < |Next(st, step).sessions|
    ensures Next(st, step).sessions[sid].wins == 0 ==> SameMaxima(st.sessions[sid], Next(st, step).sessions[sid])
  {
    var s := st.sessions[sid];
    assert RowOk(s);
    if step.MeterSessionStep? {
      OtherSampleMisses(st, step.cp, sid);
    } else if step.Meter201Step? {
      Report201Misses(st, step.cp, step.reason, step.now, sid);
    } else if step.StopCloseStep? {
      StopMissesUnlessWon(st, step.cp, step.tid, step.meterStop, step.reason, step.now, sid);
    } else {
      OthersMiss(st, step, sid);
    }
  }

  lemma OtherSampleMisses(st: State, cp: string, sid: nat)
    requires sid < |st.sessions| && SampleFor(st, MeterSessionStep(cp), sid).None?
    ensures |MeterSession(st, cp).sessions| == |st.sessions|
    ensures SameMaxima(st.sessions[sid], MeterSession(st, cp).sessions[sid])
  {
  }

  lemma Report201Misses(st: State, cp: string, reason: string, now: int, sid: nat)
    requires TasksOk(st.sessions, st.tasks) && sid < |st.sessions| && st.sessions[sid].txn.None?
    ensures |Meter201(st, cp, reason, now).sessions| == |st.sessions|
    ensures SameMaxima(st.sessions[sid], Meter201(st, cp, reason, now).sessions[sid])
  {
    assert cp in st.tasks ==> TaskOk(st.sessions, cp, st.tasks[cp]);
  }

  lemma StopMissesUnlessWon(st: State, cp: string, tid: Option<int>, meterStop: real, reason: string, now: int,
                            sid: nat)
    requires sid < |st.sessions|
    ensures var st' := StopClose(st, cp, tid, meterStop, reason, now);
            && |st'.sessions| == |st.sessions|
            && (st'.sessions[sid].wins == 0 ==> SameMaxima(st.sessions[sid], st'.sessions[sid]))
  {
  }

  lemma {:induction false} SampleMaximaOverRun(steps: seq<Step>, sid: nat)
    ensures var ss := Exec(INITIAL, steps).sessions;
            && (sid >= |ss| ==> Sampled(steps, sid) == Empty)
            && (sid < |ss| && ss[sid].tid.Some? && ss[sid].wins == 0 ==>
                  SampleMaxima(Sampled(steps, sid), ss[sid].meterStart, ss[sid].energy, ss[sid].peak))
  {
    if steps != [] {
      var init, last := steps[..|steps| - 1], steps[|steps| - 1];
      var mid := Exec(INITIAL, init);
      SampleMaximaOverRun(init, sid);
      ReachableInv(init);
      NextKeeps(mid, last);
      var sample := SampleFor(mid, last, sid);
      if sid < |mid.sessions| {
        assert RowOk(mid.sessions[sid]) && RowEvolves(Who(last), mid.sessions[sid], Next(mid, last).sessions[sid]);
        if sample.Some? {
          SampleRaises(mid, last, sid);
          if mid.sessions[sid].tid.Some? && mid.sessions[sid].wins == 0 {
            SampleMaximaGrow(Sampled(init, sid), sample.value, mid.sessions[sid]);
          }
        } else if mid.sessions[sid].tid.Some? {
          EnergyUnmoved16(mid, last, sid);
        }
      } else if sid < |Next(mid, last).sessions| {
        NewRowIsEmpty(mid, last, sid);
      }
    }
  }

  /**
   In every run the energy of a 1.6 session that no stop handler has closed is the largest of the samples its
   charger sent while it was active, as the energy since meterStart, and its peak the largest power.
   */
  lemma EnergyIsTheMaximum(steps: seq<Step>, sid: nat)
    requires sid < |Exec(INITIAL, steps).sessions| && Exec(INITIAL, steps).sessions[sid].tid.Some?
    requires Exec(INITIAL, steps).sessions[sid].wins == 0
    ensures var s := Exec(INITIAL, steps).sessions[sid];
            SampleMaxima(Sampled(steps, sid), s.meterStart, s.energy, s.peak)
  {
    SampleMaximaOverRun(steps, sid);
  }
}
