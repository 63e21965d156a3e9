/**
 What a public session's receipt shows while its session is charging: the energy of the last MeterValues entry,
 where the session keeps the largest.
 */
module RunningReceipts {
  import opened Common
  import opened Rounding
  import opened Meter16
  import opened ChargingState
  import opened ChargingInvariants
  import opened ChargingSteps
  import opened BillingTheorems

  /** The energy of the last of the first n samples that had one, and 0. */
  function LastOfFirst(samples: seq<MeterSample>, n: nat, meterStart: real): (e: real)
    requires n <= |samples|
    ensures e >= 0.0
  {
    if n == 0 then 0.0
    else
      var kwh := SessionEnergy(samples[n - 1].register, meterStart);
      if kwh > 0.0 then kwh else LastOfFirst(samples, n - 1, meterStart)
  }

  function LastPositive(samples: seq<MeterSample>, meterStart: real): real {
    LastOfFirst(samples, |samples|, meterStart)
  }

  lemma {:induction false} LastOfPrefix(samples: seq<MeterSample>, x: MeterSample, n: nat, meterStart: real)
    requires n <= |samples|
    ensures LastOfFirst(samples + [x], n, meterStart) == LastOfFirst(samples, n, meterStart)
  {
    if n > 0 {
      LastOfPrefix(samples, x, n - 1, meterStart);
    }
  }

  // ---------------------------------------------------------------- over a run

  /** The charger's message has raised row sid and not yet written the receipt. */
  predicate BetweenUpdates(t: Task, sid: nat) {
    t.MeteringPublic? && t.meterSid == Some(sid)
  }

  /** The receipt shows the last positive sample, but for one whose second update is still to come. */
  ghost predicate Follows(s: Session, t: Task, sid: nat, kwh: real) {
    if BetweenUpdates(t, sid) then
      && s.samples != [] && t.kwh == SessionEnergy(s.samples[|s.samples| - 1].register, s.meterStart)
      && kwh == Hundredths(LastOfFirst(s.samples, |s.samples| - 1, s.meterStart))
    else kwh == Hundredths(LastPositive(s.samples, s.meterStart))
  }

  /** A row still to be linked has no samples. */
  predicate StartsEmpty(s: Session, t: Task, sid: nat) {
    t.Linking? && t.sid == sid ==> s.samples == []
  }

  predicate Linked(st: State, sid: nat, p: nat) {
    sid < |st.sessions| && p < |st.publics| && st.publics[p].tid.Some? && st.publics[p].tid == st.sessions[sid].tid
  }

  ghost predicate Tracks(st: State, sid: nat, p: nat) {
    && (p < |st.publics| && st.publics[p].tid.None? ==> st.publics[p].kwh == 0.0)
    && (sid < |st.sessions| && st.sessions[sid].status == Active ==>
          var s, t := st.sessions[sid], TaskOf(st.tasks, st.sessions[sid].cp);
          && StartsEmpty(s, t, sid)
          && (Linked(st, sid, p) ==> Follows(s, t, sid, st.publics[p].kwh)))
  }

  /** No handler raises between the two updates of a MeterValues entry. */
  ghost predicate UpdatesComplete(st: State, steps: seq<Step>) {
    steps == [] ||
    var init, last := steps[..|steps| - 1], steps[|steps| - 1];
    && UpdatesComplete(st, init)
    && (last.CrashStep? ==> !TaskOf(Exec(st, init).tasks, last.cp).MeteringPublic?)
  }

  lemma OneRowOfTid(ss: seq<Session>, i: nat, j: nat)
    requires IdsIncrease(ss) && i < |ss| && j < |ss| && ss[i].tid.Some? && ss[i].tid == ss[j].tid
    ensures i == j
  {
  }

  lemma TracksOverStartInsert(st: State, cp: string, idTag: string, meterStart: real, sid: nat, p: nat)
    requires Inv(st) && Tracks(st, sid, p)
    ensures Tracks(StartInsert(st, cp, idTag, meterStart), sid, p)
  {
    if p < |st.publics| && st.publics[p].tid.Some? {
      assert HasTid(st.sessions, st.publics[p].tid.value);
    }
  }

  lemma TracksOverLink(st: State, cp: string, pick: Option<nat>, now: int, sid: nat, p: nat)
    requires Inv(st) && Tracks(st, sid, p)
    ensures Tracks(StartLink(st, cp, pick, now), sid, p)
  {
    var t := TaskOf(st.tasks, cp);
    if t.Linking? {
      assert TaskOk(st.sessions, cp, t);
      if sid < |st.sessions| && st.sessions[sid].tid == Some(t.tid) {
        OneRowOfTid(st.sessions, sid, t.sid);
      }
    }
  }

  /** Publics stay, the row stays or is not active, and charger cp is not between its updates. */
  lemma TracksUnmoved(st: State, st': State, cp: string, sid: nat, p: nat)
    requires Tracks(st, sid, p) && st'.publics == st.publics
    requires sid < |st'.sessions| && st'.sessions[sid].status == Active ==>
               if sid < |st.sessions| then st'.sessions[sid] == st.sessions[sid] else !Linked(st', sid, p)
    requires forall c :: c != cp ==> TaskOf(st'.tasks, c) == TaskOf(st.tasks, c)
    requires !BetweenUpdates(TaskOf(st.tasks, cp), sid)
    requires !BetweenUpdates(TaskOf(st'.tasks, cp), sid) && !TaskOf(st'.tasks, cp).Linking?
    requires sid >= |st.sessions| && sid < |st'.sessions| ==> st'.sessions[sid].cp == cp
    ensures Tracks(st', sid, p)
  {
  }

  lemma TracksWithPublics(st: State, ps: seq<Public>, sid: nat, p: nat)
    requires Tracks(st, sid, p)
    requires p < |ps| ==>
               || (p < |st.publics| && ps[p].tid == st.publics[p].tid && ps[p].kwh == st.publics[p].kwh)
               || (ps[p].tid.None? && ps[p].kwh == 0.0)
    ensures Tracks(st.(publics := ps), sid, p)
  {
  }

  lemma RaiseIsFollowed(s: Session, sample: MeterSample, tid: Option<int>, sid: nat, kwh: real, shown: real)
    requires s.status == Active && kwh == SessionEnergy(sample.register, s.meterStart)
    requires shown == Hundredths(LastPositive(s.samples, s.meterStart))
    ensures Follows(Raise(s, sample, kwh), MeteringPublic(tid, Some(sid), kwh), sid, shown)
  {
    LastOfPrefix(s.samples, sample, |s.samples|, s.meterStart);
  }

  lemma TracksOverMeterSession(st: State, cp: string, sid: nat, p: nat)
    requires Inv(st) && Tracks(st, sid, p)
    ensures Tracks(MeterSession(st, cp), sid, p)
  {
    var t := TaskOf(st.tasks, cp);
    if t.MeteringSession? {
      assert TaskOk(st.sessions, cp, t);
      if t.meterSid == Some(sid) {
        TracksOwnRaise(st, cp, sid, p);
      } else {
        TracksUnmoved(st, MeterSession(st, cp), cp, sid, p);
      }
    }
  }

  lemma TracksOwnRaise(st: State, cp: string, sid: nat, p: nat)
    requires Tracks(st, sid, p) && TaskOf(st.tasks, cp).MeteringSession?
    requires TaskOf(st.tasks, cp).meterSid == Some(sid) && TaskOk(st.sessions, cp, TaskOf(st.tasks, cp))
    ensures Tracks(MeterSession(st, cp), sid, p)
  {
    var s, t, st' := st.sessions[sid], TaskOf(st.tasks, cp), MeterSession(st, cp);
    assert st'.sessions[sid] == Raise(s, t.sample, t.kwh) && s.cp == cp && st'.publics == st.publics;
    assert TaskOf(st'.tasks, cp) == MeteringPublic(t.meterTid, t.meterSid, t.kwh);
    if Linked(st, sid, p) && s.status == Active {
      RaiseIsFollowed(s, t.sample, t.meterTid, sid, t.kwh, st.publics[p].kwh);
    }
  }

  lemma DeliveryIsShown(s: Session, t: Task, sid: nat, shown: real)
    requires BetweenUpdates(t, sid) && Follows(s, t, sid, shown)
    ensures Hundredths(LastPositive(s.samples, s.meterStart)) == if t.kwh > 0.0 then Hundredths(t.kwh) else shown
  {
  }

  lemma TracksOwnDelivery(st: State, cp: string, sid: nat, p: nat)
    requires Tracks(st, sid, p) && BetweenUpdates(TaskOf(st.tasks, cp), sid)
    requires RowsOk(st.sessions) && TaskOk(st.sessions, cp, TaskOf(st.tasks, cp))
    ensures Tracks(MeterPublic(st, cp), sid, p)
  {
    var t, st' := TaskOf(st.tasks, cp), MeterPublic(st, cp);
    assert RowOk(st.sessions[sid]) && st.sessions[sid].cp == cp && TaskOf(st'.tasks, cp) == Idle;
    assert st'.sessions == st.sessions && |st'.publics| == |st.publics|;
    if Linked(st, sid, p) && st.sessions[sid].status == Active {
      DeliveryIsShown(st.sessions[sid], t, sid, st.publics[p].kwh);
      assert st'.publics[p].kwh == if t.kwh > 0.0 then Hundredths(t.kwh) else st.publics[p].kwh;
    }
  }

  lemma TracksOverMeterPublic(st: State, cp: string, sid: nat, p: nat)
    requires Inv(st) && Tracks(st, sid, p)
    ensures Tracks(MeterPublic(st, cp), sid, p)
  {
    var t, st' := TaskOf(st.tasks, cp), MeterPublic(st, cp);
    if t.MeteringPublic? {
      assert TaskOk(st.sessions, cp, t);
      if t.meterSid == Some(sid) {
        TracksOwnDelivery(st, cp, sid, p);
      } else if p < |st.publics| && t.meterTid.Some? && t.kwh > 0.0 && t.meterTid == st.publics[p].tid {
        assert !Linked(st, sid, p) by {
          if Linked(st, sid, p) {
            OneRowOfTid(st.sessions, sid, t.meterSid.value);
          }
        }
      } else {
        TracksWithPublics(st, st'.publics, sid, p);
        TracksUnmoved(st.(publics := st'.publics), st', cp, sid, p);
      }
    }
  }

  lemma TracksOverSettle(st: State, cp: string, sid: nat, p: nat)
    requires Inv(st) && Tracks(st, sid, p)
    ensures Tracks(StopSettle(st, cp), sid, p)
  {
    var t := TaskOf(st.tasks, cp);
    if t.Settling? {
      assert TaskOk(st.sessions, cp, t) && RowOk(st.sessions[t.sid]);
      if Linked(st, sid, p) && st.publics[p].tid == Some(t.tid) {
        OneRowOfTid(st.sessions, sid, t.sid);
      }
    }
  }

  lemma TracksOverMeterRead(st: State, cp: string, tid: Option<int>, sample: MeterSample, sid: nat, p: nat)
    requires Tracks(st, sid, p)
    ensures Tracks(MeterRead(st, cp, tid, sample), sid, p)
  {
    if TaskOf(st.tasks, cp) == Idle {
      TracksUnmoved(st, MeterRead(st, cp, tid, sample), cp, sid, p);
    }
  }

  lemma TracksOverStopClose(st: State, cp: string, tid: Option<int>, meterStop: real, reason: string, now: int,
                            sid: nat, p: nat)
    requires Tracks(st, sid, p)
    ensures Tracks(StopClose(st, cp, tid, meterStop, reason, now), sid, p)
  {
    if TaskOf(st.tasks, cp) == Idle && tid.Some? && FindActive(st.sessions, cp, tid.value).Some? {
      TracksUnmoved(st, StopClose(st, cp, tid, meterStop, reason, now), cp, sid, p);
    }
  }

  lemma TracksOverBilling(st: State, step: Step, sid: nat, p: nat)
    requires Tracks(st, sid, p) && (step.CdrSelectStep? || step.CdrInsertStep? || step.StopPublishStep?)
    ensures Tracks(Next(st, step), sid, p)
  {
    if Next(st, step) != st {
      TracksUnmoved(st, Next(st, step), step.cp, sid, p);
    }
  }

  lemma TracksOverCrash(st: State, cp: string, sid: nat, p: nat)
    requires Tracks(st, sid, p) && !TaskOf(st.tasks, cp).MeteringPublic?
    ensures Tracks(Crash(st, cp), sid, p)
  {
    TracksUnmoved(st, Crash(st, cp), cp, sid, p);
  }

  lemma TracksRow201(st: State, st': State, sid: nat, p: nat)
    requires Tracks(st, sid, p) && st'.publics == st.publics
    requires sid < |st'.sessions| && st'.sessions[sid].tid.None?
    requires !TaskOf(st'.tasks, st'.sessions[sid].cp).Linking?
    ensures Tracks(st', sid, p)
  {
  }

  /** The messages of 2.0.1 never touch a row with a transaction id. */
  lemma TracksOverMeter201(st: State, cp: string, reason: string, now: int, sid: nat, p: nat)
    requires Inv(st) && Tracks(st, sid, p)
    ensures Tracks(Meter201(st, cp, reason, now), sid, p)
  {
    if TaskOf(st.tasks, cp).Metering201? {
      assert TaskOk(st.sessions, cp, st.tasks[cp]);
      var row, st' := TaskOf(st.tasks, cp).meterSid, Meter201(st, cp, reason, now);
      Meter201Effect(st, cp, reason, now);
      if row == Some(sid) {
        TracksRow201(st, st', sid, p);
      } else {
        TracksUnmoved(st, st', cp, sid, p);
      }
    }
  }

  lemma Meter201Effect(st: State, cp: string, reason: string, now: int)
    requires RowsOk(st.sessions) && TaskOf(st.tasks, cp).Metering201?
    requires TaskOk(st.sessions, cp, TaskOf(st.tasks, cp))
    ensures var row, st' := TaskOf(st.tasks, cp).meterSid, Meter201(st, cp, reason, now);
            && st'.publics == st.publics && |st'.sessions| == |st.sessions|
            && (forall i :: 0 <= i < |st.sessions| && row != Some(i) ==> st'.sessions[i] == st.sessions[i])
            && (row.Some? ==> st'.sessions[row.value].cp == cp && st'.sessions[row.value].tid.None?)
            && (forall c :: c != cp ==> TaskOf(st'.tasks, c) == TaskOf(st.tasks, c))
            && !TaskOf(st'.tasks, cp).MeteringPublic? && !TaskOf(st'.tasks, cp).Linking?
  {
    var row := TaskOf(st.tasks, cp).meterSid;
    if row.Some? {
      assert RowOk(st.sessions[row.value]);
    }
  }

  lemma TracksOverStarted201(st: State, cp: string, txn: string, sid: nat, p: nat)
    requires Tracks(st, sid, p)
    ensures Tracks(Started201(st, cp, txn), sid, p)
  {
    if TaskOf(st.tasks, cp) == Idle {
      TracksUnmoved(st, Started201(st, cp, txn), cp, sid, p);
    }
  }

  lemma TracksOverResolve201(st: State, cp: string, txn: string, ended: bool, readings: seq<Reading>,
                             pick: Option<nat>, sid: nat, p: nat)
    requires Tracks(st, sid, p)
    ensures Tracks(Resolve201(st, cp, txn, ended, readings, pick), sid, p)
  {
    if Resolve201(st, cp, txn, ended, readings, pick) != st {
      TracksUnmoved(st, Resolve201(st, cp, txn, ended, readings, pick), cp, sid, p);
    }
  }

  lemma TracksOverApi(st: State, step: Step, sid: nat, p: nat)
    requires Tracks(st, sid, p)
    requires ApiStep(step)
    ensures Tracks(Next(st, step), sid, p)
  {
    var ps := Next(st, step).publics;
    assert Next(st, step) == st.(publics := ps);
    TracksWithPublics(st, ps, sid, p);
  }

  lemma TracksOverCloser(st: State, step: Step, sid: nat, p: nat)
    requires Tracks(st, sid, p) && (step.CloserFetchStep? || step.CloserCloseStep? || step.ReconnectStep?)
    ensures Tracks(Next(st, step), sid, p)
  {
  }

  lemma TracksOverStep(st: State, step: Step, sid: nat, p: nat)
    requires Inv(st) && Tracks(st, sid, p)
    requires step.CrashStep? ==> !TaskOf(st.tasks, step.cp).MeteringPublic?
    ensures Tracks(Next(st, step), sid, p)
  {
    match step
    case StartInsertStep(cp, idTag, meterStart) => TracksOverStartInsert(st, cp, idTag, meterStart, sid, p);
    case StartLinkStep(cp, pick, now) => TracksOverLink(st, cp, pick, now, sid, p);
    case MeterSessionStep(cp) => TracksOverMeterSession(st, cp, sid, p);
    case MeterPublicStep(cp) => TracksOverMeterPublic(st, cp, sid, p);
    case StopSettleStep(cp) => TracksOverSettle(st, cp, sid, p);
    case Meter201Step(cp, reason, now) => TracksOverMeter201(st, cp, reason, now, sid, p);
    case _ => TracksOverMost(st, step, sid, p);
  }

  lemma TracksOverMost(st: State, step: Step, sid: nat, p: nat)
    requires Tracks(st, sid, p)
    requires !step.StartInsertStep? && !step.StartLinkStep? && !step.MeterSessionStep? && !step.MeterPublicStep?
    requires !step.StopSettleStep? && !step.Meter201Step?
    requires step.CrashStep? ==> !TaskOf(st.tasks, step.cp).MeteringPublic?
    ensures Tracks(Next(st, step), sid, p)
  {
    match step
    case Started201Step(cp, txn) => TracksOverStarted201(st, cp, txn, sid, p);
    case Resolve201Step(cp, txn, ended, readings, pick) =>
      TracksOverResolve201(st, cp, txn, ended, readings, pick, sid, p);
    case MeterReadStep(cp, tid, sample) => TracksOverMeterRead(st, cp, tid, sample, sid, p);
    case StopCloseStep(cp, tid, meterStop, reason, now) =>
      TracksOverStopClose(st, cp, tid, meterStop, reason, now, sid, p);
    case CrashStep(cp) => TracksOverCrash(st, cp, sid, p);
    case CdrSelectStep(_) => TracksOverBilling(st, step, sid, p);
    case CdrInsertStep(_) => TracksOverBilling(st, step, sid, p);
    case StopPublishStep(_) => TracksOverBilling(st, step, sid, p);
    case ReconnectStep(_) => TracksOverCloser(st, step, sid, p);
    case CloserFetchStep(_) => TracksOverCloser(st, step, sid, p);
    case CloserCloseStep(_, _) => TracksOverCloser(st, step, sid, p);
    case _ => TracksOverApi(st, step, sid, p);
  }

  lemma {:induction false} TracksOverRun(steps: seq<Step>, sid: nat, p: nat)
    requires UpdatesComplete(INITIAL, steps)
    ensures Tracks(Exec(INITIAL, steps), sid, p)
  {
    if steps != [] {
      TracksOverRun(steps[..|steps| - 1], sid, p);
      ReachableInv(steps[..|steps| - 1]);
      TracksOverStep(Exec(INITIAL, steps[..|steps| - 1]), steps[|steps| - 1], sid, p);
    }
  }

  // ---------------------------------------------------------------- receipt and session compared

  lemma {:induction false} LastIsNotAboveMax(samples: seq<MeterSample>, n: nat, meterStart: real)
    requires n <= |samples|
    ensures LastOfFirst(samples, n, meterStart) <= RunningEnergy(samples, meterStart)
  {
    if n > 0 {
      LastIsNotAboveMax(samples, n - 1, meterStart);
    }
  }

  lemma HundredthsMonotone(x: real, y: real)
    requires x <= y
    ensures Hundredths(x) <= Hundredths(y)
  {
    HalfUpMonotone(x * 100.0, y * 100.0);
  }

  /** In hundredths of a kWh, no sample was above the last positive one. */
  predicate NoneAboveTheLast(samples: seq<MeterSample>, meterStart: real) {
    forall x :: x in samples ==>
      Hundredths(SessionEnergy(x.register, meterStart)) <= Hundredths(LastPositive(samples, meterStart))
  }

  lemma LastShowsMaxIff(samples: seq<MeterSample>, meterStart: real)
    ensures Hundredths(LastPositive(samples, meterStart)) == Hundredths(RunningEnergy(samples, meterStart))
       <==> NoneAboveTheLast(samples, meterStart)
  {
    var last, max := LastPositive(samples, meterStart), RunningEnergy(samples, meterStart);
    LastIsNotAboveMax(samples, |samples|, meterStart);
    HundredthsMonotone(last, max);
    MaximaAttained(samples, meterStart);
    forall x | x in samples ensures Hundredths(SessionEnergy(x.register, meterStart)) <= Hundredths(max) {
      HundredthsMonotone(SessionEnergy(x.register, meterStart), max);
    }
  }

  /**
   In every run whose MeterValues entries complete: while a linked session charges and none of its entries is half
   way, its receipt shows the last positive sample, the session the largest, and the two are equal, in hundredths
   of a kWh, exactly when no sample was above the last one.
   */
  lemma RunningReceiptAgreesIff(steps: seq<Step>, sid: nat, p: nat)
    requires UpdatesComplete(INITIAL, steps)
    ensures Charging(Exec(INITIAL, steps), sid, p) ==>
              var s, kwh := Exec(INITIAL, steps).sessions[sid], Exec(INITIAL, steps).publics[p].kwh;
              && kwh == Hundredths(LastPositive(s.samples, s.meterStart))
              && s.energy == RunningEnergy(s.samples, s.meterStart)
              && (kwh == Hundredths(s.energy) <==> NoneAboveTheLast(s.samples, s.meterStart))
  {
    var st := Exec(INITIAL, steps);
    TracksOverRun(steps, sid, p);
    if Charging(st, sid, p) {
      ActiveEnergyIsRunning(steps, st, sid);
      LastShowsMaxIff(st.sessions[sid].samples, st.sessions[sid].meterStart);
    }
  }

  /** A linked session that charges, and no MeterValues entry of it half way. */
  predicate Charging(st: State, sid: nat, p: nat) {
    && Linked(st, sid, p) && st.sessions[sid].status == Active
    && !BetweenUpdates(TaskOf(st.tasks, st.sessions[sid].cp), sid)
  }

  /** Registers of 5 and then 2 kWh from a meterStart of 1000 Wh: the receipt shows 1 kWh, the session 4. */
  lemma FallingRegisterDisagrees()
    ensures var samples := [MeterSample(5.0, 0.0), MeterSample(2.0, 0.0)];
            && LastPositive(samples, 1000.0) == 1.0 && RunningEnergy(samples, 1000.0) == 4.0
            && !NoneAboveTheLast(samples, 1000.0)
  {
    var samples := [MeterSample(5.0, 0.0), MeterSample(2.0, 0.0)];
    assert samples[..1] == [MeterSample(5.0, 0.0)] && samples[..1][..0] == [];
    assert SessionEnergy(5.0, 1000.0) == 4.0 && SessionEnergy(2.0, 1000.0) == 1.0;
    assert samples[0] in samples;
  }

  // ---------------------------------------------------------------- after the closer

  predicate Meters(t: Task, sid: nat) {
    (t.MeteringSession? || t.MeteringPublic?) && t.meterSid == Some(sid)
  }

  /** A session that left `active` without a stop handler, its receipt, and no MeterValues entry of it under way. */
  ghost predicate Stranded(st: State, sid: nat, p: nat, energy: real, kwh: real) {
    && Linked(st, sid, p) && st.sessions[sid].status != Active && st.sessions[sid].wins == 0
    && st.sessions[sid].energy == energy && st.publics[p].kwh == kwh
    && !Meters(TaskOf(st.tasks, st.sessions[sid].cp), sid)
  }

  lemma StrandedOverMeter(st: State, step: Step, sid: nat, p: nat, energy: real, kwh: real)
    requires Inv(st) && Stranded(st, sid, p, energy, kwh) && (step.MeterReadStep? || step.MeterSessionStep?)
    ensures Stranded(Next(st, step), sid, p, energy, kwh)
  {
    assert step.cp in st.tasks ==> TaskOk(st.sessions, step.cp, st.tasks[step.cp]);
  }

  lemma StrandedOverMeterPublic(st: State, cp: string, sid: nat, p: nat, energy: real, kwh: real)
    requires Inv(st) && Stranded(st, sid, p, energy, kwh)
    ensures Stranded(MeterPublic(st, cp), sid, p, energy, kwh)
  {
    var t := TaskOf(st.tasks, cp);
    assert cp in st.tasks ==> TaskOk(st.sessions, cp, t);
    if t.MeteringPublic? && t.meterSid.Some? && t.meterTid == st.publics[p].tid {
      OneRowOfTid(st.sessions, sid, t.meterSid.value);
    }
  }

  lemma StrandedOverSettle(st: State, cp: string, sid: nat, p: nat, energy: real, kwh: real)
    requires Inv(st) && Stranded(st, sid, p, energy, kwh)
    ensures Stranded(StopSettle(st, cp), sid, p, energy, kwh)
  {
    var t := TaskOf(st.tasks, cp);
    assert cp in st.tasks ==> TaskOk(st.sessions, cp, t);
    if t.Settling? && st.publics[p].tid == Some(t.tid) {
      OneRowOfTid(st.sessions, sid, t.sid);
    }
  }

  lemma StrandedOverStop(st: State, step: Step, sid: nat, p: nat, energy: real, kwh: real)
    requires Stranded(st, sid, p, energy, kwh)
    requires step.StopCloseStep? || step.StartInsertStep? || step.StartLinkStep?
    ensures Stranded(Next(st, step), sid, p, energy, kwh)
  {
  }

  lemma StrandedOverMeter201(st: State, cp: string, reason: string, now: int, sid: nat, p: nat, energy: real, kwh: real)
    requires Inv(st) && Stranded(st, sid, p, energy, kwh)
    ensures Stranded(Meter201(st, cp, reason, now), sid, p, energy, kwh)
  {
    assert RowOk(st.sessions[sid]);
    if TaskOf(st.tasks, cp).Metering201? {
      assert TaskOk(st.sessions, cp, st.tasks[cp]);
    }
  }

  lemma StrandedOverMessages(st: State, step: Step, sid: nat, p: nat, energy: real, kwh: real)
    requires Stranded(st, sid, p, energy, kwh)
    requires || step.CdrSelectStep? || step.CdrInsertStep? || step.StopPublishStep? || step.Started201Step?
             || step.Resolve201Step? || step.ReconnectStep? || step.CrashStep?
    ensures Stranded(Next(st, step), sid, p, energy, kwh)
  {
  }

  lemma StrandedOverRest(st: State, step: Step, sid: nat, p: nat, energy: real, kwh: real)
    requires Stranded(st, sid, p, energy, kwh)
    requires step.CloserFetchStep? || step.CloserCloseStep? || ApiStep(step)
    ensures Stranded(Next(st, step), sid, p, energy, kwh)
  {
  }

  lemma StrandedOverStep(st: State, step: Step, sid: nat, p: nat, energy: real, kwh: real)
    requires Inv(st) && Stranded(st, sid, p, energy, kwh)
    ensures Stranded(Next(st, step), sid, p, energy, kwh)
  {
    if step.MeterReadStep? || step.MeterSessionStep? {
      StrandedOverMeter(st, step, sid, p, energy, kwh);
    } else if step.MeterPublicStep? || step.StopSettleStep? || step.Meter201Step? {
      StrandedOverUpdates(st, step, sid, p, energy, kwh);
    } else {
      StrandedOverMost(st, step, sid, p, energy, kwh);
    }
  }

  lemma StrandedOverUpdates(st: State, step: Step, sid: nat, p: nat, energy: real, kwh: real)
    requires Inv(st) && Stranded(st, sid, p, energy, kwh)
    requires step.MeterPublicStep? || step.StopSettleStep? || step.Meter201Step?
    ensures Stranded(Next(st, step), sid, p, energy, kwh)
  {
    match step
    case MeterPublicStep(cp) => StrandedOverMeterPublic(st, cp, sid, p, energy, kwh);
    case StopSettleStep(cp) => StrandedOverSettle(st, cp, sid, p, energy, kwh);
    case Meter201Step(cp, reason, now) => StrandedOverMeter201(st, cp, reason, now, sid, p, energy, kwh);
  }

  lemma StrandedOverMost(st: State, step: Step, sid: nat, p: nat, energy: real, kwh: real)
    requires Inv(st) && Stranded(st, sid, p, energy, kwh)
    requires !step.MeterReadStep? && !step.MeterSessionStep? && !step.MeterPublicStep?
    requires !step.StopSettleStep? && !step.Meter201Step?
    ensures Stranded(Next(st, step), sid, p, energy, kwh)
  {
    if step.StopCloseStep? || step.StartInsertStep? || step.StartLinkStep? {
      StrandedOverStop(st, step, sid, p, energy, kwh);
    } else if step.CloserFetchStep? || step.CloserCloseStep? || ApiStep(step) {
      StrandedOverRest(st, step, sid, p, energy, kwh);
    } else {
      StrandedOverMessages(st, step, sid, p, energy, kwh);
    }
  }

  /** Once the closer took a session between two messages, session and receipt keep what they state for good. */
  lemma {:induction false} StrandedReceiptIsFrozen(st: State, steps: seq<Step>, sid: nat, p: nat, energy: real,
                                                   kwh: real)
    requires Inv(st) && Stranded(st, sid, p, energy, kwh)
    ensures Stranded(Exec(st, steps), sid, p, energy, kwh)
  {
    if steps != [] {
      StrandedReceiptIsFrozen(st, steps[..|steps| - 1], sid, p, energy, kwh);
      RunKeeps(st, steps[..|steps| - 1]);
      StrandedOverStep(Exec(st, steps[..|steps| - 1]), steps[|steps| - 1], sid, p, energy, kwh);
    }
  }

  /** So a difference the closer finds stays: exactly when a sample was above the last one. */
  lemma CloserFreezesReceipt(steps: seq<Step>, sid: nat, p: nat, now: int, later: seq<Step>)
    requires UpdatesComplete(INITIAL, steps)
    ensures var st := Exec(INITIAL, steps);
            sid in st.fetched && Charging(st, sid, p) && !Meters(TaskOf(st.tasks, st.sessions[sid].cp), sid) ==>
              var s, st' := st.sessions[sid], Exec(CloserClose(st, sid, now), later);
              && Linked(st', sid, p)
              && (st'.publics[p].kwh == Hundredths(st'.sessions[sid].energy) <==>
                    NoneAboveTheLast(s.samples, s.meterStart))
  {
    var st := Exec(INITIAL, steps);
    RunningReceiptAgreesIff(steps, sid, p);
    if sid in st.fetched && Charging(st, sid, p) && !Meters(TaskOf(st.tasks, st.sessions[sid].cp), sid) {
      CloserFreezes(steps, st, sid, p, now, later);
    }
  }

  lemma CloserFreezes(steps: seq<Step>, st: State, sid: nat, p: nat, now: int, later: seq<Step>)
    requires st == Exec(INITIAL, steps) && Charging(st, sid, p) && sid in st.fetched
    requires !Meters(TaskOf(st.tasks, st.sessions[sid].cp), sid)
    ensures Stranded(Exec(CloserClose(st, sid, now), later), sid, p, st.sessions[sid].energy, st.publics[p].kwh)
  {
    ReachableInv(steps);
    var mid := CloserClose(st, sid, now);
    assert mid == Next(st, CloserCloseStep(sid, now));
    NextKeeps(st, CloserCloseStep(sid, now));
    assert RowOk(st.sessions[sid]);
    StrandedReceiptIsFrozen(mid, later, sid, p, st.sessions[sid].energy, st.publics[p].kwh);
  }
}
