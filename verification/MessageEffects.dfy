/** What each message leaves in the tables, column by column, when nothing comes in between. */
module MessageEffects {
  import opened Common
  import opened Rounding
  import opened SampledValues
  import opened Meter16
  import M201 = Meter201
  import opened CdrCost
  import opened ChargingState
  import opened ChargingInvariants
  import opened ChargingSteps
  import opened BillingTheorems
  import opened ReceivedReadings
  import opened ChargingHandlers

  // ---------------------------------------------------------------- StartTransaction

  /** One above every transaction id there is, from 1 on. */
  ghost predicate IsNextTid(ss: seq<Session>, tid: int) {
    && tid >= 1
    && (forall i :: 0 <= i < |ss| && ss[i].tid.Some? ==> ss[i].tid.value < tid)
    && (tid == 1 || exists i :: 0 <= i < |ss| && ss[i].tid == Some(tid - 1))
  }

  predicate Free(p: Public, prefix: string) {
    p.prefix == prefix && p.tid == None && p.startedAt == None
  }

  /** The newest free public session of the prefix, when there is one. */
  ghost predicate IsNewest(ps: seq<Public>, prefix: string, pick: Option<nat>) {
    match pick
    case None => forall q :: 0 <= q < |ps| ==> !Free(ps[q], prefix)
    case Some(p) =>
      p < |ps| && Free(ps[p], prefix)
      && forall q :: 0 <= q < |ps| && Free(ps[q], prefix) ==> ps[q].createdAt <= ps[p].createdAt
  }

  lemma {:induction false} MaxTidIsUsed(ss: seq<Session>)
    ensures IsNextTid(ss, MaxTid(ss) + 1)
  {
    if ss != [] {
      var init := ss[..|ss| - 1];
      MaxTidIsUsed(init);
      if MaxTid(ss) == MaxTid(init) && MaxTid(ss) != 0 {
        var i :| 0 <= i < |init| && init[i].tid == Some(MaxTid(init));
        assert ss[i] == init[i];
      } else if MaxTid(ss) != 0 {
        assert ss[|ss| - 1].tid == Some(MaxTid(ss));
      }
    }
  }

  /** A row as a Start inserts it. */
  ghost predicate IsStarted(ss: seq<Session>, s: Session, cp: string, meterStart: real) {
    && s.cp == cp && s.meterStart == meterStart && s.status == Active && s.energy == 0.0 && s.peak == 0.0
    && s.txn == None && s.stopTime == None && s.meterStop == None && s.stopReason == ""
    && s.tid.Some? && IsNextTid(ss, s.tid.value)
  }

  lemma StartInsertMeans(st: State, cp: string, idTag: string, meterStart: real)
    requires TaskOf(st.tasks, cp) == Idle
    ensures var st' := StartInsert(st, cp, idTag, meterStart);
            && |st'.sessions| == |st.sessions| + 1 && st'.sessions[..|st.sessions|] == st.sessions
            && IsStarted(st.sessions, st'.sessions[|st.sessions|], cp, meterStart)
            && st'.sessions[|st.sessions|].tid == Some(MaxTid(st.sessions) + 1)
            && st'.events == st.events + [SessionStart(|st.sessions|)]
  {
    MaxTidIsUsed(st.sessions);
  }

  /** A session with the next id, an event, and the link of the newest public session the tag names. */
  lemma StartMeans(st: State, cp: string, idTag: string, meterStart: real, pick: Option<nat>, now: int)
    requires TaskOf(st.tasks, cp) == Idle
    requires "APP_" <= idTag ==> IsNewest(st.publics, Lower(idTag[4..]), pick)
    ensures var st' := Exec(st, [StartInsertStep(cp, idTag, meterStart), StartLinkStep(cp, pick, now)]);
            && |st'.sessions| == |st.sessions| + 1 && st'.sessions[..|st.sessions|] == st.sessions
            && IsStarted(st.sessions, st'.sessions[|st.sessions|], cp, meterStart)
            && st'.events == st.events + [SessionStart(|st.sessions|)] && st'.cdrs == st.cdrs
            && (!("APP_" <= idTag) || pick == None ==> st'.publics == st.publics)
            && ("APP_" <= idTag && pick.Some? ==>
                  LinkedTo(st.publics, st'.publics, pick.value, st'.sessions[|st.sessions|].tid, now))
  {
    StartInsertMeans(st, cp, idTag, meterStart);
    StartEffect(st, cp, idTag, meterStart, pick, now);
  }

  predicate LinkedTo(ps: seq<Public>, ps': seq<Public>, pick: nat, tid: Option<int>, now: int) {
    pick < |ps|
    && var p := ps[pick];
       ps' == ps[pick := Public(p.prefix, p.createdAt, p.payment, tid, Some(now), p.stoppedAt, p.kwh)]
  }

  // ---------------------------------------------------------------- MeterValues

  /** Without an active row an entry leaves only an event. */
  lemma UnknownMeterMeans(st: State, cp: string, tid: Option<int>, sample: MeterSample)
    requires TaskOf(st.tasks, cp) == Idle && NoRow(st, cp, tid)
    ensures var st' := Exec(st, MeterEntry(cp, tid, sample));
            && st'.sessions == st.sessions && st'.publics == st.publics && st'.cdrs == st.cdrs
            && st'.events == st.events + [SessionMeter(None, 0.0)]
  {
    MeterEntryEffect(st, cp, tid, sample);
    assert Lookup(st, cp, tid).None?;
  }

  /** No active session of the charger has this transactionId; an absent one and 0 name none. */
  ghost predicate NoRow(st: State, cp: string, tid: Option<int>) {
    || tid == None || tid == Some(0)
    || forall i :: 0 <= i < |st.sessions| ==>
         !(st.sessions[i].cp == cp && st.sessions[i].tid == tid && st.sessions[i].status == Active)
  }

  /** With one: the row, each public session, and the event. */
  lemma MeteredRowMeans(st: State, cp: string, tid: int, sid: nat, sample: MeterSample, kwh: real)
    requires Inv(st) && TaskOf(st.tasks, cp) == Idle && tid != 0 && sid < |st.sessions|
    requires st.sessions[sid].cp == cp && st.sessions[sid].tid == Some(tid) && st.sessions[sid].status == Active
    requires IsDelta(sample.register, st.sessions[sid].meterStart, kwh)
    ensures var st' := Exec(st, MeterEntry(cp, Some(tid), sample));
            && |st'.sessions| == |st.sessions| && |st'.publics| == |st.publics| && st'.cdrs == st.cdrs
            && (forall i :: 0 <= i < |st.sessions| && i != sid ==> st'.sessions[i] == st.sessions[i])
            && RaisedTo(st.sessions[sid], st'.sessions[sid], kwh, sample.power)
            && (forall p :: 0 <= p < |st.publics| ==> DeliveredTo(st.publics[p], st'.publics[p], tid, kwh))
            && st'.events == st.events + [SessionMeter(Some(sid), kwh)]
  {
    var st' := Exec(st, MeterEntry(cp, Some(tid), sample));
    assert st' == Metered(st, cp, Some(tid), sample) by {
      MeterEntryEffect(st, cp, Some(tid), sample);
    }
    OneRowPerActive(st.sessions, cp, tid, sid);
    var s := st.sessions[sid];
    assert SessionEnergy(sample.register, s.meterStart) == kwh;
    assert st'.sessions == st.sessions[sid := Raise(s, sample, kwh)];
    RaiseMeans(s, sample, kwh);
    assert st'.publics == if kwh > 0.0 then DeliverAll(st.publics, tid, kwh) else st.publics;
    forall p | 0 <= p < |st.publics| ensures DeliveredTo(st.publics[p], st'.publics[p], tid, kwh) {
      DeliverMeans(st.publics[p], tid, kwh);
    }
  }

  lemma RaiseMeans(s: Session, sample: MeterSample, kwh: real)
    requires s.status == Active
    ensures RaisedTo(s, Raise(s, sample, kwh), kwh, sample.power)
  {
  }

  lemma DeliverMeans(p: Public, tid: int, kwh: real)
    ensures DeliveredTo(p, if kwh > 0.0 then Deliver(p, tid, kwh) else p, tid, kwh)
  {
    var n := HundredthsIsNearest(kwh);
    assert InHundredths(kwh, n, Hundredths(kwh));
  }

  lemma OneRowPerActive(ss: seq<Session>, cp: string, tid: int, sid: nat)
    requires IdsIncrease(ss) && sid < |ss| && IsActive16(ss[sid], cp, tid)
    ensures FindActive(ss, cp, tid) == Some(sid)
  {
  }

  /** Energy and peak go up to what the entry says, and nothing else changes but what is history. */
  ghost predicate RaisedTo(s: Session, s': Session, kwh: real, power: real) {
    && s' == s.(energy := s'.energy, peak := s'.peak, samples := s'.samples)
    && (if kwh > 0.0 || power > 0.0 then
          && s'.energy == (if kwh > s.energy then kwh else s.energy)
          && s'.peak == (if power > s.peak then power else s.peak)
        else s'.energy == s.energy && s'.peak == s.peak)
  }

  /** A positive energy, in hundredths of a kWh, replaces what a public session of the transaction shows. */
  ghost predicate DeliveredTo(p: Public, p': Public, tid: int, kwh: real) {
    if p.tid == Some(tid) && kwh > 0.0 then
      p' == p.(kwh := p'.kwh) && exists n: int :: InHundredths(kwh, n, p'.kwh)
    else p' == p
  }

  predicate InHundredths(x: real, n: int, y: real) {
    NearestUp(100.0 * x, n) && y == n as real / 100.0
  }

  // ---------------------------------------------------------------- StopTransaction

  /** The row as a stop leaves it: closed at `now` with the energy since meterStart. */
  predicate IsStopped(s: Session, s': Session, meterStop: real, reason: string, now: int, kwh: real) {
    s' == Session(s.cp, s.tid, s.txn, s.meterStart, Completed, Some(now), reason, Some(meterStop), kwh, s.peak,
                  s.wins + 1, s.samples)
  }

  /** A public session of the transaction that has not stopped stops now, at this energy. */
  ghost predicate SettledTo(p: Public, p': Public, tid: int, kwh: real, now: int) {
    if p.tid == Some(tid) && p.stoppedAt == None then
      p' == p.(stoppedAt := Some(now), kwh := p'.kwh) && exists n: int :: InHundredths(kwh, n, p'.kwh)
    else p' == p
  }

  /** One CDR: the session's energy and stop time, priced at 0.35 euro per kWh and 21 % VAT. */
  predicate IsPricedCdr(c: Cdr, sid: nat, time: Option<int>, kwh: real) {
    c.sid == sid && c.stopTime == time && c.energy == kwh && c.cost.Some? && IsCost(kwh, 0.35, c.cost.value)
  }

  ghost predicate StopsTables(st: State, st': State, sid: nat, tid: int, meterStop: real, reason: string, now: int,
                              kwh: real)
    requires sid < |st.sessions|
  {
    && |st'.sessions| == |st.sessions| && |st'.publics| == |st.publics|
    && (forall i :: 0 <= i < |st.sessions| && i != sid ==> st'.sessions[i] == st.sessions[i])
    && IsStopped(st.sessions[sid], st'.sessions[sid], meterStop, reason, now, kwh)
    && (forall p :: 0 <= p < |st.publics| ==> SettledTo(st.publics[p], st'.publics[p], tid, kwh, now))
  }

  ghost predicate IsBilled(st: State, st': State, sid: nat, now: int, kwh: real) {
    && |st'.cdrs| == |st.cdrs| + 1 && st'.cdrs[..|st.cdrs|] == st.cdrs
    && IsPricedCdr(st'.cdrs[|st.cdrs|], sid, Some(now), kwh)
    && st'.events == st.events + [SessionCdr(sid, kwh), SessionStop(sid, kwh)]
  }

  /** Everything a stop of row sid changes. */
  ghost predicate StopsRow(st: State, st': State, sid: nat, tid: int, meterStop: real, reason: string, now: int,
                           kwh: real)
    requires sid < |st.sessions|
  {
    StopsTables(st, st', sid, tid, meterStop, reason, now, kwh) && IsBilled(st, st', sid, now, kwh)
  }

  /** A whole StopTransaction of an active session. */
  lemma StopMeans(st: State, cp: string, sid: nat, tid: int, meterStop: real, reason: string, now: int, kwh: real)
    requires Inv(st) && TaskOf(st.tasks, cp) == Idle && sid < |st.sessions|
    requires st.sessions[sid].cp == cp && st.sessions[sid].tid == Some(tid) && st.sessions[sid].status == Active
    requires IsDelta(meterStop / 1000.0, st.sessions[sid].meterStart, kwh)
    ensures StopsRow(st, Exec(st, StopMessage(cp, Some(tid), meterStop, reason, now)), sid, tid, meterStop, reason, now,
                     kwh)
  {
    OneRowPerActive(st.sessions, cp, tid, sid);
    StopMessageEffect(st, cp, sid, tid, meterStop, reason, now);
    StoppedMeans(st, cp, sid, tid, meterStop, reason, now, kwh);
  }

  lemma StoppedMeans(st: State, cp: string, sid: nat, tid: int, meterStop: real, reason: string, now: int, kwh: real)
    requires sid < |st.sessions| && IsDelta(meterStop / 1000.0, st.sessions[sid].meterStart, kwh)
    ensures StopsRow(st, Stopped(st, cp, sid, tid, meterStop, reason, now), sid, tid, meterStop, reason, now, kwh)
  {
    DeltaIsEnergy(meterStop / 1000.0, st.sessions[sid].meterStart, kwh);
    StoppedRowMeans(st, cp, sid, tid, meterStop, reason, now, kwh);
    StoppedBillMeans(st, cp, sid, tid, meterStop, reason, now, kwh);
  }

  lemma StoppedRowMeans(st: State, cp: string, sid: nat, tid: int, meterStop: real, reason: string, now: int,
                        kwh: real)
    requires sid < |st.sessions| && SessionEnergy(meterStop / 1000.0, st.sessions[sid].meterStart) == kwh
    ensures StopsTables(st, Stopped(st, cp, sid, tid, meterStop, reason, now), sid, tid, meterStop, reason, now, kwh)
  {
    var st' := Stopped(st, cp, sid, tid, meterStop, reason, now);
    forall p | 0 <= p < |st.publics| ensures SettledTo(st.publics[p], st'.publics[p], tid, kwh, now) {
      SettleMeans(st.publics[p], tid, kwh, now);
    }
  }

  lemma StoppedBillMeans(st: State, cp: string, sid: nat, tid: int, meterStop: real, reason: string, now: int,
                         kwh: real)
    requires sid < |st.sessions| && SessionEnergy(meterStop / 1000.0, st.sessions[sid].meterStart) == kwh
    ensures IsBilled(st, Stopped(st, cp, sid, tid, meterStop, reason, now), sid, now, kwh)
  {
    PricedCdr(sid, now, kwh);
  }

  lemma DeltaIsEnergy(register: real, meterStart: real, kwh: real)
    requires IsDelta(register, meterStart, kwh)
    ensures SessionEnergy(register, meterStart) == kwh
  {
  }

  lemma PricedCdr(sid: nat, now: int, kwh: real)
    ensures IsPricedCdr(Cdr(sid, Some(now), kwh, Some(Calculate(kwh))), sid, Some(now), kwh)
  {
    CalculateIff(kwh, 0.35, Calculate(kwh));
  }

  lemma SettleMeans(p: Public, tid: int, kwh: real, now: int)
    ensures SettledTo(p, Settle(p, tid, kwh, now), tid, kwh, now)
  {
    var n := HundredthsIsNearest(kwh);
    assert InHundredths(kwh, n, Hundredths(kwh));
  }

  /** Without an active row a StopTransaction changes nothing. */
  lemma UnknownStopMeans(st: State, cp: string, tid: Option<int>, meterStop: real, reason: string, now: int)
    requires TaskOf(st.tasks, cp) == Idle
    requires tid == None
             || forall i :: 0 <= i < |st.sessions| ==>
                  !(st.sessions[i].cp == cp && st.sessions[i].tid == tid && st.sessions[i].status == Active)
    ensures Exec(st, StopMessage(cp, tid, meterStop, reason, now)) == st
  {
    UnknownStopEffect(st, cp, tid, meterStop, reason, now);
  }

  // ---------------------------------------------------------------- OCPP 2.0.1

  /** A session without a 1.6 id, remembered in the map of the connection. */
  lemma Started201Means(st: State, cp: string, txn: string)
    requires TaskOf(st.tasks, cp) == Idle
    ensures var st' := Exec(st, [Started201Step(cp, txn)]);
            && |st'.sessions| == |st.sessions| + 1 && st'.sessions[..|st.sessions|] == st.sessions
            && var s := st'.sessions[|st.sessions|];
               && s.cp == cp && s.txn == Some(txn) && s.tid == None && s.status == Active
               && s.energy == 0.0 && s.peak == 0.0 && s.stopTime == None
               && cp in st'.caches && txn in st'.caches[cp] && st'.caches[cp][txn] == |st.sessions|
               && st'.events == st.events + [SessionStart(|st.sessions|)]
               && st'.publics == st.publics && st'.cdrs == st.cdrs
  {
    ExecOne(st, Started201Step(cp, txn));
  }

  /** From s to s' the row took the maxima of these readings; without an energy a reading counts for nothing. */
  ghost predicate TakesMaxima(s: Session, s': Session, readings: seq<Reading>) {
    && s'.energy >= s.energy && s'.peak >= s.peak
    && (forall r :: r in readings && HasEnergy(r) ==>
          r.energy.value <= s'.energy && forall p :: PowerIs(r, p) ==> p <= s'.peak)
    && (s'.energy == s.energy || exists r :: r in readings && HasEnergy(r) && r.energy.value == s'.energy)
    && (s'.peak == s.peak || exists r :: r in readings && HasEnergy(r) && PowerIs(r, s'.peak))
  }

  /** What stays of a row while it is metered. */
  predicate OnlyMetered(s: Session, s': Session) {
    s' == s.(energy := s'.energy, peak := s'.peak, samples := s'.samples)
  }

  /** The events of n readings. */
  ghost predicate MeterEvents(before: seq<Event>, after: seq<Event>, row: Option<nat>, readings: seq<Reading>, n: nat) {
    && n <= |readings| && |after| == |before| + n && after[..|before|] == before
    && forall i :: 0 <= i < n ==>
         after[|before| + i] == SessionMeter(row, if readings[i].energy.Some? then readings[i].energy.value else 0.0)
  }

  /** The rows n readings further. */
  ghost predicate RowsMean(ss: seq<Session>, ss': seq<Session>, row: Option<nat>, readings: seq<Reading>, n: nat) {
    && |ss'| == |ss| && n <= |readings|
    && (forall i :: 0 <= i < |ss| && row != Some(i) ==> ss'[i] == ss[i])
    && (row.Some? && row.value < |ss| ==>
          && OnlyMetered(ss[row.value], ss'[row.value])
          && TakesMaxima(ss[row.value], ss'[row.value], readings[..n]))
  }

  predicate OthersStay(st: State, st': State) {
    st'.publics == st.publics && st'.cdrs == st.cdrs && st'.caches == st.caches
  }

  lemma TakesOneMore(s: Session, s': Session, readings: seq<Reading>, n: nat)
    requires n < |readings| && OnlyMetered(s, s') && TakesMaxima(s, s', readings[..n])
    ensures OnlyMetered(s, Raise201(s', readings[n])) && TakesMaxima(s, Raise201(s', readings[n]), readings[..n + 1])
  {
    var r := readings[n];
    OneReadingRaises(s', r);
    assert readings[..n + 1] == readings[..n] + [r];
    assert PowerIs(r, OrZero(r.power));
  }

  lemma RowsOneMore(ss: seq<Session>, ss': seq<Session>, row: Option<nat>, readings: seq<Reading>, n: nat)
    requires n < |readings| && RowsMean(ss, ss', row, readings, n)
    ensures RowsMean(ss, if row.Some? && row.value < |ss| then ss'[row.value := Raise201(ss'[row.value], readings[n])]
                         else ss', row, readings, n + 1)
  {
    if row.Some? && row.value < |ss| {
      TakesOneMore(ss[row.value], ss'[row.value], readings, n);
    }
  }

  ghost predicate ValuesMean(st: State, st': State, row: Option<nat>, readings: seq<Reading>, n: nat) {
    && RowsMean(st.sessions, st'.sessions, row, readings, n) && OthersStay(st, st')
    && MeterEvents(st.events, st'.events, row, readings, n)
  }

  lemma NoValuesYet(st: State, row: Option<nat>, readings: seq<Reading>)
    ensures ValuesMean(st, st, row, readings, 0)
  {
  }

  lemma EventsOneMore(before: seq<Event>, after: seq<Event>, row: Option<nat>, readings: seq<Reading>, n: nat)
    requires n < |readings| && MeterEvents(before, after, row, readings, n)
    ensures MeterEvents(before, after + [SessionMeter(row, OrZero(readings[n].energy))], row, readings, n + 1)
  {
  }

  lemma OneMoreValue(st: State, mid: State, cp: string, row: Option<nat>, readings: seq<Reading>, n: nat,
                     ended: bool, reason: string, now: int)
    requires n < |readings| && ValuesMean(st, mid, row, readings, n)
    requires TaskOf(mid.tasks, cp) == Metering201(row, readings[n..], ended)
    ensures ValuesMean(st, Meter201(mid, cp, reason, now), row, readings, n + 1)
  {
    OneValue(mid, cp, row, readings[n..], ended, reason, now);
    RowsOneMore(st.sessions, mid.sessions, row, readings, n);
    EventsOneMore(st.events, mid.events, row, readings, n);
  }

  lemma {:induction false} ValuesRunMeans(st: State, n: nat, cp: string, row: Option<nat>, readings: seq<Reading>,
                                          ended: bool, reason: string, now: int)
    requires TaskOf(st.tasks, cp) == Metering201(row, readings, ended) && n <= |readings|
    ensures ValuesMean(st, ValuesRun(st, n, cp, reason, now), row, readings, n)
  {
    if n == 0 {
      NoValuesYet(st, row, readings);
    } else {
      ValuesRunMeans(st, n - 1, cp, row, readings, ended, reason, now);
      ValuesDone(st, n - 1, cp, row, readings, ended, reason, now);
      OneMoreValue(st, ValuesRun(st, n - 1, cp, reason, now), cp, row, readings, n - 1, ended, reason, now);
    }
  }

  /** What the end of a report does to the row it closes. */
  predicate IsEnded(s: Session, s': Session, reason: string, now: int) {
    s' == s.(status := Completed, stopTime := Some(now), stopReason := reason, wins := s.wins + 1)
  }

  /** Closed by this report: it is an Ended, and the row is active. */
  predicate Closes(st: State, row: Option<nat>, ended: bool) {
    ended && row.Some? && row.value < |st.sessions| && st.sessions[row.value].status == Active
  }

  lemma UnfinishedMeans(st: State, cp: string, row: Option<nat>, ended: bool, reason: string, now: int)
    requires TaskOf(st.tasks, cp) == Metering201(row, [], ended) && !Closes(st, row, ended)
    ensures Finished(st, cp, reason, now) == st.(tasks := st.tasks[cp := Idle])
  {
    assert Meter201(st, cp, reason, now) == st.(tasks := st.tasks[cp := Idle]);
  }

  lemma ClosedMeans(st: State, cp: string, sid: nat, reason: string, now: int)
    requires TaskOf(st.tasks, cp) == Metering201(Some(sid), [], true) && Closes(st, Some(sid), true)
    ensures var st', kwh := Finished(st, cp, reason, now), st.sessions[sid].energy;
            && TaskOf(st'.tasks, cp) == Idle && st'.publics == st.publics && st'.caches == st.caches
            && |st'.sessions| == |st.sessions|
            && (forall i :: 0 <= i < |st.sessions| && i != sid ==> st'.sessions[i] == st.sessions[i])
            && IsEnded(st.sessions[sid], st'.sessions[sid], reason, now)
            && st'.cdrs == st.cdrs + [Cdr(sid, Some(now), kwh, None)]
            && st'.events == st.events + [SessionCdr(sid, kwh), SessionStop(sid, kwh)]
  {
    var mid := Meter201(st, cp, reason, now);
    assert TaskOf(mid.tasks, cp) == SelectingCdr(sid, st.sessions[sid].energy, false);
  }

  /** The end of a report: an Ended closes its active row, bills it without a price, and announces it. */
  lemma FinishedMeans(st: State, cp: string, row: Option<nat>, ended: bool, reason: string, now: int)
    requires TaskOf(st.tasks, cp) == Metering201(row, [], ended)
    ensures var st' := Finished(st, cp, reason, now);
            && (!Closes(st, row, ended) ==>
                  st'.sessions == st.sessions && st'.cdrs == st.cdrs && st'.events == st.events)
            && (Closes(st, row, ended) ==>
                  var sid, kwh := row.value, st.sessions[row.value].energy;
                  && |st'.sessions| == |st.sessions|
                  && (forall i :: 0 <= i < |st.sessions| && i != sid ==> st'.sessions[i] == st.sessions[i])
                  && IsEnded(st.sessions[sid], st'.sessions[sid], reason, now)
                  && st'.cdrs == st.cdrs + [Cdr(sid, Some(now), kwh, None)]
                  && st'.events == st.events + [SessionCdr(sid, kwh), SessionStop(sid, kwh)])
            && TaskOf(st'.tasks, cp) == Idle && st'.publics == st.publics && st'.caches == st.caches
  {
    if Closes(st, row, ended) {
      ClosedMeans(st, cp, row.value, reason, now);
    } else {
      UnfinishedMeans(st, cp, row, ended, reason, now);
    }
  }

  /** The map after a look-up: an Updated remembers the row it found, an Ended forgets the transaction. */
  ghost predicate IsRemembered(cache: map<string, nat>, cache': map<string, nat>, txn: string, row: Option<nat>,
                               ended: bool)
  {
    && (forall t :: t in cache && t != txn ==> t in cache' && cache'[t] == cache[t])
    && (forall t :: t in cache' && t != txn ==> t in cache)
    && (ended ==> txn !in cache')
    && (!ended && row.Some? ==> txn in cache' && cache'[txn] == row.value)
    && (!ended && row == None ==> (txn in cache' <==> txn in cache))
  }

  /** The row of a report: the remembered one, or else any active one of the charger and transaction. */
  ghost predicate IsFound(ss: seq<Session>, cache: map<string, nat>, cp: string, txn: string, row: Option<nat>) {
    if txn in cache then row == Some(cache[txn])
    else match row
      case Some(i) => i < |ss| && ss[i].cp == cp && ss[i].txn == Some(txn) && ss[i].status == Active
      case None => forall i :: 0 <= i < |ss| ==> !(ss[i].cp == cp && ss[i].txn == Some(txn) && ss[i].status == Active)
  }

  lemma ResolveMeans(st: State, cp: string, txn: string, ended: bool, readings: seq<Reading>, row: Option<nat>)
    requires TaskOf(st.tasks, cp) == Idle && IsFound(st.sessions, CacheOf(st.caches, cp), cp, txn, row)
    ensures var st' := Resolve201(st, cp, txn, ended, readings, row);
            && st'.sessions == st.sessions && st'.publics == st.publics
            && st'.cdrs == st.cdrs && st'.events == st.events
            && TaskOf(st'.tasks, cp) == Metering201(row, readings, ended)
            && IsRemembered(CacheOf(st.caches, cp), CacheOf(st'.caches, cp), txn, row, ended)
  {
  }

  /**
   A whole report: its row takes the maxima of all its readings, and an Ended closes it if it is active, at that
   energy; there is an event for every reading.
   */
  lemma ReportMeans(st: State, cp: string, txn: string, ended: bool, readings: seq<Reading>, row: Option<nat>,
                    reason: string, now: int) returns (mid: State)
    requires TaskOf(st.tasks, cp) == Idle && IsFound(st.sessions, CacheOf(st.caches, cp), cp, txn, row)
    requires row.Some? ==> row.value < |st.sessions|
    ensures RowsMean(st.sessions, mid.sessions, row, readings, |readings|)
    ensures MeterEvents(st.events, mid.events, row, readings, |readings|)
    ensures mid.publics == st.publics && mid.cdrs == st.cdrs
    ensures IsRemembered(CacheOf(st.caches, cp), CacheOf(mid.caches, cp), txn, row, ended)
    ensures TaskOf(mid.tasks, cp) == Metering201(row, [], ended)
    ensures Exec(st, ReportMessage(cp, txn, ended, readings, row, reason, now)) == Finished(mid, cp, reason, now)
  {
    var st1 := Resolve201(st, cp, txn, ended, readings, row);
    ResolveMeans(st, cp, txn, ended, readings, row);
    mid := ValuesRun(st1, |readings|, cp, reason, now);
    ValuesRunMeans(st1, |readings|, cp, row, readings, ended, reason, now);
    ValuesDone(st1, |readings|, cp, row, readings, ended, reason, now);
    ReportSteps(st, cp, txn, ended, readings, row, reason, now);
  }

  // ---------------------------------------------------------------- what the messages say

  /** A 1.6 entry: its last energy sample and its power, 0 where it has none. */
  lemma SampleIsSaid(samples: seq<Sample>)
    ensures var x, r := SampleOf(samples), ReadingsOf(samples);
            && (if r.register.Some? then LastSays(samples, Register, Some(x.register)) else x.register == 0.0)
            && x.power == (if r.power.Some? then r.power.value else 0.0)
  {
    ReadingsAreSaid(samples);
  }

  /** A 2.0.1 meter value: its last energy sample and its last power sample. */
  lemma ReadingIsSaid(samples: seq<Sample>)
    ensures M201.LastSays(samples, Register, ReadingOf(samples).energy)
    ensures M201.LastSays(samples, Power, ReadingOf(samples).power)
  {
    M201.ReadingsAreSaid(samples);
  }

  // ---------------------------------------------------------------- stale-session closer and REST API

  /** The closer's mark on an active stale session, and on no other. */
  lemma ClosedRowMeans(s: Session, stale: bool, now: int)
    ensures var s' := AfterCloser(s, stale, now);
            if s.status == Active && stale then
              s' == Session(s.cp, s.tid, s.txn, s.meterStart, AutoClosed, Some(now), "StaleSessionAutoClose",
                            s.meterStop, s.energy, s.peak, s.wins, s.samples)
            else s' == s
  {
  }

  /** A query of the closer selects active rows only. */
  lemma FetchMeans(st: State, rows: set<nat>)
    ensures CloserFetch(st, rows).fetched != st.fetched ==>
              forall sid :: sid in rows ==> sid < |st.sessions| && st.sessions[sid].status == Active
    ensures CloserFetch(st, rows) == st.(fetched := CloserFetch(st, rows).fetched)
    ensures (forall sid :: sid in rows ==> sid < |st.sessions| && st.sessions[sid].status == Active) ==>
              CloserFetch(st, rows).fetched == st.fetched + rows
  {
  }

  /** One update of the closer, which looks at no status. */
  lemma CloserMeans(st: State, sid: nat, now: int)
    requires sid in st.fetched && sid < |st.sessions|
    ensures var s, st' := st.sessions[sid], CloserClose(st, sid, now);
            && st' == st.(sessions := st'.sessions, fetched := st.fetched - {sid})
            && st'.sessions == st.sessions[sid := Session(
                 s.cp, s.tid, s.txn, s.meterStart, AutoClosed, Some(now), "StaleSessionAutoClose", s.meterStop,
                 s.energy, s.peak, s.wins, s.samples)]
  {
  }

  /** The API's writes: a new session waits, unlinked; a cancel and a failed start touch only an unstarted one. */
  lemma ApiMeans(st: State, p: nat, prefix: string, status: string, now: int)
    ensures CreatePublic(st, prefix, now).publics
         == st.publics + [Public(prefix, now, "pending", None, None, None, 0.0)]
    ensures p < |st.publics| ==>
              var r := st.publics[p];
              && PayPublic(st, p, status).publics == st.publics[p := r.(payment := status)]
              && CancelPublic(st, p, now).publics
                 == (if r.startedAt == None then st.publics[p := r.(payment := "cancelled", stoppedAt := Some(now))]
                     else st.publics)
              && FailStart(st, p).publics
                 == (if r.startedAt == None then st.publics[p := r.(payment := "remote_start_failed")] else st.publics)
  {
  }
}
