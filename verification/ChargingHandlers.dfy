/**
 The message handlers and the stale-session closer, as code that updates the tables row by row.  Each is
 proved to do exactly the steps of its message, so the run theorems speak about these bodies.
 */
module ChargingHandlers {
  import opened Common
  import opened SampledValues
  import opened Meter16
  import opened CdrCost
  import opened ChargingState
  import opened BillingTheorems
  import M201 = Meter201

  // ---------------------------------------------------------------- the steps of a message

  /** The session a transactionId looks up. */
  function Lookup(st: State, cp: string, tid: Option<int>): Option<nat> {
    if tid.Some? && tid.value != 0 then FindActive(st.sessions, cp, tid.value) else None
  }

  function SampleOf(samples: seq<Sample>): MeterSample {
    var r := ReadingsOf(samples);
    MeterSample(OrZero(r.register), OrZero(r.power))
  }

  /** Energy and power of one 2.0.1 meter value. */
  function ReadingOf(samples: seq<Sample>): Reading {
    var r := M201.ReadingsOf(samples);
    Reading(r.register, r.power)
  }

  predicate AreRead(values: seq<seq<Sample>>, readings: seq<Reading>) {
    |readings| == |values|
    && forall i {:trigger values[i]} :: 0 <= i < |values| ==> readings[i] == ReadingOf(values[i])
  }

  function ReadingsIn(values: seq<seq<Sample>>): seq<Reading> {
    seq(|values|, i requires 0 <= i < |values| => ReadingOf(values[i]))
  }

  /** The statements of a MeterValues message, entry by entry. */
  function MeterMessage(cp: string, tid: Option<int>, entries: seq<seq<Sample>>): seq<Step> {
    if entries == [] then []
    else MeterMessage(cp, tid, entries[..|entries| - 1]) + MeterEntry(cp, tid, SampleOf(entries[|entries| - 1]))
  }

  function Times(n: nat, step: Step): seq<Step> {
    if n == 0 then [] else Times(n - 1, step) + [step]
  }

  /**
   A 2.0.1 Updated or Ended: look-up, one step per meter value, one to finish, and the CDR; without a won
   close the last three find nothing to do.
   */
  function ReportMessage(cp: string, txn: string, ended: bool, readings: seq<Reading>, pick: Option<nat>,
                         reason: string, now: int): seq<Step>
  {
    [Resolve201Step(cp, txn, ended, readings, pick)] + Times(|readings| + 1, Meter201Step(cp, reason, now))
    + [CdrSelectStep(cp), CdrInsertStep(cp), StopPublishStep(cp)]
  }

  // ---------------------------------------------------------------- their effect when nothing interleaves

  lemma UnknownStopEffect(st: State, cp: string, tid: Option<int>, meterStop: real, reason: string, now: int)
    requires TaskOf(st.tasks, cp) == Idle && (tid.Some? ==> FindActive(st.sessions, cp, tid.value).None?)
    ensures Exec(st, StopMessage(cp, tid, meterStop, reason, now)) == st
  {
    StopMessageSteps(st, cp, tid, meterStop, reason, now);
  }

  /** What one MeterValues entry leaves. */
  function Metered(st: State, cp: string, tid: Option<int>, sample: MeterSample): State {
    var sid := Lookup(st, cp, tid);
    var kwh := SessionEnergy(sample.register, if sid.Some? then st.sessions[sid.value].meterStart else 0.0);
    st.(sessions := if sid.Some? then st.sessions[sid.value := Raise(st.sessions[sid.value], sample, kwh)]
                    else st.sessions,
        publics := if tid.Some? && tid.value != 0 && kwh > 0.0 then DeliverAll(st.publics, tid.value, kwh)
                   else st.publics,
        events := st.events + [SessionMeter(sid, kwh)],
        tasks := st.tasks[cp := Idle])
  }

  lemma MeterEntryEffect(st: State, cp: string, tid: Option<int>, sample: MeterSample)
    requires TaskOf(st.tasks, cp) == Idle
    ensures Exec(st, MeterEntry(cp, tid, sample)) == Metered(st, cp, tid, sample)
  {
    MeterEntrySteps(st, cp, tid, sample);
    var st1 := MeterRead(st, cp, tid, sample);
    var st2 := MeterSession(st1, cp);
    assert st2.tasks[cp := Idle] == st.tasks[cp := Idle];
  }

  lemma StartEffect(st: State, cp: string, idTag: string, meterStart: real, pick: Option<nat>, now: int)
    requires TaskOf(st.tasks, cp) == Idle
    requires AppPrefix(idTag).Some? ==> LinkChooses(st.publics, AppPrefix(idTag).value, pick)
    ensures var st' := Exec(st, [StartInsertStep(cp, idTag, meterStart), StartLinkStep(cp, pick, now)]);
            && TaskOf(st'.tasks, cp) == Idle
            && st'.sessions == StartInsert(st, cp, idTag, meterStart).sessions
            && st'.events == StartInsert(st, cp, idTag, meterStart).events
            && st'.cdrs == st.cdrs && st'.caches == st.caches
            && st'.publics == (if AppPrefix(idTag).Some? && pick.Some?
                               then st.publics[pick.value := st.publics[pick.value].(
                                                 tid := Some(MaxTid(st.sessions) + 1), startedAt := Some(now))]
                               else st.publics)
  {
    StartSteps(st, cp, idTag, meterStart, pick, now);
    LinkEffect(StartInsert(st, cp, idTag, meterStart), cp, pick, now);
  }

  lemma LinkEffect(st: State, cp: string, pick: Option<nat>, now: int)
    requires var t := TaskOf(st.tasks, cp);
             t.Idle? || (t.Linking? && LinkChooses(st.publics, t.prefix, pick))
    ensures var t, st' := TaskOf(st.tasks, cp), StartLink(st, cp, pick, now);
            && TaskOf(st'.tasks, cp) == Idle
            && st'.sessions == st.sessions && st'.events == st.events && st'.cdrs == st.cdrs && st'.caches == st.caches
            && st'.publics == (if t.Linking? && pick.Some?
                               then st.publics[pick.value := st.publics[pick.value].(tid := Some(t.tid),
                                                                                     startedAt := Some(now))]
                               else st.publics)
  {
  }

  lemma ExecLast(st: State, steps: seq<Step>, last: Step)
    ensures Exec(st, steps + [last]) == Next(Exec(st, steps), last)
  {
  }

  /** The state n meter values further. */
  function ValuesRun(st: State, n: nat, cp: string, reason: string, now: int): State {
    if n == 0 then st else Meter201(ValuesRun(st, n - 1, cp, reason, now), cp, reason, now)
  }

  lemma NextValue(st: State, cp: string, reason: string, now: int)
    ensures Next(st, Meter201Step(cp, reason, now)) == Meter201(st, cp, reason, now)
  {
  }

  lemma {:induction false} ValuesSteps(st: State, n: nat, cp: string, reason: string, now: int)
    ensures Exec(st, Times(n, Meter201Step(cp, reason, now))) == ValuesRun(st, n, cp, reason, now)
  {
    if n > 0 {
      var before, step := Times(n - 1, Meter201Step(cp, reason, now)), Meter201Step(cp, reason, now);
      var mid := ValuesRun(st, n - 1, cp, reason, now);
      assert Exec(st, Times(n, step)) == Next(Exec(st, before), step) by {
        ExecLast(st, before, step);
      }
      assert Exec(st, before) == mid by {
        ValuesSteps(st, n - 1, cp, reason, now);
      }
      assert Next(mid, step) == ValuesRun(st, n, cp, reason, now) by {
        NextValue(mid, cp, reason, now);
      }
    }
  }

  lemma OneValue(st: State, cp: string, sid: Option<nat>, readings: seq<Reading>, ended: bool, reason: string, now: int)
    requires TaskOf(st.tasks, cp) == Metering201(sid, readings, ended) && readings != []
    ensures var st' := Meter201(st, cp, reason, now);
            && TaskOf(st'.tasks, cp) == Metering201(sid, readings[1..], ended)
            && st'.sessions == (if sid.Some? && sid.value < |st.sessions|
                                then st.sessions[sid.value := Raise201(st.sessions[sid.value], readings[0])]
                                else st.sessions)
            && st'.events == st.events + [SessionMeter(sid, OrZero(readings[0].energy))]
            && st'.publics == st.publics && st'.cdrs == st.cdrs && st'.caches == st.caches
  {
  }

  /** n meter values further, the message is at reading n. */
  lemma {:induction false} ValuesDone(st: State, n: nat, cp: string, sid: Option<nat>, readings: seq<Reading>,
                                      ended: bool,
                                      reason: string, now: int)
    requires TaskOf(st.tasks, cp) == Metering201(sid, readings, ended) && n <= |readings|
    ensures TaskOf(ValuesRun(st, n, cp, reason, now).tasks, cp) == Metering201(sid, readings[n..], ended)
  {
    if n > 0 {
      ValuesDone(st, n - 1, cp, sid, readings, ended, reason, now);
      OneValue(ValuesRun(st, n - 1, cp, reason, now), cp, sid, readings[n - 1..], ended, reason, now);
      assert readings[n - 1..][1..] == readings[n..];
    }
  }

  /** The i-th value of the message. */
  lemma ValueDone(st: State, mid: State, i: nat, cp: string, sid: Option<nat>, readings: seq<Reading>, ended: bool,
                  reason: string, now: int) returns (st': State)
    requires TaskOf(st.tasks, cp) == Metering201(sid, readings, ended) && i < |readings|
    requires mid == ValuesRun(st, i, cp, reason, now)
    ensures st' == ValuesRun(st, i + 1, cp, reason, now)
    ensures st'.sessions == (if sid.Some? && sid.value < |mid.sessions|
                             then mid.sessions[sid.value := Raise201(mid.sessions[sid.value], readings[i])]
                             else mid.sessions)
    ensures st'.events == mid.events + [SessionMeter(sid, OrZero(readings[i].energy))]
    ensures st'.publics == mid.publics && st'.cdrs == mid.cdrs && st'.caches == mid.caches
  {
    st' := Meter201(mid, cp, reason, now);
    ValuesDone(st, i, cp, sid, readings, ended, reason, now);
    OneValue(mid, cp, sid, readings[i..], ended, reason, now);
  }

  /** The last four steps of a report. */
  function Finished(st: State, cp: string, reason: string, now: int): State {
    StopPublish(CdrInsert(CdrSelect(Meter201(st, cp, reason, now), cp), cp), cp)
  }

  lemma ReportSteps(st: State, cp: string, txn: string, ended: bool, readings: seq<Reading>, pick: Option<nat>,
                    reason: string, now: int)
    ensures Exec(st, ReportMessage(cp, txn, ended, readings, pick, reason, now))
         == Finished(ValuesRun(Resolve201(st, cp, txn, ended, readings, pick), |readings|, cp, reason, now),
                     cp, reason, now)
  {
    var resolve := [Resolve201Step(cp, txn, ended, readings, pick)];
    var values := Times(|readings| + 1, Meter201Step(cp, reason, now));
    var last := [CdrSelectStep(cp), CdrInsertStep(cp), StopPublishStep(cp)];
    var st1 := Resolve201(st, cp, txn, ended, readings, pick);
    assert Exec(st, resolve) == st1 by {
      ExecOne(st, resolve[0]);
    }
    ExecAppends(st, resolve, values);
    ValuesSteps(st1, |readings| + 1, cp, reason, now);
    ExecAppends(st, resolve + values, last);
    CdrSteps(Exec(st, resolve + values), cp);
  }

  // ---------------------------------------------------------------- the code

  class Core {
    var sessions: seq<Session>
    var publics: seq<Public>
    var cdrs: seq<Cdr>
    var events: seq<Event>
    var active: map<string, map<string, nat>>

    /** The tables are those of st. */
    ghost predicate Shows(st: State)
      reads this
    {
      sessions == st.sessions && publics == st.publics && cdrs == st.cdrs && events == st.events && active == st.caches
    }

    constructor ()
      ensures Shows(INITIAL)
    {
      sessions, publics, cdrs, events, active := [], [], [], [], map[];
    }

    /** The most recently created linkable public session. */
    method NewestLinkable(prefix: string) returns (pick: Option<nat>)
      ensures LinkChooses(publics, prefix, pick)
    {
      pick := None;
      for i := 0 to |publics|
        invariant pick.Some? ==> pick.value < i && Linkable(publics[pick.value], prefix)
        invariant forall q :: 0 <= q < i && Linkable(publics[q], prefix) ==>
                    pick.Some? && publics[q].createdAt <= publics[pick.value].createdAt
      {
        if Linkable(publics[i], prefix) && (pick.None? || publics[pick.value].createdAt <= publics[i].createdAt) {
          pick := Some(i);
        }
      }
    }

    method HandleStartTransaction(cp: string, idTag: string, meterStart: real, now: int, ghost st: State)
      returns (tid: int, ghost pick: Option<nat>)
      requires Shows(st) && TaskOf(st.tasks, cp) == Idle
      modifies this
      ensures tid == MaxTid(old(sessions)) + 1
      ensures var st' := Exec(st, [StartInsertStep(cp, idTag, meterStart), StartLinkStep(cp, pick, now)]);
              Shows(st') && TaskOf(st'.tasks, cp) == Idle
    {
      tid := MaxTid(sessions) + 1;
      pick := None;
      var sid := |sessions|;
      sessions := sessions + [Session(cp, Some(tid), None, meterStart, Active, None, "", None, 0.0, 0.0, 0, [])];
      events := events + [SessionStart(sid)];
      if "APP_" <= idTag {
        var prefix := Lower(idTag[4..]);
        var newest := NewestLinkable(prefix);
        if newest.Some? {
          publics := publics[newest.value := publics[newest.value].(tid := Some(tid), startedAt := Some(now))];
        }
        pick := newest;
      }
      StartEffect(st, cp, idTag, meterStart, pick, now);
    }

    method HandleMeterValues(cp: string, tid: Option<int>, entries: seq<seq<Sample>>, ghost st: State)
      requires Shows(st) && TaskOf(st.tasks, cp) == Idle
      modifies this
      ensures var st' := Exec(st, MeterMessage(cp, tid, entries));
              Shows(st') && TaskOf(st'.tasks, cp) == Idle
    {
      for i := 0 to |entries|
        invariant Shows(Exec(st, MeterMessage(cp, tid, entries[..i])))
        invariant TaskOf(Exec(st, MeterMessage(cp, tid, entries[..i])).tasks, cp) == Idle
      {
        ghost var before := Exec(st, MeterMessage(cp, tid, entries[..i]));
        var readings := ParseSampledValues(entries[i]);
        var power := OrZero(readings.power);
        var register := OrZero(readings.register);
        ProcessEntry(cp, tid, MeterSample(register, power), before);
        assert entries[..i + 1][..i] == entries[..i];
        ExecAppends(st, MeterMessage(cp, tid, entries[..i]), MeterEntry(cp, tid, SampleOf(entries[i])));
        MeterEntryEffect(before, cp, tid, SampleOf(entries[i]));
      }
      assert entries[..|entries|] == entries;
    }

    /** The database work of one entry. */
    method ProcessEntry(cp: string, tid: Option<int>, sample: MeterSample, ghost st: State)
      requires Shows(st)
      modifies this
      ensures Shows(Metered(st, cp, tid, sample))
    {
      var sid: Option<nat> := None;
      var meterStart := 0.0;
      if tid.Some? && tid.value != 0 {
        sid := FindActive(sessions, cp, tid.value);
        if sid.Some? { meterStart := sessions[sid.value].meterStart; }
      }
      var kwh := SessionEnergy(sample.register, meterStart);
      if sid.Some? {
        sessions := sessions[sid.value := Raise(sessions[sid.value], sample, kwh)];
      }
      if tid.Some? && tid.value != 0 && kwh > 0.0 {
        publics := DeliverAll(publics, tid.value, kwh);
      }
      events := events + [SessionMeter(sid, kwh)];
    }

    method HandleStopTransaction(cp: string, tid: Option<int>, meterStop: real, reason: string, now: int,
                                 ghost st: State)
      requires Shows(st) && TaskOf(st.tasks, cp) == Idle
      modifies this
      ensures var st' := Exec(st, StopMessage(cp, tid, meterStop, reason, now));
              Shows(st') && TaskOf(st'.tasks, cp) == Idle
    {
      var row: Option<nat> := None;
      if tid.Some? {
        row := FindActive(sessions, cp, tid.value);
      }
      if row.None? {
        UnknownStopEffect(st, cp, tid, meterStop, reason, now);
        return;
      }
      StopMessageEffect(st, cp, row.value, tid.value, meterStop, reason, now);
      var sid := row.value;
      var finalEnergy := SessionEnergy(meterStop / 1000.0, sessions[sid].meterStart);
      sessions := sessions[sid := sessions[sid].(status := Completed, stopTime := Some(now), stopReason := reason,
                                                 meterStop := Some(meterStop), energy := finalEnergy,
                                                 wins := sessions[sid].wins + 1)];
      publics := SettleAll(publics, tid.value, finalEnergy, now);
      GenerateCdr(sid);
      events := events + [SessionStop(sid, finalEnergy)];
    }

    /** Reads the session again and bills what it finds, if it finds it. */
    method GenerateCdr(sid: nat)
      modifies this`cdrs, this`events
      ensures sid >= |sessions| ==> cdrs == old(cdrs) && events == old(events)
      ensures sid < |sessions| ==>
                var s := sessions[sid];
                && cdrs == old(cdrs) + [Cdr(sid, s.stopTime, s.energy, Some(Calculate(s.energy)))]
                && IsCost(s.energy, 0.35, cdrs[|old(cdrs)|].cost.value)
                && events == old(events) + [SessionCdr(sid, s.energy)]
    {
      if sid >= |sessions| {
        return;
      }
      var s := sessions[sid];
      var cost := Calculate(s.energy);
      CalculateIff(s.energy, 0.35, cost);
      cdrs := cdrs + [Cdr(sid, s.stopTime, s.energy, Some(cost))];
      events := events + [SessionCdr(sid, s.energy)];
    }

    // -------------------------------------------------------------- OCPP 2.0.1

    method TransactionStarted(cp: string, txn: string, ghost st: State)
      requires Shows(st) && TaskOf(st.tasks, cp) == Idle
      modifies this
      ensures Shows(Exec(st, [Started201Step(cp, txn)]))
    {
      var sid := |sessions|;
      sessions := sessions + [Session(cp, None, Some(txn), 0.0, Active, None, "", None, 0.0, 0.0, 0, [])];
      active := active[cp := CacheOf(active, cp)[txn := sid]];
      events := events + [SessionStart(sid)];
      ExecOne(st, Started201Step(cp, txn));
    }

    method FindInDatabase(cp: string, txn: string) returns (pick: Option<nat>)
      ensures DbAnswers(sessions, cp, txn, pick)
    {
      for i := 0 to |sessions|
        invariant forall j :: 0 <= j < i ==> !IsActive201(sessions[j], cp, txn)
      {
        if IsActive201(sessions[i], cp, txn) {
          return Some(i);
        }
      }
      return None;
    }

    /** Updated and Ended: look up, process the meter values, and close when ended. */
    method TransactionReport(cp: string, txn: string, ended: bool, values: seq<seq<Sample>>, reason: string, now: int,
                             ghost st: State)
      returns (ghost pick: Option<nat>)
      requires Shows(st) && TaskOf(st.tasks, cp) == Idle
      requires forall t :: t in CacheOf(active, cp) ==> CacheOf(active, cp)[t] < |sessions|
      modifies this
      ensures LookupAnswers(old(sessions), CacheOf(old(active), cp), cp, txn, pick)
      ensures Shows(Exec(st, ReportMessage(cp, txn, ended, ReadingsIn(values), pick, reason, now)))
    {
      var sid := Resolve(cp, txn, ended);
      pick := sid;
      ghost var readings := ReadingsIn(values);
      ghost var st1 := Resolve201(st, cp, txn, ended, readings, sid);
      ProcessMeterValues(cp, sid, values, readings, ended, reason, now, st1);
      ValuesDone(st1, |readings|, cp, sid, readings, ended, reason, now);
      FinishReport(cp, sid, ended, reason, now, ValuesRun(st1, |readings|, cp, reason, now));
      ReportSteps(st, cp, txn, ended, readings, pick, reason, now);
    }

    method Resolve(cp: string, txn: string, ended: bool) returns (sid: Option<nat>)
      requires forall t :: t in CacheOf(active, cp) ==> CacheOf(active, cp)[t] < |sessions|
      modifies this`active
      ensures LookupAnswers(sessions, CacheOf(old(active), cp), cp, txn, sid)
      ensures active == old(active)[cp := Remembered(CacheOf(old(active), cp), txn, sid, ended)]
      ensures sid.Some? ==> sid.value < |sessions|
    {
      var cache := CacheOf(active, cp);
      if txn in cache {
        sid := Some(cache[txn]);
      } else {
        sid := FindInDatabase(cp, txn);
      }
      if ended {
        cache := cache - {txn};
      } else if sid.Some? {
        cache := cache[txn := sid.value];
      }
      active := active[cp := cache];
    }

    method ReadValue(values: seq<seq<Sample>>, i: nat, ghost readings: seq<Reading>) returns (r: Reading)
      requires AreRead(values, readings) && i < |values|
      ensures r == readings[i]
    {
      var parsed := M201.ParseSampledValues(values[i]);
      r := Reading(parsed.register, parsed.power);
    }

    method ProcessMeterValues(cp: string, sid: Option<nat>, values: seq<seq<Sample>>, ghost readings: seq<Reading>,
                              ghost ended: bool, ghost reason: string, ghost now: int, ghost st: State)
      requires Shows(st) && TaskOf(st.tasks, cp) == Metering201(sid, readings, ended)
      requires AreRead(values, readings)
      requires sid.Some? ==> sid.value < |sessions|
      modifies this`sessions, this`events
      ensures Shows(ValuesRun(st, |values|, cp, reason, now))
      ensures |sessions| == old(|sessions|)
    {
      ghost var mid := st;
      for i := 0 to |values|
        invariant mid == ValuesRun(st, i, cp, reason, now) && Shows(mid) && |sessions| == old(|sessions|)
      {
        mid := ValueDone(st, mid, i, cp, sid, readings, ended, reason, now);
        var r := ReadValue(values, i, readings);
        ProcessValue(sid, r);
      }
    }

    /** The database work of one meter value: nothing without an energy, else the maxima; and an event. */
    method ProcessValue(sid: Option<nat>, r: Reading)
      requires sid.Some? ==> sid.value < |sessions|
      modifies this`sessions, this`events
      ensures sid.Some? ==> sessions == old(sessions)[sid.value := Raise201(old(sessions)[sid.value], r)]
      ensures sid.None? ==> sessions == old(sessions)
      ensures events == old(events) + [SessionMeter(sid, OrZero(r.energy))]
    {
      if sid.Some? && r.energy.Some? && r.energy.value != 0.0 {
        var s := sessions[sid.value];
        var sample := MeterSample(r.energy.value, OrZero(r.power));
        sessions := sessions[sid.value := s.(energy := Max(s.energy, sample.register),
                                             peak := Max(s.peak, sample.power), samples := s.samples + [sample])];
      }
      events := events + [SessionMeter(sid, OrZero(r.energy))];
    }

    method FinishReport(cp: string, sid: Option<nat>, ended: bool, reason: string, now: int, ghost st: State)
      requires Shows(st) && TaskOf(st.tasks, cp) == Metering201(sid, [], ended)
      requires sid.Some? ==> sid.value < |sessions|
      modifies this
      ensures Shows(Finished(st, cp, reason, now))
    {
      if ended && sid.Some? && sessions[sid.value].status == Active {
        var s := sessions[sid.value];
        sessions := sessions[sid.value := s.(status := Completed, stopTime := Some(now), stopReason := reason,
                                             wins := s.wins + 1)];
        var row := sessions[sid.value];
        if row.stopTime.Some? {
          cdrs := cdrs + [Cdr(sid.value, row.stopTime, row.energy, None)];
          events := events + [SessionCdr(sid.value, row.energy)];
        }
        events := events + [SessionStop(sid.value, s.energy)];
      }
    }

    // -------------------------------------------------------------- stale-session closer

    /**
     Closes every active session that a pass finds stale and whose connector is not still charging, and
     counts them.  The conditions of the two queries and the connector status are parameters.
     */
    method CloseStaleSessions(noMeter: nat -> bool, lowPower: nat -> bool, charging: nat -> bool, now: int,
                              ghost st: State)
      returns (closed: nat, ghost steps: seq<Step>)
      requires Shows(st)
      modifies this`sessions
      ensures Shows(Exec(st, steps))
      ensures |sessions| == old(|sessions|)
      ensures forall sid: nat :: sid < |sessions| ==>
                sessions[sid] == AfterCloser(old(sessions[sid]), !charging(sid) && (noMeter(sid) || lowPower(sid)), now)
      ensures closed == CountClosed(old(sessions), sessions)
    {
      ghost var start := sessions;
      var staleNoMeter, first, steps1 := CloserPass(noMeter, [], charging, now, st, []);
      ghost var middle := sessions;
      var staleLowPower, second, steps2 := CloserPass(lowPower, staleNoMeter, charging, now, st, steps1);
      closed, steps := first + second, steps2;
      TwoPasses(start, middle, sessions, noMeter, lowPower, staleNoMeter, charging, now);
    }

    /** A query and its loop. */
    method CloserPass(stale: nat -> bool, skip: seq<nat>, charging: nat -> bool, now: int, ghost st: State,
                      ghost before: seq<Step>)
      returns (rows: seq<nat>, closed: nat, ghost steps: seq<Step>)
      requires Shows(Exec(st, before))
      modifies this`sessions
      ensures Shows(Exec(st, steps))
      ensures forall sid: nat :: sid in rows <==>
                sid < old(|sessions|) && old(sessions)[sid].status == Active && stale(sid)
      ensures ClosedByPass(old(sessions), sessions, stale, skip, charging, now)
      ensures closed == CountClosed(old(sessions), sessions)
    {
      rows := FetchActive(stale);
      FetchStep(st, before, rows);
      closed, steps := ClosePass(rows, skip, charging, now, st, before + [CloserFetchStep(AsSet(rows))]);
    }

    /** One loop over fetched rows; `skip` are those the loop before it handled. */
    method ClosePass(rows: seq<nat>, skip: seq<nat>, charging: nat -> bool, now: int, ghost st: State,
                     ghost before: seq<Step>)
      returns (closed: nat, ghost steps: seq<Step>)
      requires Shows(Exec(st, before))
      requires forall sid: nat :: sid in rows ==> sid < |sessions| && sessions[sid].status == Active
      requires AllFetched(rows, Exec(st, before).fetched) && Distinct(rows)
      modifies this`sessions
      ensures Shows(Exec(st, steps))
      ensures |sessions| == old(|sessions|)
      ensures forall sid: nat :: sid < |sessions| ==>
                sessions[sid] == AfterCloser(old(sessions[sid]), !charging(sid) && sid !in skip && sid in rows, now)
      ensures closed == CountClosed(old(sessions), sessions)
    {
      closed, steps := 0, before;
      ghost var start, mid := sessions, Exec(st, before);
      CountNone(start);
      assert rows[0..] == rows;
      for i := 0 to |rows|
        invariant ClosedRows(start, sessions, rows[..i], skip, charging, now)
        invariant closed == CountClosed(start, sessions)
        invariant mid == Exec(st, steps) && Shows(mid)
        invariant AllFetched(rows[i..], mid.fetched)
      {
        var sid := rows[i];
        NextRow(rows, i, mid.fetched);
        ClosedOneMore(start, sessions, rows[..i], sid, skip, charging, now);
        if sid in skip || charging(sid) {
          continue;
        }
        CountOneMore(start, sessions, sid, now);
        mid := CloseStep(st, steps, mid, sid, now);
        steps := steps + [CloserCloseStep(sid, now)];
        sessions := sessions[sid := AutoClose(sessions[sid], now)];
        closed := closed + 1;
      }
      assert rows[..|rows|] == rows;
    }

    /** The active rows a condition selects, each once. */
    method FetchActive(stale: nat -> bool) returns (rows: seq<nat>)
      ensures forall sid: nat :: sid in rows <==> sid < |sessions| && sessions[sid].status == Active && stale(sid)
      ensures forall i, j :: 0 <= i < j < |rows| ==> rows[i] != rows[j]
    {
      rows := [];
      for sid := 0 to |sessions|
        invariant forall x: nat :: x in rows <==> x < sid && sessions[x].status == Active && stale(x)
        invariant forall i, j :: 0 <= i < j < |rows| ==> rows[i] != rows[j]
      {
        if sessions[sid].status == Active && stale(sid) {
          rows := rows + [sid];
        }
      }
    }
  }

  ghost predicate AllFetched(rows: seq<nat>, fetched: set<nat>) {
    forall sid :: sid in rows ==> sid in fetched
  }

  ghost predicate Distinct(rows: seq<nat>) {
    forall i, j :: 0 <= i < j < |rows| ==> rows[i] != rows[j]
  }

  lemma NextRow(rows: seq<nat>, i: nat, fetched: set<nat>)
    requires i < |rows| && Distinct(rows) && AllFetched(rows[i..], fetched)
    ensures rows[i] in rows && rows[i] in fetched && rows[i] !in rows[..i] && rows[..i + 1] == rows[..i] + [rows[i]]
    ensures AllFetched(rows[i + 1..], fetched) && AllFetched(rows[i + 1..], fetched - {rows[i]})
  {
    assert rows[i..][0] == rows[i];
    forall sid | sid in rows[i + 1..] ensures sid in rows[i..] && sid != rows[i] {
      var j :| 0 <= j < |rows[i + 1..]| && rows[i + 1..][j] == sid;
      assert rows[i + 1 + j] == sid && rows[i..][1 + j] == sid;
    }
  }

  /** The rows handled so far are closed, unless skipped or charging. */
  ghost predicate ClosedRows(ss: seq<Session>, ss': seq<Session>, rows: seq<nat>, skip: seq<nat>,
                             charging: nat -> bool, now: int)
  {
    && |ss'| == |ss|
    && forall sid: nat :: sid < |ss| ==>
         ss'[sid] == AfterCloser(ss[sid], !charging(sid) && sid !in skip && sid in rows, now)
  }

  lemma ClosedOneMore(ss: seq<Session>, ss': seq<Session>, rows: seq<nat>, sid: nat, skip: seq<nat>,
                      charging: nat -> bool, now: int)
    requires ClosedRows(ss, ss', rows, skip, charging, now)
    requires sid < |ss| && ss[sid].status == Active && sid !in rows
    ensures ss'[sid] == ss[sid]
    ensures ClosedRows(ss, if sid in skip || charging(sid) then ss' else ss'[sid := AutoClose(ss'[sid], now)],
                       rows + [sid], skip, charging, now)
  {
  }

  function AsSet(rows: seq<nat>): set<nat> {
    set sid | sid in rows
  }

  /** What one pass does to every row. */
  ghost predicate ClosedByPass(ss: seq<Session>, ss': seq<Session>, stale: nat -> bool, skip: seq<nat>,
                               charging: nat -> bool, now: int) {
    && |ss'| == |ss|
    && forall sid: nat :: sid < |ss| ==>
         ss'[sid] == AfterCloser(ss[sid], !charging(sid) && sid !in skip && stale(sid), now)
  }

  lemma TwoPasses(start: seq<Session>, middle: seq<Session>, final: seq<Session>, noMeter: nat -> bool,
                  lowPower: nat -> bool,
                  staleNoMeter: seq<nat>, charging: nat -> bool, now: int)
    requires forall sid: nat :: sid in staleNoMeter <==> sid < |start| && start[sid].status == Active && noMeter(sid)
    requires ClosedByPass(start, middle, noMeter, [], charging, now)
    requires ClosedByPass(middle, final, lowPower, staleNoMeter, charging, now)
    ensures forall sid: nat :: sid < |start| ==>
              final[sid] == AfterCloser(start[sid], !charging(sid) && (noMeter(sid) || lowPower(sid)), now)
    ensures CountClosed(start, final) == CountClosed(start, middle) + CountClosed(middle, final)
  {
    CountTwice(start, middle, final);
  }

  /** The fetch of a pass, after some steps. */
  lemma FetchStep(st: State, steps: seq<Step>, rows: seq<nat>)
    requires var mid := Exec(st, steps);
             forall sid: nat :: sid in rows ==> sid < |mid.sessions| && mid.sessions[sid].status == Active
    ensures var mid := Exec(st, steps);
            Exec(st, steps + [CloserFetchStep(AsSet(rows))]) == mid.(fetched := mid.fetched + AsSet(rows))
  {
  }

  /** The update of one fetched row, after some steps. */
  lemma CloseStep(st: State, steps: seq<Step>, mid: State, sid: nat, now: int) returns (st': State)
    requires mid == Exec(st, steps) && sid in mid.fetched && sid < |mid.sessions|
    ensures st' == Exec(st, steps + [CloserCloseStep(sid, now)])
    ensures var closed := mid.sessions[sid := AutoClose(mid.sessions[sid], now)];
            st' == mid.(sessions := closed, fetched := mid.fetched - {sid})
  {
    st' := CloserClose(mid, sid, now);
    ExecLast(st, steps, CloserCloseStep(sid, now));
  }

  function AutoClose(s: Session, now: int): Session {
    s.(status := AutoClosed, stopReason := "StaleSessionAutoClose", stopTime := Some(now))
  }

  function AfterCloser(s: Session, stale: bool, now: int): Session {
    if s.status == Active && stale then AutoClose(s, now) else s
  }

  /** Rows that were active and are not any more. */
  function CountClosed(ss: seq<Session>, ss': seq<Session>): nat
    requires |ss| == |ss'|
  {
    if ss == [] then 0
    else
      var last := |ss| - 1;
      CountClosed(ss[..last], ss'[..last]) + (if ss[last].status == Active && ss'[last].status != Active then 1 else 0)
  }

  lemma {:induction false} CountNone(ss: seq<Session>)
    ensures CountClosed(ss, ss) == 0
  {
    if ss != [] {
      CountNone(ss[..|ss| - 1]);
    }
  }

  lemma {:induction false} CountOneMore(ss: seq<Session>, ss': seq<Session>, sid: nat, now: int)
    requires |ss| == |ss'| && sid < |ss| && ss[sid].status == Active && ss'[sid].status == Active
    ensures CountClosed(ss, ss'[sid := AutoClose(ss'[sid], now)]) == CountClosed(ss, ss') + 1
  {
    var last := |ss| - 1;
    var ss'' := ss'[sid := AutoClose(ss'[sid], now)];
    if sid < last {
      CountOneMore(ss[..last], ss'[..last], sid, now);
      assert ss''[..last] == ss'[..last][sid := AutoClose(ss'[sid], now)];
    } else {
      assert ss''[..last] == ss'[..last];
    }
  }

  /** Two passes close what they close together: no pass reopens a session. */
  lemma {:induction false} CountTwice(ss: seq<Session>, mid: seq<Session>, ss': seq<Session>)
    requires |ss| == |mid| == |ss'|
    requires forall i :: 0 <= i < |ss| && mid[i].status == Active ==> ss[i].status == Active
    requires forall i :: 0 <= i < |ss| && ss'[i].status == Active ==> mid[i].status == Active
    ensures CountClosed(ss, ss') == CountClosed(ss, mid) + CountClosed(mid, ss')
  {
    if ss != [] {
      var last := |ss| - 1;
      CountTwice(ss[..last], mid[..last], ss'[..last]);
    }
  }
}
