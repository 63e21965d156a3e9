/** What holds of every run of the charging core: ids, links, energies, and one bill per session. */
module BillingTheorems {
  import opened Common
  import opened Rounding
  import opened Meter16
  import opened CdrCost
  import opened ChargingState
  import opened ChargingInvariants
  import opened ChargingSteps

  // ---------------------------------------------------------------- rows over a run

  /** How a session row may differ later in a run. */
  ghost predicate LaterSession(s: Session, s': Session) {
    && s'.cp == s.cp && s'.tid == s.tid && s'.txn == s.txn && s'.meterStart == s.meterStart
    && (s.wins == 1 ==> s'.wins == 1 && s'.energy == s.energy && s'.peak == s.peak)
    && (s.wins == 1 ==> s'.stopTime == s.stopTime || s'.status == AutoClosed)
    && (s.status != Active ==> s'.status != Active && s'.wins == s.wins)
    && (s.status == AutoClosed ==> s'.status == AutoClosed)
  }

  ghost predicate LaterSessions(ss: seq<Session>, ss': seq<Session>) {
    |ss| <= |ss'| && forall i :: 0 <= i < |ss| ==> LaterSession(ss[i], ss'[i])
  }

  /**
   Rows are never removed, a transaction id is never reassigned, a session that left `active` never
   returns, and once a stop handler has closed a session its energy and peak power are final, and so is its stop
   time until the closer takes the session.
   */
  lemma {:induction false} SessionsOverRun(st: State, steps: seq<Step>)
    requires Inv(st)
    ensures LaterSessions(st.sessions, Exec(st, steps).sessions)
  {
    if steps != [] {
      var mid := Exec(st, steps[..|steps| - 1]);
      SessionsOverRun(st, steps[..|steps| - 1]);
      RunKeeps(st, steps[..|steps| - 1]);
      NextKeeps(mid, steps[|steps| - 1]);
      LaterOnce(st.sessions, mid.sessions, Who(steps[|steps| - 1]), Next(mid, steps[|steps| - 1]).sessions);
    }
  }

  lemma LaterOnce(ss: seq<Session>, mid: seq<Session>, who: Option<string>, ss': seq<Session>)
    requires LaterSessions(ss, mid) && Evolves(who, mid, ss')
    ensures LaterSessions(ss, ss')
  {
  }

  /**
   A link, once made, is never rewritten; a stopped public session stays stopped, and one that was linked keeps
   its stop time: neither a second stop nor a late cancel moves it.
   */
  ghost predicate LaterPublic(p: Public, p': Public) {
    && p'.prefix == p.prefix && p'.createdAt == p.createdAt
    && (p.tid.Some? ==> p'.tid == p.tid && p'.startedAt == p.startedAt)
    && (p.stoppedAt.Some? ==> p'.stoppedAt.Some?)
    && (p.tid.Some? && p.startedAt.Some? && p.stoppedAt.Some? ==> p'.stoppedAt == p.stoppedAt)
  }

  ghost predicate LaterPublics(ps: seq<Public>, ps': seq<Public>) {
    |ps| <= |ps'| && forall p :: 0 <= p < |ps| ==> LaterPublic(ps[p], ps'[p])
  }

  predicate ApiStep(step: Step) {
    step.CreatePublicStep? || step.CancelPublicStep? || step.PayPublicStep? || step.FailStartStep?
  }

  predicate WritesPublics(step: Step) {
    step.StartLinkStep? || step.MeterPublicStep? || step.StopSettleStep? || ApiStep(step)
  }

  lemma PublicsOverApi(st: State, step: Step)
    requires ApiStep(step)
    ensures LaterPublics(st.publics, Next(st, step).publics)
  {
  }

  lemma PublicsOverMessage(st: State, step: Step)
    requires WritesPublics(step) && !ApiStep(step)
    ensures LaterPublics(st.publics, Next(st, step).publics)
  {
  }

  lemma PublicsUnmoved(st: State, step: Step)
    requires !WritesPublics(step)
    ensures Next(st, step).publics == st.publics
  {
  }

  lemma PublicsOverStep(st: State, step: Step)
    ensures LaterPublics(st.publics, Next(st, step).publics)
  {
    if ApiStep(step) {
      PublicsOverApi(st, step);
    } else if WritesPublics(step) {
      PublicsOverMessage(st, step);
    } else {
      PublicsUnmoved(st, step);
    }
  }

  lemma {:induction false} PublicsOverRun(st: State, steps: seq<Step>)
    ensures LaterPublics(st.publics, Exec(st, steps).publics)
  {
    if steps != [] {
      var mid := Exec(st, steps[..|steps| - 1]);
      PublicsOverRun(st, steps[..|steps| - 1]);
      PublicsOverStep(mid, steps[|steps| - 1]);
      forall p | 0 <= p < |st.publics| ensures LaterPublic(st.publics[p], Exec(st, steps).publics[p]) {
        assert LaterPublic(st.publics[p], mid.publics[p]);
        assert LaterPublic(mid.publics[p], Next(mid, steps[|steps| - 1]).publics[p]);
      }
    }
  }

  // ---------------------------------------------------------------- ids and links

  /**
   Over every run: transaction ids are at least 1 and strictly increase in the order of the Starts, with
   2.0.1 rows in between; a public session is linked iff it is started; and the link is injective both
   ways, from public sessions to transactions and onto the one session row that has the id.
   */
  lemma IdsAndLinks(steps: seq<Step>)
    ensures var st := Exec(INITIAL, steps);
            && (forall i, j :: 0 <= i < j < |st.sessions| && st.sessions[i].tid.Some? && st.sessions[j].tid.Some? ==>
                  1 <= st.sessions[i].tid.value < st.sessions[j].tid.value)
            && (forall p :: 0 <= p < |st.publics| ==> (st.publics[p].tid.Some? <==> st.publics[p].startedAt.Some?))
            && (forall p, q :: 0 <= p < q < |st.publics| && st.publics[p].tid.Some? ==>
                  st.publics[p].tid != st.publics[q].tid)
            && (forall p :: 0 <= p < |st.publics| && st.publics[p].tid.Some? ==>
                  exists sid :: 0 <= sid < |st.sessions| && st.sessions[sid].tid == st.publics[p].tid
                             && forall i :: 0 <= i < |st.sessions| && i != sid ==>
                                  st.sessions[i].tid != st.publics[p].tid)
  {
    ReachableInv(steps);
    var st := Exec(INITIAL, steps);
    forall i | 0 <= i < |st.sessions| && st.sessions[i].tid.Some? ensures st.sessions[i].tid.value >= 1 {
      assert RowOk(st.sessions[i]);
    }
    forall p | 0 <= p < |st.publics| && st.publics[p].tid.Some?
      ensures exists sid :: 0 <= sid < |st.sessions| && st.sessions[sid].tid == st.publics[p].tid
                         && forall i :: 0 <= i < |st.sessions| && i != sid ==> st.sessions[i].tid != st.publics[p].tid
    {
      assert HasTid(st.sessions, st.publics[p].tid.value);
      var sid :| 0 <= sid < |st.sessions| && st.sessions[sid].tid == Some(st.publics[p].tid.value);
      OneRowPerTid(st.sessions, sid);
    }
  }

  lemma OneRowPerTid(ss: seq<Session>, sid: nat)
    requires IdsIncrease(ss) && sid < |ss| && ss[sid].tid.Some?
    ensures forall i :: 0 <= i < |ss| && i != sid ==> ss[i].tid != ss[sid].tid
  {
  }

  /** A session id starts with lower-case hexadecimal digits. */
  predicate IsHex(s: string) {
    forall i :: 0 <= i < |s| ==> '0' <= s[i] <= '9' || 'a' <= s[i] <= 'f'
  }

  /** The tag sent with a remote start names the public session it was sent for. */
  lemma TagNamesItsSession(prefix: string)
    requires IsHex(prefix)
    ensures AppPrefix(AppTag(prefix)) == Some(prefix)
  {
    var tag := AppTag(prefix);
    assert tag[4..] == Upper(prefix);
    assert Lower(Upper(prefix)) == prefix;
  }

  /** Tags are compared without regard to case, and only letters change. */
  lemma CaseLaws(s: string, c: char)
    ensures Lower(Upper(s)) == Lower(s) && Upper(Lower(s)) == Upper(s)
    ensures !('A' <= c <= 'Z') ==> LowerChar(c) == c
    ensures !('a' <= c <= 'z') ==> UpperChar(c) == c
  {
  }

  /** A tag names a public session exactly when it starts with APP_. */
  lemma AppPrefixIff(idTag: string)
    ensures AppPrefix(idTag).Some? <==> |idTag| >= 4 && idTag[..4] == "APP_"
    ensures AppPrefix(idTag).Some? ==> AppPrefix(idTag).value == Lower(idTag[4..])
  {
  }

  // ---------------------------------------------------------------- energy while charging

  lemma {:induction false} MaximaAttained(samples: seq<MeterSample>, meterStart: real)
    ensures var e := RunningEnergy(samples, meterStart);
            e == 0.0 || exists i :: 0 <= i < |samples| && e == SessionEnergy(samples[i].register, meterStart)
    ensures var p := PeakPower(samples);
            p == 0.0 || exists i :: 0 <= i < |samples| && p == samples[i].power
  {
    if samples != [] {
      var init := samples[..|samples| - 1];
      MaximaAttained(init, meterStart);
      var e, p := RunningEnergy(init, meterStart), PeakPower(init);
      if e != 0.0 {
        var i :| 0 <= i < |init| && e == SessionEnergy(init[i].register, meterStart);
        assert samples[i] == init[i];
      }
      if p != 0.0 {
        var i :| 0 <= i < |init| && p == init[i].power;
        assert samples[i] == init[i];
      }
      assert samples[|samples| - 1] in samples;
    }
  }

  lemma {:induction false} MoreSamplesRaise(some: seq<MeterSample>, more: seq<MeterSample>, meterStart: real)
    requires forall x :: x in some ==> x in more
    ensures RunningEnergy(some, meterStart) <= RunningEnergy(more, meterStart)
    ensures PeakPower(some) <= PeakPower(more)
  {
    if some != [] {
      var init, last := some[..|some| - 1], some[|some| - 1];
      assert forall x :: x in init ==> x in some;
      MoreSamplesRaise(init, more, meterStart);
      assert last in more;
    }
  }

  /** Reordering or repeating MeterValues changes neither running energy nor peak power. */
  lemma OrderAndRepetitionDoNotMatter(s: Session, t: Session)
    requires RowOk(s) && RowOk(t) && s.tid.Some? && t.tid.Some? && s.wins == t.wins == 0
    requires s.meterStart == t.meterStart
    requires forall x :: x in s.samples <==> x in t.samples
    ensures s.energy == t.energy && s.peak == t.peak
  {
    MoreSamplesRaise(s.samples, t.samples, s.meterStart);
    MoreSamplesRaise(t.samples, s.samples, s.meterStart);
  }

  /** With meterStart not positive nothing counts, and a register at or below meterStart counts as 0. */
  predicate StopCoversSamples(samples: seq<MeterSample>, meterStart: real, meterStop: real) {
    || meterStart <= 0.0
    || forall x :: x in samples ==> x.register <= meterStop / 1000.0 || x.register <= meterStart / 1000.0
  }

  /** The final energy is not below the running one exactly when meterStop is not below a register that counted. */
  lemma FinalNotBelowRunningIff(samples: seq<MeterSample>, meterStart: real, meterStop: real)
    ensures SessionEnergy(meterStop / 1000.0, meterStart) >= RunningEnergy(samples, meterStart)
       <==> StopCoversSamples(samples, meterStart, meterStop)
  {
  }

  lemma ActiveEnergyIsRunning(steps: seq<Step>, st: State, sid: nat)
    requires st == Exec(INITIAL, steps) && sid < |st.sessions|
    requires st.sessions[sid].tid.Some? && st.sessions[sid].status == Active
    ensures st.sessions[sid].energy == RunningEnergy(st.sessions[sid].samples, st.sessions[sid].meterStart)
  {
    ReachableInv(steps);
    assert RowOk(st.sessions[sid]);
  }

  /** In every run: a StopTransaction does not lower its session's energy exactly under that condition. */
  lemma StopDoesNotLowerEnergyIff(steps: seq<Step>, st: State, cp: string, tid: int, sid: nat,
                                  meterStop: real, reason: string, now: int)
    requires st == Exec(INITIAL, steps) && TaskOf(st.tasks, cp) == Idle && FindActive(st.sessions, cp, tid) == Some(sid)
    ensures var s, s' := st.sessions[sid], StopClose(st, cp, Some(tid), meterStop, reason, now).sessions[sid];
            s'.energy >= s.energy <==> StopCoversSamples(s.samples, s.meterStart, meterStop)
  {
    var s := st.sessions[sid];
    ActiveEnergyIsRunning(steps, st, sid);
    FinalNotBelowRunningIff(s.samples, s.meterStart, meterStop);
    assert StopClose(st, cp, Some(tid), meterStop, reason, now).sessions[sid].energy
        == SessionEnergy(meterStop / 1000.0, s.meterStart);
  }

  // ---------------------------------------------------------------- one bill per session

  ghost predicate NoCrash(steps: seq<Step>) {
    forall i :: 0 <= i < |steps| ==> !steps[i].CrashStep?
  }

  /** CDRs of a session: inserted, in flight, or lost with a handler that raised. */
  function Bills(st: State, sid: nat): nat
    requires sid < |st.sessions|
  {
    CdrCount(st.cdrs, sid) + InFlight(st.tasks, st.sessions[sid].cp, sid) + Occurrences(st.lost, sid)
  }

  /**
   Under every interleaving of stop handlers of both protocols, closer and everything else: a session has as many
   bills as stop handlers won its guarded close, which is at most one, and then is not active; one that handlers
   completed has its bill, and a 1.6 session has it exactly when it has a meterStop.
   */
  lemma OneBillPerSession(steps: seq<Step>, sid: nat)
    requires sid < |Exec(INITIAL, steps).sessions|
    ensures var st := Exec(INITIAL, steps);
            var s := st.sessions[sid];
            && Bills(st, sid) == s.wins <= 1
            && (s.wins == 1 ==> s.status != Active)
            && (s.status == Completed ==> s.wins == 1)
            && (s.tid.Some? ==> (s.meterStop.Some? <==> s.wins == 1))
            && (NoCrash(steps) ==> CdrCount(st.cdrs, sid) + InFlight(st.tasks, s.cp, sid) == s.wins)
  {
    ReachableInv(steps);
    assert RowOk(Exec(INITIAL, steps).sessions[sid]);
    if NoCrash(steps) {
      NothingLost(steps);
    }
  }

  /** A session that left `active` without a stop handler is never billed, whatever follows. */
  lemma ClosedUnwonStaysUnbilled(st: State, steps: seq<Step>, sid: nat)
    requires Inv(st) && sid < |st.sessions| && st.sessions[sid].status != Active && st.sessions[sid].wins == 0
    ensures var st' := Exec(st, steps);
            && sid < |st'.sessions| && st'.sessions[sid].status != Active && st'.sessions[sid].wins == 0
            && CdrCount(st'.cdrs, sid) == 0 && Bills(st', sid) == 0
  {
    SessionsOverRun(st, steps);
    assert LaterSession(st.sessions[sid], Exec(st, steps).sessions[sid]);
    RunKeeps(st, steps);
  }

  /**
   The closer's update leaves a session without a bill for good exactly when it found the session active, rather
   than completed; a 1.6 session of any status, exactly when it has no meterStop.
   */
  lemma CloserLeavesUnbilledIff(st: State, sid: nat, now: int, steps: seq<Step>)
    requires Inv(st) && sid in st.fetched && sid < |st.sessions|
    ensures var s, st' := st.sessions[sid], Exec(CloserClose(st, sid, now), steps);
            && sid < |st'.sessions|
            && (s.status != AutoClosed ==> (Bills(st', sid) == 0 <==> s.status == Active))
            && (s.tid.Some? ==> (Bills(st', sid) == 0 <==> s.meterStop.None?))
  {
    var mid := CloserClose(st, sid, now);
    assert mid == Next(st, CloserCloseStep(sid, now));
    NextKeeps(st, CloserCloseStep(sid, now));
    assert RowOk(st.sessions[sid]);
    assert mid.sessions[sid].wins == st.sessions[sid].wins && mid.sessions[sid].status == AutoClosed;
    SessionsOverRun(mid, steps);
    assert LaterSession(mid.sessions[sid], Exec(mid, steps).sessions[sid]);
    RunKeeps(mid, steps);
  }

  /**
   In the tables of a 1.6 run: a session that has left `active` has its one CDR exactly when it has a
   meterStop, once no message of its charger still has to insert it and no handler raised.
   */
  lemma ClosedSessionIsBilledIff(steps: seq<Step>, st: State, sid: nat)
    requires st == Exec(INITIAL, steps) && NoCrash(steps)
    requires sid < |st.sessions| && st.sessions[sid].tid.Some? && InFlight(st.tasks, st.sessions[sid].cp, sid) == 0
    ensures CdrCount(st.cdrs, sid) == (if st.sessions[sid].meterStop.Some? then 1 else 0)
  {
    ReachableInv(steps);
    NothingLost(steps);
    assert RowOk(st.sessions[sid]);
    assert CdrCount(st.cdrs, sid) + Occurrences(st.lost, sid) + InFlight(st.tasks, st.sessions[sid].cp, sid)
        == st.sessions[sid].wins;
  }

  /** A charger goes silent and the closer takes its session. */
  function SilentRun(): seq<Step> {
    [StartInsertStep("CP-1", "TAG-1", 1000.0)] + [CloserFetchStep({0})] + [CloserCloseStep(0, 9)]
  }

  /** That session has no CDR, then or ever after. */
  lemma SilentSessionIsNeverBilled(later: seq<Step>)
    ensures var st := Exec(INITIAL, SilentRun() + later);
            |st.sessions| >= 1 && st.sessions[0].status != Active && CdrCount(st.cdrs, 0) == 0
  {
    var st1 := StartInsert(INITIAL, "CP-1", "TAG-1", 1000.0);
    var row := Session("CP-1", Some(1), None, 1000.0, Active, None, "", None, 0.0, 0.0, 0, []);
    assert st1.sessions == [row] && st1.fetched == {};
    var st2 := CloserFetch(st1, {0});
    assert st2.sessions == [row] && st2.fetched == {0};
    var st3 := CloserClose(st2, 0, 9);
    SilentSteps(st1, st2, st3);
    ReachableInv(SilentRun());
    ExecAppends(INITIAL, SilentRun(), later);
    ClosedUnwonStaysUnbilled(st3, later, 0);
  }

  lemma SilentSteps(st1: State, st2: State, st3: State)
    requires st1 == StartInsert(INITIAL, "CP-1", "TAG-1", 1000.0)
    requires st2 == CloserFetch(st1, {0}) && st3 == CloserClose(st2, 0, 9)
    ensures Exec(INITIAL, SilentRun()) == st3
  {
    var start, fetch, close := StartInsertStep("CP-1", "TAG-1", 1000.0), CloserFetchStep({0}), CloserCloseStep(0, 9);
    assert Next(INITIAL, start) == st1 && Next(st1, fetch) == st2 && Next(st2, close) == st3;
    ExecThree(INITIAL, start, fetch, close);
    assert SilentRun() == [start, fetch, close];
  }

  lemma {:induction false} CountOne(cdrs: seq<Cdr>, i: nat)
    requires i < |cdrs|
    ensures CdrCount(cdrs, cdrs[i].sid) >= 1
  {
    if i < |cdrs| - 1 {
      CountOne(cdrs[..|cdrs| - 1], i);
    }
  }

  lemma {:induction false} CountTwo(cdrs: seq<Cdr>, i: nat, j: nat)
    requires i < j < |cdrs| && cdrs[i].sid == cdrs[j].sid
    ensures CdrCount(cdrs, cdrs[i].sid) >= 2
  {
    if j < |cdrs| - 1 {
      CountTwo(cdrs[..|cdrs| - 1], i, j);
    } else {
      CountOne(cdrs[..j], i);
    }
  }

  /**
   In every run each CDR states the stored energy of its session, which a stop handler has closed, and its stop
   time, unless the closer took the session afterwards; 1.6 prices it, 2.0.1 does not; and no session has two.
   */
  lemma CdrsMatchTheirSessions(steps: seq<Step>, i: nat)
    requires i < |Exec(INITIAL, steps).cdrs|
    ensures var st := Exec(INITIAL, steps);
            var c := st.cdrs[i];
            && CdrOk(st.sessions, c)
            && (st.sessions[c.sid].tid.Some? ==> c.cost.Some? && IsCost(c.energy, 0.35, c.cost.value))
            && (st.sessions[c.sid].tid == None ==> c.cost == None)
            && (st.sessions[c.sid].status == Completed ==> c.stopTime == st.sessions[c.sid].stopTime)
            && forall j :: 0 <= j < |st.cdrs| && j != i ==> st.cdrs[j].sid != c.sid
  {
    ReachableInv(steps);
    var st := Exec(INITIAL, steps);
    var sid := st.cdrs[i].sid;
    assert CdrOk(st.sessions, st.cdrs[i]);
    CalculateIff(st.cdrs[i].energy, 0.35, Calculate(st.cdrs[i].energy));
    assert CdrCount(st.cdrs, sid) <= 1;
    forall j | 0 <= j < |st.cdrs| && j != i ensures st.cdrs[j].sid != sid {
      if st.cdrs[j].sid == sid {
        CountTwo(st.cdrs, if i < j then i else j, if i < j then j else i);
      }
    }
  }

  /** The closer's update of a session with a CDR keeps their stop times equal exactly when it writes the same one. */
  lemma CloserMovesStopTimeIff(st: State, i: nat, now: int)
    requires Inv(st) && i < |st.cdrs| && st.cdrs[i].sid in st.fetched
    ensures var c, st' := st.cdrs[i], CloserClose(st, st.cdrs[i].sid, now);
            && st'.cdrs == st.cdrs && c.sid < |st'.sessions|
            && (c.stopTime == st'.sessions[c.sid].stopTime <==> c.stopTime == Some(now))
  {
    assert CdrOk(st.sessions, st.cdrs[i]);
  }

  lemma {:induction false} NothingLost(steps: seq<Step>)
    requires NoCrash(steps)
    ensures Exec(INITIAL, steps).lost == []
  {
    if steps != [] {
      NothingLost(steps[..|steps| - 1]);
      LostOnlyByCrash(Exec(INITIAL, steps[..|steps| - 1]), steps[|steps| - 1]);
    }
  }

  lemma LostOnlyByCrash(st: State, step: Step)
    requires !step.CrashStep?
    ensures Next(st, step).lost == st.lost
  {
  }

  // ---------------------------------------------------------------- agreement of the three tables

  /** Public session p carries, for good, the energy of its closed session sid. */
  ghost predicate Receipt(st: State, sid: nat, p: nat, kwh: real) {
    && sid < |st.sessions| && st.sessions[sid].tid.Some? && st.sessions[sid].wins == 1
    && p < |st.publics| && st.publics[p].tid == st.sessions[sid].tid && st.publics[p].stoppedAt.Some?
    && st.publics[p].kwh == kwh
  }

  lemma KwhOverStep(st: State, step: Step, p: nat)
    requires p < |st.publics| && st.publics[p].tid.Some? && st.publics[p].stoppedAt.Some? && !step.MeterPublicStep?
    ensures p < |Next(st, step).publics| && Next(st, step).publics[p].kwh == st.publics[p].kwh
  {
  }

  /** A late MeterValues cannot reach it: a metering message with energy belongs to another, unwon row. */
  lemma LateMeterMissesReceipt(st: State, cp: string, sid: nat, p: nat, kwh: real)
    requires SessionsInv(st.sessions) && TasksOk(st.sessions, st.tasks) && Receipt(st, sid, p, kwh)
    ensures MeterPublic(st, cp).publics[p].kwh == kwh
  {
  }

  lemma ReceiptOverStep(st: State, step: Step, sid: nat, p: nat, kwh: real)
    requires Inv(st) && Receipt(st, sid, p, kwh)
    ensures Receipt(Next(st, step), sid, p, kwh)
  {
    NextKeeps(st, step);
    assert RowEvolves(Who(step), st.sessions[sid], Next(st, step).sessions[sid]);
    PublicsOverStep(st, step);
    assert LaterPublic(st.publics[p], Next(st, step).publics[p]);
    if step.MeterPublicStep? {
      LateMeterMissesReceipt(st, step.cp, sid, p, kwh);
    } else {
      KwhOverStep(st, step, p);
    }
  }

  lemma {:induction false} ReceiptOverRun(st: State, steps: seq<Step>, sid: nat, p: nat, kwh: real)
    requires Inv(st) && Receipt(st, sid, p, kwh)
    ensures Receipt(Exec(st, steps), sid, p, kwh)
  {
    if steps != [] {
      ReceiptOverRun(st, steps[..|steps| - 1], sid, p, kwh);
      RunKeeps(st, steps[..|steps| - 1]);
      ReceiptOverStep(Exec(st, steps[..|steps| - 1]), steps[|steps| - 1], sid, p, kwh);
    }
  }

  /** The three tables and the published events state one energy for session sid and public session p. */
  ghost predicate BillsAgree(st: State, sid: nat, p: nat, energy: real) {
    && sid < |st.sessions| && st.sessions[sid].energy == energy
    && p < |st.publics| && st.publics[p].kwh == Hundredths(energy)
    && (forall i :: 0 <= i < |st.cdrs| && st.cdrs[i].sid == sid ==>
          st.cdrs[i].energy == energy && st.cdrs[i].cost == Some(Calculate(energy)))
    && (forall i :: 0 <= i < |st.events| && st.events[i].SessionCdr? && st.events[i].sid == sid ==>
          st.events[i].energy == energy)
    && (forall i :: 0 <= i < |st.events| && st.events[i].SessionStop? && st.events[i].sid == sid ==>
          st.events[i].energy == energy)
  }

  lemma WonBillsAgree(st: State, sid: nat, p: nat, energy: real)
    requires Inv(st) && Receipt(st, sid, p, Hundredths(energy)) && st.sessions[sid].energy == energy
    ensures BillsAgree(st, sid, p, energy)
  {
  }

  /**
   In any run, when a stop handler settles a public session that is linked and not yet stopped, then from
   that moment on, whatever happens afterwards, sessions, CDR, public session and events state the same
   energy, the public session's up to its two decimals, and none of them changes again.
   */
  lemma AgreementFrozenAtStop(before: seq<Step>, cp: string, p: nat, after: seq<Step>)
    requires var st := Exec(INITIAL, before);
             TaskOf(st.tasks, cp).Settling? && p < |st.publics|
             && st.publics[p].tid == Some(TaskOf(st.tasks, cp).tid) && st.publics[p].stoppedAt.None?
    ensures var st := Exec(INITIAL, before);
            var sid, energy := TaskOf(st.tasks, cp).sid, TaskOf(st.tasks, cp).energy;
            && sid < |st.sessions| && st.sessions[sid].energy == energy
            && BillsAgree(Exec(StopSettle(st, cp), after), sid, p, energy)
            && Exec(INITIAL, before + [StopSettleStep(cp)] + after) == Exec(StopSettle(st, cp), after)
  {
    var st := Exec(INITIAL, before);
    var sid, energy := TaskOf(st.tasks, cp).sid, TaskOf(st.tasks, cp).energy;
    ReachableInv(before);
    assert TaskOk(st.sessions, cp, st.tasks[cp]);
    var mid := StopSettle(st, cp);
    assert mid == Next(st, StopSettleStep(cp));
    NextKeeps(st, StopSettleStep(cp));
    assert Receipt(mid, sid, p, Hundredths(energy));
    ReceiptOverRun(mid, after, sid, p, Hundredths(energy));
    RunKeeps(mid, after);
    SessionsOverRun(mid, after);
    assert LaterSession(mid.sessions[sid], Exec(mid, after).sessions[sid]);
    WonBillsAgree(Exec(mid, after), sid, p, energy);
    RunInThree(before, StopSettleStep(cp), after);
  }

  lemma RunInThree(before: seq<Step>, step: Step, after: seq<Step>)
    ensures Exec(INITIAL, before + [step] + after) == Exec(Next(Exec(INITIAL, before), step), after)
  {
    ExecAppends(INITIAL, before + [step], after);
    assert (before + [step])[..|before + [step]| - 1] == before;
  }

  /** The statements of one MeterValues entry. */
  function MeterEntry(cp: string, tid: Option<int>, sample: MeterSample): seq<Step> {
    [MeterReadStep(cp, tid, sample), MeterSessionStep(cp), MeterPublicStep(cp)]
  }

  lemma MeterEntrySteps(st: State, cp: string, tid: Option<int>, sample: MeterSample)
    ensures Exec(st, MeterEntry(cp, tid, sample)) == MeterPublic(MeterSession(MeterRead(st, cp, tid, sample), cp), cp)
  {
    var st1 := MeterRead(st, cp, tid, sample);
    ExecThree(st, MeterReadStep(cp, tid, sample), MeterSessionStep(cp), MeterPublicStep(cp));
    assert Next(st, MeterReadStep(cp, tid, sample)) == st1;
    assert Next(st1, MeterSessionStep(cp)) == MeterSession(st1, cp);
  }

  /** A MeterValues entry for a transaction that is not active changes nothing but the event stream. */
  lemma LateMeterValuesAreHarmless(st: State, cp: string, tid: int, sample: MeterSample)
    requires TaskOf(st.tasks, cp) == Idle && FindActive(st.sessions, cp, tid).None?
    ensures Exec(st, MeterEntry(cp, Some(tid), sample))
         == st.(events := st.events + [SessionMeter(None, 0.0)], tasks := st.tasks[cp := Idle])
  {
    MeterEntrySteps(st, cp, Some(tid), sample);
    assert SessionEnergy(sample.register, 0.0) == 0.0;
    var st1 := MeterRead(st, cp, Some(tid), sample);
    assert st1 == st.(tasks := st.tasks[cp := MeteringSession(Some(tid), None, sample, 0.0)]);
    var st2 := MeterSession(st1, cp);
    assert st2 == st1.(tasks := st1.tasks[cp := MeteringPublic(Some(tid), None, 0.0)]);
    assert st2.tasks[cp := Idle] == st.tasks[cp := Idle];
  }

  lemma ExecOne(st: State, a: Step)
    ensures Exec(st, [a]) == Next(st, a)
  {
  }

  lemma ExecTwo(st: State, a: Step, b: Step)
    ensures Exec(st, [a, b]) == Next(Next(st, a), b)
  {
    ExecOne(st, a);
    assert [a, b][..1] == [a];
  }

  lemma ExecThree(st: State, a: Step, b: Step, c: Step)
    ensures Exec(st, [a, b, c]) == Next(Next(Next(st, a), b), c)
  {
    ExecTwo(st, a, b);
    assert [a, b, c][..2] == [a, b];
  }

  // ---------------------------------------------------------------- exactly when the agreement is reached

  /** The statements of one StopTransaction message. */
  function StopMessage(cp: string, tid: Option<int>, meterStop: real, reason: string, now: int): seq<Step> {
    [StopCloseStep(cp, tid, meterStop, reason, now), StopSettleStep(cp),
     CdrSelectStep(cp), CdrInsertStep(cp), StopPublishStep(cp)]
  }

  /** The state a whole StopTransaction leaves when nothing interleaves and it found its session. */
  function Stopped(st: State, cp: string, sid: nat, tid: int, meterStop: real, reason: string, now: int): State
    requires sid < |st.sessions|
  {
    var s := st.sessions[sid];
    var energy := SessionEnergy(meterStop / 1000.0, s.meterStart);
    st.(sessions := st.sessions[sid := s.(status := Completed, stopTime := Some(now), stopReason := reason,
                                          meterStop := Some(meterStop), energy := energy, wins := s.wins + 1)],
        publics := SettleAll(st.publics, tid, energy, now),
        cdrs := st.cdrs + [Cdr(sid, Some(now), energy, Some(Calculate(energy)))],
        events := st.events + [SessionCdr(sid, energy), SessionStop(sid, energy)],
        tasks := st.tasks[cp := Idle])
  }

  lemma StopMessageSteps(st: State, cp: string, tid: Option<int>, meterStop: real, reason: string, now: int)
    ensures Exec(st, StopMessage(cp, tid, meterStop, reason, now))
         == StopPublish(CdrInsert(CdrSelect(
              StopSettle(StopClose(st, cp, tid, meterStop, reason, now), cp), cp), cp), cp)
  {
    var close, settle := StopCloseStep(cp, tid, meterStop, reason, now), StopSettleStep(cp);
    var st1 := StopClose(st, cp, tid, meterStop, reason, now);
    var st2 := StopSettle(st1, cp);
    ExecTwo(st, close, settle);
    assert Next(st, close) == st1 && Next(st1, settle) == st2;
    CdrSteps(st2, cp);
    assert StopMessage(cp, tid, meterStop, reason, now)
        == [close, settle] + [CdrSelectStep(cp), CdrInsertStep(cp), StopPublishStep(cp)];
    ExecAppends(st, [close, settle], [CdrSelectStep(cp), CdrInsertStep(cp), StopPublishStep(cp)]);
  }

  lemma CdrSteps(st: State, cp: string)
    ensures Exec(st, [CdrSelectStep(cp), CdrInsertStep(cp), StopPublishStep(cp)])
         == StopPublish(CdrInsert(CdrSelect(st, cp), cp), cp)
  {
    ExecThree(st, CdrSelectStep(cp), CdrInsertStep(cp), StopPublishStep(cp));
    assert Next(st, CdrSelectStep(cp)) == CdrSelect(st, cp);
  }

  lemma CdrEffect(st: State, cp: string, sid: nat, energy: real)
    requires TaskOf(st.tasks, cp) == SelectingCdr(sid, energy, true) && sid < |st.sessions|
    requires st.sessions[sid].energy == energy
    ensures StopPublish(CdrInsert(CdrSelect(st, cp), cp), cp)
         == st.(cdrs := st.cdrs + [Cdr(sid, st.sessions[sid].stopTime, energy, Some(Calculate(energy)))],
                events := st.events + [SessionCdr(sid, energy), SessionStop(sid, energy)],
                tasks := st.tasks[cp := Idle])
  {
  }

  lemma StopMessageEffect(st: State, cp: string, sid: nat, tid: int, meterStop: real, reason: string, now: int)
    requires TaskOf(st.tasks, cp) == Idle && FindActive(st.sessions, cp, tid) == Some(sid)
    ensures Exec(st, StopMessage(cp, Some(tid), meterStop, reason, now))
         == Stopped(st, cp, sid, tid, meterStop, reason, now)
  {
    StopEffect(st, cp, sid, tid, meterStop, reason, now);
    StopMessageSteps(st, cp, Some(tid), meterStop, reason, now);
  }

  lemma StopEffect(st: State, cp: string, sid: nat, tid: int, meterStop: real, reason: string, now: int)
    requires TaskOf(st.tasks, cp) == Idle && FindActive(st.sessions, cp, tid) == Some(sid)
    ensures var closed := StopSettle(StopClose(st, cp, Some(tid), meterStop, reason, now), cp);
            StopPublish(CdrInsert(CdrSelect(closed, cp), cp), cp)
            == Stopped(st, cp, sid, tid, meterStop, reason, now)
  {
    var energy := SessionEnergy(meterStop / 1000.0, st.sessions[sid].meterStart);
    var closed := StopSettle(StopClose(st, cp, Some(tid), meterStop, reason, now), cp);
    CloseAndSettle(st, cp, sid, tid, meterStop, reason, now);
    CdrEffect(closed, cp, sid, energy);
    assert closed.tasks[cp := Idle] == st.tasks[cp := Idle];
  }

  lemma CloseAndSettle(st: State, cp: string, sid: nat, tid: int, meterStop: real, reason: string, now: int)
    requires TaskOf(st.tasks, cp) == Idle && FindActive(st.sessions, cp, tid) == Some(sid)
    ensures var s' := ClosedRow(st.sessions[sid], meterStop, reason, now);
            StopSettle(StopClose(st, cp, Some(tid), meterStop, reason, now), cp)
            == st.(sessions := st.sessions[sid := s'], publics := SettleAll(st.publics, tid, s'.energy, now),
                   tasks := st.tasks[cp := SelectingCdr(sid, s'.energy, true)])
  {
    CloseEffect(st, cp, sid, tid, meterStop, reason, now);
  }

  predicate ReceiptMatches(st: State, sid: nat, p: nat) {
    sid < |st.sessions| && p < |st.publics| && st.publics[p].kwh == Hundredths(st.sessions[sid].energy)
  }

  /**
   Whatever meterStop a charger sends, its StopTransaction leaves the linked public session with the billed
   energy, if and only if that public session was not stopped before, or nothing was and can be metered.
   */
  lemma StopSettlesIff(st: State, cp: string, sid: nat, tid: int, p: nat, reason: string, now: int)
    requires TaskOf(st.tasks, cp) == Idle && FindActive(st.sessions, cp, tid) == Some(sid)
    requires p < |st.publics| && st.publics[p].tid == Some(tid)
    ensures (forall meterStop: real ::
              ReceiptMatches(Exec(st, StopMessage(cp, Some(tid), meterStop, reason, now)), sid, p))
       <==> st.publics[p].stoppedAt.None? || (st.sessions[sid].meterStart <= 0.0 && st.publics[p].kwh == 0.0)
  {
    var meterStart := st.sessions[sid].meterStart;
    forall meterStop: real
      ensures Exec(st, StopMessage(cp, Some(tid), meterStop, reason, now))
           == Stopped(st, cp, sid, tid, meterStop, reason, now)
    {
      StopMessageEffect(st, cp, sid, tid, meterStop, reason, now);
    }
    assert Hundredths(0.0) == 0.0 && Hundredths(1.0) == 1.0;
    if st.publics[p].stoppedAt.Some? && !(meterStart <= 0.0 && st.publics[p].kwh == 0.0) {
      var meterStop := if st.publics[p].kwh != 0.0 then 0.0 else meterStart + 1000.0;
      var st' := Exec(st, StopMessage(cp, Some(tid), meterStop, reason, now));
      assert st' == Stopped(st, cp, sid, tid, meterStop, reason, now);
      assert !ReceiptMatches(st', sid, p);
    }
  }

  /** A cancelled public session can still be linked by a later Start. */
  function CancelledRun(): seq<Step> {
    [CreatePublicStep("88fbc7b6", 1), CancelPublicStep(0, 2),
     StartInsertStep("CP-1", "APP_88FBC7B6", 1000.0), StartLinkStep("CP-1", Some(0), 3)]
  }

  /** The excluded case is reachable: two kWh billed, none on the receipt. */
  lemma CancelledSessionsDisagree()
    ensures var st := Exec(INITIAL, CancelledRun() + StopMessage("CP-1", Some(1), 3000.0, "Local", 4));
            |st.sessions| == |st.publics| == |st.cdrs| == 1
            && st.cdrs[0].energy == st.sessions[0].energy == 2.0
            && st.publics[0].tid == st.sessions[0].tid && st.publics[0].kwh == 0.0
  {
    CancelledRunLinks();
    var st := Exec(INITIAL, CancelledRun());
    ExecAppends(INITIAL, CancelledRun(), StopMessage("CP-1", Some(1), 3000.0, "Local", 4));
    assert IsActive16(st.sessions[0], "CP-1", 1);
    StopMessageEffect(st, "CP-1", 0, 1, 3000.0, "Local", 4);
  }

  lemma CancelledRunLinks()
    ensures var st := Exec(INITIAL, CancelledRun());
            && st.sessions == [Session("CP-1", Some(1), None, 1000.0, Active, None, "", None, 0.0, 0.0, 0, [])]
            && st.publics == [Public("88fbc7b6", 1, "cancelled", Some(1), Some(3), Some(2), 0.0)]
            && st.cdrs == [] && TaskOf(st.tasks, "CP-1") == Idle
  {
    var create, cancel := CreatePublicStep("88fbc7b6", 1), CancelPublicStep(0, 2);
    var start, link := StartInsertStep("CP-1", "APP_88FBC7B6", 1000.0), StartLinkStep("CP-1", Some(0), 3);
    var st2 := CancelPublic(CreatePublic(INITIAL, "88fbc7b6", 1), 0, 2);
    assert Exec(INITIAL, [create, cancel]) == st2 by {
      ExecTwo(INITIAL, create, cancel);
      assert Next(INITIAL, create) == CreatePublic(INITIAL, "88fbc7b6", 1);
    }
    assert Exec(INITIAL, CancelledRun()) == Exec(st2, [start, link]) by {
      assert CancelledRun() == [create, cancel] + [start, link];
      ExecAppends(INITIAL, [create, cancel], [start, link]);
    }
    LinkRun(st2);
  }

  lemma LinkRun(st: State)
    requires st == INITIAL.(publics := [Public("88fbc7b6", 1, "cancelled", None, None, Some(2), 0.0)])
    ensures var st' := Exec(st, [StartInsertStep("CP-1", "APP_88FBC7B6", 1000.0), StartLinkStep("CP-1", Some(0), 3)]);
            && st'.sessions == [Session("CP-1", Some(1), None, 1000.0, Active, None, "", None, 0.0, 0.0, 0, [])]
            && st'.publics == [Public("88fbc7b6", 1, "cancelled", Some(1), Some(3), Some(2), 0.0)]
            && st'.cdrs == [] && TaskOf(st'.tasks, "CP-1") == Idle
  {
    TagOfRun();
    StartSteps(st, "CP-1", "APP_88FBC7B6", 1000.0, Some(0), 3);
    var row := Session("CP-1", Some(1), None, 1000.0, Active, None, "", None, 0.0, 0.0, 0, []);
    var st3 := StartInsert(st, "CP-1", "APP_88FBC7B6", 1000.0);
    assert st3 == st.(sessions := [row], events := [SessionStart(0)],
                      tasks := map["CP-1" := Linking(0, 1, "88fbc7b6")]);
    LinkOnly(st3);
  }

  lemma TagOfRun()
    ensures AppPrefix("APP_88FBC7B6") == Some("88fbc7b6")
  {
    TagNamesItsSession("88fbc7b6");
    var prefix, tag := "88fbc7b6", "88FBC7B6";
    assert UpperChar('f') == 'F' && UpperChar('b') == 'B' && UpperChar('c') == 'C';
    forall i | 0 <= i < |tag| ensures Upper(prefix)[i] == tag[i] {
      assert i == 0 || i == 1 || i == 2 || i == 3 || i == 4 || i == 5 || i == 6 || i == 7;
    }
    assert Upper(prefix) == tag;
    assert "APP_" + tag == "APP_88FBC7B6";
  }

  lemma LinkOnly(st: State)
    requires TaskOf(st.tasks, "CP-1") == Linking(0, 1, "88fbc7b6")
    requires st.publics == [Public("88fbc7b6", 1, "cancelled", None, None, Some(2), 0.0)]
    ensures var st' := StartLink(st, "CP-1", Some(0), 3);
            && st'.sessions == st.sessions && st'.cdrs == st.cdrs && TaskOf(st'.tasks, "CP-1") == Idle
            && st'.publics == [Public("88fbc7b6", 1, "cancelled", Some(1), Some(3), Some(2), 0.0)]
  {
  }

  lemma StartSteps(st: State, cp: string, idTag: string, meterStart: real, pick: Option<nat>, now: int)
    ensures Exec(st, [StartInsertStep(cp, idTag, meterStart), StartLinkStep(cp, pick, now)])
         == StartLink(StartInsert(st, cp, idTag, meterStart), cp, pick, now)
  {
    ExecTwo(st, StartInsertStep(cp, idTag, meterStart), StartLinkStep(cp, pick, now));
    assert Next(st, StartInsertStep(cp, idTag, meterStart)) == StartInsert(st, cp, idTag, meterStart);
  }
}
