/** Every step keeps the invariant of the charging core and lets rows evolve only as RowEvolves allows. */
module ChargingSteps {
  import opened Common
  import opened Rounding
  import opened Meter16
  import opened CdrCost
  import opened ChargingState
  import opened ChargingInvariants

  // ---------------------------------------------------------------- the balance of bills

  /** No row is won, no CDR inserted or lost, and the charger's pending CDR stays the same. */
  lemma BalanceUnmoved(ss: seq<Session>, ss': seq<Session>, cdrs: seq<Cdr>, lost: seq<nat>,
                       tasks: map<string, Task>, cp: string, t: Task)
    requires BillsBalance(ss, cdrs, lost, tasks) && CdrsOk(ss, cdrs) && LostOk(ss, lost)
    requires |ss| <= |ss'|
    requires forall i :: 0 <= i < |ss| ==> ss'[i].cp == ss[i].cp && ss'[i].wins == ss[i].wins
    requires forall i :: |ss| <= i < |ss'| ==> ss'[i].wins == 0
    requires PendingCdr(t) == PendingCdr(TaskOf(tasks, cp))
    requires forall c :: c in tasks ==> TaskOk(ss, c, tasks[c])
    ensures BillsBalance(ss', cdrs, lost, tasks[cp := t])
  {
    forall sid: nat | sid < |ss'|
      ensures CdrCount(cdrs, sid) + Occurrences(lost, sid) + InFlight(tasks[cp := t], ss'[sid].cp, sid) == ss'[sid].wins
    {
      assert PendingCdr(TaskOf(tasks[cp := t], ss'[sid].cp)) == PendingCdr(TaskOf(tasks, ss'[sid].cp));
      if sid >= |ss| {
        NoCdrs(ss, cdrs, sid);
        NoneLost(ss, lost, sid);
        assert ss'[sid].cp in tasks ==> TaskOk(ss, ss'[sid].cp, tasks[ss'[sid].cp]);
      }
    }
  }

  /** A stop handler wins row sid: its CDR is now pending. */
  lemma BalanceWon(ss: seq<Session>, s': Session, cdrs: seq<Cdr>, lost: seq<nat>,
                   tasks: map<string, Task>, cp: string, sid: nat, t: Task)
    requires BillsBalance(ss, cdrs, lost, tasks)
    requires sid < |ss| && ss[sid].cp == cp == s'.cp && s'.wins == ss[sid].wins + 1
    requires PendingCdr(TaskOf(tasks, cp)) == None && PendingCdr(t) == Some(sid)
    ensures BillsBalance(ss[sid := s'], cdrs, lost, tasks[cp := t])
  {
  }

  /** The pending CDR of row sid is inserted, or lost: nothing is pending afterwards. */
  lemma BalancePaid(ss: seq<Session>, cdrs: seq<Cdr>, cdrs': seq<Cdr>, lost: seq<nat>, lost': seq<nat>,
                    tasks: map<string, Task>, cp: string, sid: nat, t: Task)
    requires BillsBalance(ss, cdrs, lost, tasks)
    requires sid < |ss| && ss[sid].cp == cp
    requires PendingCdr(TaskOf(tasks, cp)) == Some(sid) && PendingCdr(t) == None
    requires (lost' == lost && |cdrs'| == |cdrs| + 1 && cdrs'[..|cdrs|] == cdrs && cdrs'[|cdrs|].sid == sid)
          || (cdrs' == cdrs && lost' == lost + [sid])
    ensures BillsBalance(ss, cdrs', lost', tasks[cp := t])
  {
  }

  // ---------------------------------------------------------------- sessions

  lemma UpdateEvolves(who: Option<string>, ss: seq<Session>, sid: nat, s': Session)
    requires sid < |ss| && RowEvolves(who, ss[sid], s')
    ensures Evolves(who, ss, ss[sid := s'])
  {
  }

  lemma UpdateKeepsSessions(ss: seq<Session>, sid: nat, s': Session)
    requires SessionsInv(ss) && sid < |ss| && RowOk(s') && s'.tid == ss[sid].tid
    ensures SessionsInv(ss[sid := s'])
  {
  }

  lemma AppendKeepsSessions(ss: seq<Session>, s: Session)
    requires SessionsInv(ss) && RowOk(s)
    requires s.tid.Some? ==> s.tid.value > MaxTid(ss)
    ensures SessionsInv(ss + [s])
    ensures forall who :: Evolves(who, ss, ss + [s])
  {
  }

  // ---------------------------------------------------------------- the control part

  /** A step of charger cp that leaves it with task t and does not touch the maps. */
  lemma ControlAfter(st: State, ss': seq<Session>, cp: string, t: Task)
    requires ControlInv(st) && Evolves(Some(cp), st.sessions, ss') && TaskOk(ss', cp, t)
    requires forall i :: 0 <= i < |st.sessions| ==>
               || ss'[i].wins == st.sessions[i].wins
               || forall txn :: txn in CacheOf(st.caches, cp) ==> CacheOf(st.caches, cp)[txn] != i
    requires t.Metering201? && t.ended && t.meterSid.Some? ==>
               forall txn :: txn in CacheOf(st.caches, cp) ==> CacheOf(st.caches, cp)[txn] != t.meterSid.value
    ensures TasksOk(ss', st.tasks[cp := t]) && CachesOk(ss', st.caches) && EndedAreOut(st.caches, st.tasks[cp := t])
  {
    TasksAfter(st.sessions, ss', st.tasks, cp, t);
    if cp in st.caches {
      var cache := st.caches[cp];
      forall txn | txn in cache && cache[txn] < |st.sessions|
        ensures ss'[cache[txn]].wins == st.sessions[cache[txn]].wins
      {
        assert cache == CacheOf(st.caches, cp);
      }
    }
    CachesStable(Some(cp), st.sessions, ss', st.caches);
  }

  // ---------------------------------------------------------------- OCPP 1.6

  lemma StartInsertKeeps(st: State, step: Step)
    requires Inv(st) && step.StartInsertStep?
    ensures Inv(Next(st, step)) && Evolves(Who(step), st.sessions, Next(st, step).sessions)
  {
    var StartInsertStep(cp, idTag, meterStart) := step;
    if TaskOf(st.tasks, cp) == Idle {
      var ss, tid := st.sessions, MaxTid(st.sessions) + 1;
      var row := Session(cp, Some(tid), None, meterStart, Active, None, "", None, 0.0, 0.0, 0, []);
      var t := if AppPrefix(idTag).Some? then Linking(|ss|, tid, AppPrefix(idTag).value) else Idle;
      assert Next(st, step)
          == st.(sessions := ss + [row], events := st.events + [SessionStart(|ss|)], tasks := st.tasks[cp := t]);
      StartRowKeeps(st, cp, row, t);
    } else {
      assert Next(st, step) == st;
    }
  }

  lemma StartRowKeeps(st: State, cp: string, row: Session, t: Task)
    requires Inv(st) && TaskOf(st.tasks, cp) == Idle
    requires RowOk(row) && row.cp == cp && row.tid == Some(MaxTid(st.sessions) + 1) && row.wins == 0
    requires t.Idle? || (t.Linking? && t.sid == |st.sessions| && t.tid == MaxTid(st.sessions) + 1)
    ensures Inv(st.(sessions := st.sessions + [row], events := st.events + [SessionStart(|st.sessions|)],
                    tasks := st.tasks[cp := t]))
    ensures Evolves(Some(cp), st.sessions, st.sessions + [row])
  {
    var ss := st.sessions;
    AppendKeepsSessions(ss, row);
    InsertKeepsPublic(st, row, cp, t);
    ControlAfter(st, ss + [row], cp, t);
    BalanceUnmoved(ss, ss + [row], st.cdrs, st.lost, st.tasks, cp, t);
    BillsStable(Some(cp), ss, ss + [row], st.cdrs, st.lost, st.events);
    assert EventOk(ss + [row], SessionStart(|ss|));
  }

  /** A new row's transaction id is above every linked one. */
  lemma InsertKeepsPublic(st: State, row: Session, cp: string, t: Task)
    requires t.Linking? ==> t.tid > MaxTid(st.sessions)
    requires PublicInv(st) && Evolves(Some(cp), st.sessions, st.sessions + [row])
    ensures LinksOk(st.sessions + [row], st.publics) && LinkingIsNew(st.publics, st.tasks[cp := t])
  {
  }

  lemma StartLinkKeeps(st: State, step: Step)
    requires Inv(st) && step.StartLinkStep?
    ensures Inv(Next(st, step)) && Evolves(Who(step), st.sessions, Next(st, step).sessions)
  {
    var StartLinkStep(cp, pick, now) := step;
    var st' := StartLink(st, cp, pick, now);
    if TaskOf(st.tasks, cp).Linking? && st' != st {
      var Linking(sid, tid, prefix) := TaskOf(st.tasks, cp);
      var ss := st.sessions;
      assert TaskOk(ss, cp, st.tasks[cp]);
      ControlAfter(st, ss, cp, Idle);
      BalanceUnmoved(ss, ss, st.cdrs, st.lost, st.tasks, cp, Idle);
      LinkKeepsPublic(st, cp, pick, now);
    }
  }

  lemma LinkKeepsPublic(st: State, cp: string, pick: Option<nat>, now: int)
    requires SessionsInv(st.sessions) && TasksOk(st.sessions, st.tasks) && PublicInv(st)
    requires TaskOf(st.tasks, cp).Linking? && LinkChooses(st.publics, TaskOf(st.tasks, cp).prefix, pick)
    ensures PublicInv(StartLink(st, cp, pick, now))
  {
    var st' := StartLink(st, cp, pick, now);
    var sid, tid := TaskOf(st.tasks, cp).sid, TaskOf(st.tasks, cp).tid;
    assert TaskOk(st.sessions, cp, st.tasks[cp]) && NotLinked(st.publics, st.tasks[cp]);
    assert HasTid(st.sessions, tid);
    forall other | other in st'.tasks ensures NotLinked(st'.publics, st'.tasks[other]) {
      if other != cp && st.tasks[other].Linking? {
        assert TaskOk(st.sessions, other, st.tasks[other]) && NotLinked(st.publics, st.tasks[other]);
        assert st.tasks[other].sid != sid;
      }
    }
  }

  lemma FoundIsUnwon(ss: seq<Session>, cp: string, tid: int)
    requires RowsOk(ss) && FindActive(ss, cp, tid).Some?
    ensures Owns(ss, cp, FindActive(ss, cp, tid).value) && ss[FindActive(ss, cp, tid).value].wins == 0
  {
  }

  lemma MeterReadKeeps(st: State, step: Step)
    requires Inv(st) && step.MeterReadStep?
    ensures Inv(Next(st, step)) && Evolves(Who(step), st.sessions, Next(st, step).sessions)
  {
    var MeterReadStep(cp, tid, sample) := step;
    if TaskOf(st.tasks, cp) == Idle {
      var t := MeterTask(st.sessions, cp, tid, sample);
      assert Next(st, step) == st.(sessions := st.sessions, tasks := st.tasks[cp := t]);
      MeterTaskOk(st.sessions, cp, tid, sample);
      SameEvolves(Some(cp), st.sessions);
      RestFollows(st, st.sessions, cp, t);
    } else {
      assert Next(st, step) == st;
    }
  }

  /** What the look-up of a MeterValues entry leaves to do. */
  function MeterTask(ss: seq<Session>, cp: string, tid: Option<int>, sample: MeterSample): Task {
    var sid := if tid.Some? && tid.value != 0 then FindActive(ss, cp, tid.value) else None;
    var meterStart := if sid.Some? then ss[sid.value].meterStart else 0.0;
    MeteringSession(tid, sid, sample, SessionEnergy(sample.register, meterStart))
  }

  lemma MeterTaskOk(ss: seq<Session>, cp: string, tid: Option<int>, sample: MeterSample)
    requires RowsOk(ss)
    ensures TaskOk(ss, cp, MeterTask(ss, cp, tid, sample))
  {
    if tid.Some? && FindActive(ss, cp, tid.value).Some? {
      FoundIsUnwon(ss, cp, tid.value);
    }
  }

  lemma SameEvolves(who: Option<string>, ss: seq<Session>)
    ensures Evolves(who, ss, ss)
  {
  }

  lemma RaiseKeepsSessions(ss: seq<Session>, cp: string, sid: nat, sample: MeterSample, kwh: real)
    requires SessionsInv(ss) && sid < |ss| && ss[sid].tid.Some? && ss[sid].wins == 0
    requires kwh == SessionEnergy(sample.register, ss[sid].meterStart)
    ensures SessionsInv(ss[sid := Raise(ss[sid], sample, kwh)])
    ensures Evolves(Some(cp), ss, ss[sid := Raise(ss[sid], sample, kwh)])
  {
  }

  lemma MeterSessionKeeps(st: State, step: Step)
    requires Inv(st) && step.MeterSessionStep?
    ensures Inv(Next(st, step)) && Evolves(Who(step), st.sessions, Next(st, step).sessions)
  {
    var MeterSessionStep(cp) := step;
    var st' := MeterSession(st, cp);
    if TaskOf(st.tasks, cp).MeteringSession? {
      var MeteringSession(tid, sid, sample, kwh) := TaskOf(st.tasks, cp);
      assert TaskOk(st.sessions, cp, st.tasks[cp]);
      if sid.Some? {
        RaiseKeepsSessions(st.sessions, cp, sid.value, sample, kwh);
      }
      RestFollows(st, st'.sessions, cp, MeteringPublic(tid, sid, kwh));
      assert st' == st.(sessions := st'.sessions, tasks := st.tasks[cp := MeteringPublic(tid, sid, kwh)]);
    }
  }

  /** Rows change without a win, and the message moves on without a CDR: everything else survives. */
  lemma RestFollows(st: State, ss': seq<Session>, cp: string, t: Task)
    requires Inv(st) && SessionsInv(ss') && Evolves(Some(cp), st.sessions, ss') && |ss'| == |st.sessions|
    requires forall i :: 0 <= i < |ss'| ==> ss'[i].wins == st.sessions[i].wins
    requires TaskOk(ss', cp, t) && !t.Linking?
    requires t.Metering201? && t.ended && t.meterSid.Some? ==>
               forall txn :: txn in CacheOf(st.caches, cp) ==> CacheOf(st.caches, cp)[txn] != t.meterSid.value
    requires PendingCdr(t) == PendingCdr(TaskOf(st.tasks, cp))
    ensures Inv(st.(sessions := ss', tasks := st.tasks[cp := t]))
  {
    ControlAfter(st, ss', cp, t);
    LinksStable(Some(cp), st.sessions, ss', st.publics);
    BalanceUnmoved(st.sessions, ss', st.cdrs, st.lost, st.tasks, cp, t);
    BillsStable(Some(cp), st.sessions, ss', st.cdrs, st.lost, st.events);
  }

  lemma SameLinksKeepPublic(st: State, ps': seq<Public>)
    requires PublicInv(st) && |ps'| == |st.publics|
    requires forall p :: 0 <= p < |ps'| ==>
               ps'[p].tid == st.publics[p].tid && ps'[p].startedAt == st.publics[p].startedAt
    ensures PublicInv(st.(publics := ps'))
  {
  }

  lemma EventKeeps(st: State, e: Event)
    requires Inv(st) && EventOk(st.sessions, e)
    ensures Inv(st.(events := st.events + [e]))
  {
  }

  lemma MeterPublicKeeps(st: State, step: Step)
    requires Inv(st) && step.MeterPublicStep?
    ensures Inv(Next(st, step)) && Evolves(Who(step), st.sessions, Next(st, step).sessions)
  {
    var MeterPublicStep(cp) := step;
    var st' := MeterPublic(st, cp);
    if TaskOf(st.tasks, cp).MeteringPublic? {
      var MeteringPublic(tid, sid, kwh) := TaskOf(st.tasks, cp);
      RestFollows(st, st.sessions, cp, Idle);
      var st1 := st.(tasks := st.tasks[cp := Idle]);
      SameLinksKeepPublic(st1, st'.publics);
      EventKeeps(st1.(publics := st'.publics), SessionMeter(sid, kwh));
    }
  }

  lemma StopCloseKeeps(st: State, step: Step)
    requires Inv(st) && step.StopCloseStep?
    ensures Inv(Next(st, step)) && Evolves(Who(step), st.sessions, Next(st, step).sessions)
  {
    var StopCloseStep(cp, tid, meterStop, reason, now) := step;
    if TaskOf(st.tasks, cp) == Idle && tid.Some? && FindActive(st.sessions, cp, tid.value).Some? {
      var sid := FindActive(st.sessions, cp, tid.value).value;
      var s' := ClosedRow(st.sessions[sid], meterStop, reason, now);
      var t := Settling(sid, tid.value, s'.energy, now);
      CloseEffect(st, cp, sid, tid.value, meterStop, reason, now);
      FoundIsUnwon(st.sessions, cp, tid.value);
      WonRowOk(st.sessions[sid], s');
      NotCached16(st, cp, sid);
      WinKeeps(st, cp, sid, s', t);
      assert Next(st, step) == StopClose(st, cp, tid, meterStop, reason, now);
    } else {
      assert Next(st, step) == st;
    }
  }

  /** The row as a stop handler leaves it. */
  function ClosedRow(s: Session, meterStop: real, reason: string, now: int): Session {
    s.(status := Completed, stopTime := Some(now), stopReason := reason, meterStop := Some(meterStop),
       energy := SessionEnergy(meterStop / 1000.0, s.meterStart), wins := s.wins + 1)
  }

  lemma CloseEffect(st: State, cp: string, sid: nat, tid: int, meterStop: real, reason: string, now: int)
    requires TaskOf(st.tasks, cp) == Idle && FindActive(st.sessions, cp, tid) == Some(sid)
    ensures var s' := ClosedRow(st.sessions[sid], meterStop, reason, now);
            StopClose(st, cp, Some(tid), meterStop, reason, now)
            == st.(sessions := st.sessions[sid := s'], tasks := st.tasks[cp := Settling(sid, tid, s'.energy, now)])
  {
  }

  lemma WonRowOk(s: Session, s': Session)
    requires RowOk(s) && s.tid.Some? && s.wins == 0 && s.status == Active
    requires s'.cp == s.cp && s'.tid == s.tid && s'.txn == s.txn && s'.meterStart == s.meterStart
    requires s'.wins == 1 && s'.status == Completed && s'.stopTime.Some? && s'.meterStop.Some?
    ensures RowOk(s') && RowEvolves(Some(s.cp), s, s')
  {
  }

  lemma NotCached16(st: State, cp: string, sid: nat)
    requires SessionsInv(st.sessions) && ControlInv(st) && sid < |st.sessions| && st.sessions[sid].tid.Some?
    ensures forall txn :: txn in CacheOf(st.caches, cp) ==> CacheOf(st.caches, cp)[txn] != sid
  {
  }

  /** A stop handler of cp closes its active row sid, which no map names. */
  lemma WinKeeps(st: State, cp: string, sid: nat, s': Session, t: Task)
    requires Inv(st) && Owns(st.sessions, cp, sid) && st.sessions[sid].wins == 0
    requires RowOk(s') && s'.wins == 1
    requires RowEvolves(Some(cp), st.sessions[sid], s')
    requires PendingCdr(TaskOf(st.tasks, cp)) == None && PendingCdr(t) == Some(sid)
    requires TaskOk(st.sessions[sid := s'], cp, t)
    requires forall txn :: txn in CacheOf(st.caches, cp) ==> CacheOf(st.caches, cp)[txn] != sid
    ensures Inv(st.(sessions := st.sessions[sid := s'], tasks := st.tasks[cp := t]))
    ensures Evolves(Some(cp), st.sessions, st.sessions[sid := s'])
  {
    var ss' := st.sessions[sid := s'];
    assert RowOk(st.sessions[sid]);
    UpdateEvolves(Some(cp), st.sessions, sid, s');
    UpdateKeepsSessions(st.sessions, sid, s');
    ControlAfter(st, ss', cp, t);
    LinksStable(Some(cp), st.sessions, ss', st.publics);
    BalanceWon(st.sessions, s', st.cdrs, st.lost, st.tasks, cp, sid, t);
    BillsStable(Some(cp), st.sessions, ss', st.cdrs, st.lost, st.events);
  }

  lemma StopSettleKeeps(st: State, step: Step)
    requires Inv(st) && step.StopSettleStep?
    ensures Inv(Next(st, step)) && Evolves(Who(step), st.sessions, Next(st, step).sessions)
  {
    var StopSettleStep(cp) := step;
    var st' := StopSettle(st, cp);
    if TaskOf(st.tasks, cp).Settling? {
      assert TaskOk(st.sessions, cp, st.tasks[cp]);
      RestFollows(st, st.sessions, cp, st'.tasks[cp]);
      SameLinksKeepPublic(st.(tasks := st'.tasks), st'.publics);
    }
  }

  // ---------------------------------------------------------------- CDRs

  lemma CdrSelectKeeps(st: State, step: Step)
    requires Inv(st) && step.CdrSelectStep?
    ensures Inv(Next(st, step)) && Evolves(Who(step), st.sessions, Next(st, step).sessions)
  {
    var CdrSelectStep(cp) := step;
    var st' := CdrSelect(st, cp);
    if TaskOf(st.tasks, cp).SelectingCdr? {
      var sid := TaskOf(st.tasks, cp).sid;
      assert TaskOk(st.sessions, cp, st.tasks[cp]);
      assert RowOk(st.sessions[sid]);
      RestFollows(st, st.sessions, cp, st'.tasks[cp]);
    }
  }

  lemma CdrInsertKeeps(st: State, step: Step)
    requires Inv(st) && step.CdrInsertStep?
    ensures Inv(Next(st, step)) && Evolves(Who(step), st.sessions, Next(st, step).sessions)
  {
    var CdrInsertStep(cp) := step;
    var st' := CdrInsert(st, cp);
    if TaskOf(st.tasks, cp).InsertingCdr? {
      var sid, energy := TaskOf(st.tasks, cp).sid, TaskOf(st.tasks, cp).energy;
      assert TaskOk(st.sessions, cp, st.tasks[cp]);
      ControlAfter(st, st.sessions, cp, Announcing(sid, energy));
      BalancePaid(st.sessions, st.cdrs, st'.cdrs, st.lost, st.lost, st.tasks, cp, sid, Announcing(sid, energy));
      assert EventOk(st.sessions, SessionCdr(sid, energy));
    }
  }

  lemma StopPublishKeeps(st: State, step: Step)
    requires Inv(st) && step.StopPublishStep?
    ensures Inv(Next(st, step)) && Evolves(Who(step), st.sessions, Next(st, step).sessions)
  {
    var StopPublishStep(cp) := step;
    if TaskOf(st.tasks, cp).Announcing? {
      var sid, energy := TaskOf(st.tasks, cp).sid, TaskOf(st.tasks, cp).energy;
      assert TaskOk(st.sessions, cp, st.tasks[cp]);
      RestFollows(st, st.sessions, cp, Idle);
      EventKeeps(st.(tasks := st.tasks[cp := Idle]), SessionStop(sid, energy));
    }
  }

  lemma CrashKeeps(st: State, step: Step)
    requires Inv(st) && step.CrashStep?
    ensures Inv(Next(st, step)) && Evolves(Who(step), st.sessions, Next(st, step).sessions)
  {
    var CrashStep(cp) := step;
    var st' := Crash(st, cp);
    var pending := PendingCdr(TaskOf(st.tasks, cp));
    ControlAfter(st, st.sessions, cp, Idle);
    if pending.Some? {
      assert TaskOk(st.sessions, cp, st.tasks[cp]);
      BalancePaid(st.sessions, st.cdrs, st.cdrs, st.lost, st'.lost, st.tasks, cp, pending.value, Idle);
    } else {
      BalanceUnmoved(st.sessions, st.sessions, st.cdrs, st.lost, st.tasks, cp, Idle);
    }
  }

  // ---------------------------------------------------------------- OCPP 2.0.1

  lemma MapAfter(st: State, cp: string, cache: map<string, nat>)
    requires ControlInv(st) && CacheOk(st.sessions, cp, cache) && !TaskOf(st.tasks, cp).Metering201?
    ensures ControlInv(st.(caches := st.caches[cp := cache]))
  {
  }

  lemma SameBalance(ss: seq<Session>, row: Session, cdrs: seq<Cdr>, lost: seq<nat>, tasks: map<string, Task>,
                    cp: string)
    requires BillsBalance(ss, cdrs, lost, tasks) && CdrsOk(ss, cdrs) && LostOk(ss, lost)
    requires row.wins == 0 && TaskOf(tasks, cp) == Idle
    requires forall c :: c in tasks ==> TaskOk(ss, c, tasks[c])
    ensures BillsBalance(ss + [row], cdrs, lost, tasks)
  {
    BalanceUnmoved(ss, ss + [row], cdrs, lost, tasks, cp, Idle);
    assert forall other :: TaskOf(tasks[cp := Idle], other) == TaskOf(tasks, other);
  }

  lemma Started201Keeps(st: State, step: Step)
    requires Inv(st) && step.Started201Step?
    ensures Inv(Next(st, step)) && Evolves(Who(step), st.sessions, Next(st, step).sessions)
  {
    var Started201Step(cp, txn) := step;
    if TaskOf(st.tasks, cp) == Idle {
      var row := Session(cp, None, Some(txn), 0.0, Active, None, "", None, 0.0, 0.0, 0, []);
      assert Next(st, step)
          == st.(sessions := st.sessions + [row], events := st.events + [SessionStart(|st.sessions|)],
                 caches := st.caches[cp := CacheOf(st.caches, cp)[txn := |st.sessions|]]);
      Started201RowKeeps(st, cp, txn, row);
    } else {
      assert Next(st, step) == st;
    }
  }

  lemma Started201RowKeeps(st: State, cp: string, txn: string, row: Session)
    requires Inv(st) && TaskOf(st.tasks, cp) == Idle
    requires RowOk(row) && row.cp == cp && row.tid.None? && row.txn == Some(txn) && row.wins == 0
    ensures Inv(st.(sessions := st.sessions + [row], events := st.events + [SessionStart(|st.sessions|)],
                    caches := st.caches[cp := CacheOf(st.caches, cp)[txn := |st.sessions|]]))
    ensures Evolves(Some(cp), st.sessions, st.sessions + [row])
  {
    var ss := st.sessions;
    AppendKeepsSessions(ss, row);
    Started201Control(st, row, cp, txn);
    LinksStable(Some(cp), ss, ss + [row], st.publics);
    SameBalance(ss, row, st.cdrs, st.lost, st.tasks, cp);
    BillsStable(Some(cp), ss, ss + [row], st.cdrs, st.lost, st.events);
    assert EventOk(ss + [row], SessionStart(|ss|));
  }

  lemma Started201Control(st: State, row: Session, cp: string, txn: string)
    requires ControlInv(st) && TaskOf(st.tasks, cp) == Idle
    requires row.cp == cp && row.txn == Some(txn) && row.wins == 0
    ensures ControlInv(st.(sessions := st.sessions + [row],
                           caches := st.caches[cp := CacheOf(st.caches, cp)[txn := |st.sessions|]]))
  {
  }

  /** The map after a look-up is sound, and an Ended message's row is not in it. */
  lemma RememberedOk(ss: seq<Session>, cache: map<string, nat>, cp: string, txn: string, pick: Option<nat>, ended: bool)
    requires RowsOk(ss) && CacheOk(ss, cp, cache) && LookupAnswers(ss, cache, cp, txn, pick)
    ensures CacheOk(ss, cp, Remembered(cache, txn, pick, ended))
    ensures EndedIsOut(Remembered(cache, txn, pick, ended), Metering201(pick, [], ended))
    ensures pick.Some? ==> Unwon201(ss, cp, pick.value)
  {
  }

  lemma Resolve201Keeps(st: State, step: Step)
    requires Inv(st) && step.Resolve201Step?
    ensures Inv(Next(st, step)) && Evolves(Who(step), st.sessions, Next(st, step).sessions)
  {
    var Resolve201Step(cp, txn, ended, readings, pick) := step;
    var cache := CacheOf(st.caches, cp);
    if TaskOf(st.tasks, cp) == Idle && LookupAnswers(st.sessions, cache, cp, txn, pick) {
      var cache', t := Remembered(cache, txn, pick, ended), Metering201(pick, readings, ended);
      var st1 := st.(caches := st.caches[cp := cache']);
      assert Next(st, step) == st1.(sessions := st.sessions, tasks := st.tasks[cp := t]);
      assert Inv(st1) && TaskOk(st.sessions, cp, t) by {
        RememberedOk(st.sessions, cache, cp, txn, pick, ended);
        MapAfter(st, cp, cache');
      }
      assert EndedIsOut(CacheOf(st1.caches, cp), t) by {
        RememberedOk(st.sessions, cache, cp, txn, pick, ended);
      }
      SameEvolves(Some(cp), st.sessions);
      RestFollows(st1, st.sessions, cp, t);
    } else {
      assert Next(st, step) == st;
    }
  }

  lemma Value201Keeps(st: State, cp: string, sid: Option<nat>, readings: seq<Reading>, ended: bool)
    requires Inv(st) && TaskOf(st.tasks, cp) == Metering201(sid, readings, ended) && readings != []
    ensures Inv(Meter201(st, cp, "", 0)) && Evolves(Some(cp), st.sessions, Meter201(st, cp, "", 0).sessions)
  {
    var st' := Meter201(st, cp, "", 0);
    var ss := st.sessions;
    assert TaskOk(ss, cp, st.tasks[cp]) && EndedIsOut(CacheOf(st.caches, cp), st.tasks[cp]);
    if sid.Some? {
      assert RowOk(ss[sid.value]);
      UpdateEvolves(Some(cp), ss, sid.value, Raise201(ss[sid.value], readings[0]));
      UpdateKeepsSessions(ss, sid.value, Raise201(ss[sid.value], readings[0]));
    }
    RestFollows(st, st'.sessions, cp, st'.tasks[cp]);
    EventKeeps(st.(sessions := st'.sessions, tasks := st'.tasks), SessionMeter(sid, OrZero(readings[0].energy)));
  }

  lemma Meter201Keeps(st: State, step: Step)
    requires Inv(st) && step.Meter201Step?
    ensures Inv(Next(st, step)) && Evolves(Who(step), st.sessions, Next(st, step).sessions)
  {
    var Meter201Step(cp, reason, now) := step;
    if TaskOf(st.tasks, cp).Metering201? {
      var Metering201(sid, readings, ended) := TaskOf(st.tasks, cp);
      if readings != [] {
        Value201Keeps(st, cp, sid, readings, ended);
        assert Next(st, step) == Meter201(st, cp, "", 0);
      } else {
        End201Keeps(st, cp, sid, ended, reason, now);
      }
    }
  }

  lemma End201Keeps(st: State, cp: string, sid: Option<nat>, ended: bool, reason: string, now: int)
    requires Inv(st) && TaskOf(st.tasks, cp) == Metering201(sid, [], ended)
    ensures Inv(Meter201(st, cp, reason, now)) && Evolves(Some(cp), st.sessions, Meter201(st, cp, reason, now).sessions)
  {
    var st' := Meter201(st, cp, reason, now);
    if ended && sid.Some? && sid.value < |st.sessions| && st.sessions[sid.value].status == Active {
      assert TaskOk(st.sessions, cp, st.tasks[cp]) && EndedIsOut(CacheOf(st.caches, cp), st.tasks[cp]);
      assert RowOk(st.sessions[sid.value]);
      WinKeeps(st, cp, sid.value, st'.sessions[sid.value], st'.tasks[cp]);
    } else {
      RestFollows(st, st.sessions, cp, Idle);
    }
  }

  lemma ReconnectKeeps(st: State, step: Step)
    requires Inv(st) && step.ReconnectStep?
    ensures Inv(Next(st, step)) && Evolves(Who(step), st.sessions, Next(st, step).sessions)
  {
    var ReconnectStep(cp) := step;
    if TaskOf(st.tasks, cp) == Idle {
      MapAfter(st, cp, map[]);
    }
  }

  // ---------------------------------------------------------------- closer and REST API

  lemma CloserCloseKeeps(st: State, step: Step)
    requires Inv(st) && step.CloserCloseStep?
    ensures Inv(Next(st, step)) && Evolves(Who(step), st.sessions, Next(st, step).sessions)
  {
    var CloserCloseStep(sid, now) := step;
    var st' := CloserClose(st, sid, now);
    if sid in st.fetched && sid < |st.sessions| {
      var ss, ss' := st.sessions, st'.sessions;
      assert RowOk(ss[sid]);
      UpdateEvolves(None, ss, sid, ss'[sid]);
      UpdateKeepsSessions(ss, sid, ss'[sid]);
      TasksUnmoved(ss, ss', st.tasks);
      CachesStable(None, ss, ss', st.caches);
      LinksStable(None, ss, ss', st.publics);
      BillsStable(None, ss, ss', st.cdrs, st.lost, st.events);
      forall i: nat | i < |ss'|
        ensures CdrCount(st.cdrs, i) + Occurrences(st.lost, i) + InFlight(st.tasks, ss'[i].cp, i) == ss'[i].wins
      {
        assert ss'[i].cp == ss[i].cp && ss'[i].wins == ss[i].wins;
      }
    }
  }

  lemma CreatePublicKeeps(st: State, step: Step)
    requires Inv(st) && step.CreatePublicStep?
    ensures Inv(Next(st, step)) && Evolves(Who(step), st.sessions, Next(st, step).sessions)
  {
    var CreatePublicStep(prefix, now) := step;
    var st' := CreatePublic(st, prefix, now);
    forall cp | cp in st.tasks ensures NotLinked(st'.publics, st.tasks[cp]) {
      assert NotLinked(st.publics, st.tasks[cp]);
    }
  }

  // ---------------------------------------------------------------- any step, any run

  /** The charger whose message a step belongs to. */
  function Who(step: Step): Option<string> {
    match step
    case CloserFetchStep(_) => None
    case CloserCloseStep(_, _) => None
    case CreatePublicStep(_, _) => None
    case CancelPublicStep(_, _) => None
    case PayPublicStep(_, _) => None
    case FailStartStep(_) => None
    case _ => Some(step.cp)
  }

  lemma CloserFetchKeeps(st: State, step: Step)
    requires Inv(st) && step.CloserFetchStep?
    ensures Inv(Next(st, step)) && Evolves(Who(step), st.sessions, Next(st, step).sessions)
  {
    var CloserFetchStep(rows) := step;
  }

  /** The API writes payment status and stopped_at, never a link. */
  lemma PublicUpdateKeeps(st: State, p: nat, row: Public)
    requires Inv(st) && p < |st.publics|
    requires row.tid == st.publics[p].tid && row.startedAt == st.publics[p].startedAt
    ensures Inv(st.(publics := st.publics[p := row]))
  {
  }

  lemma ApiStepKeeps(st: State, step: Step)
    requires Inv(st) && (step.CancelPublicStep? || step.PayPublicStep? || step.FailStartStep?)
    ensures Inv(Next(st, step)) && Evolves(Who(step), st.sessions, Next(st, step).sessions)
  {
    if Next(st, step) != st {
      var row := Next(st, step).publics[step.p];
      PublicUpdateKeeps(st, step.p, row);
      assert Next(st, step) == st.(publics := st.publics[step.p := row]);
    }
  }

  lemma NextKeeps(st: State, step: Step)
    requires Inv(st)
    ensures Inv(Next(st, step)) && Evolves(Who(step), st.sessions, Next(st, step).sessions)
  {
    match step
    case StartInsertStep(_, _, _) => StartInsertKeeps(st, step);
    case StartLinkStep(_, _, _) => StartLinkKeeps(st, step);
    case MeterReadStep(_, _, _) => MeterReadKeeps(st, step);
    case MeterSessionStep(_) => MeterSessionKeeps(st, step);
    case MeterPublicStep(_) => MeterPublicKeeps(st, step);
    case StopCloseStep(_, _, _, _, _) => StopCloseKeeps(st, step);
    case StopSettleStep(_) => StopSettleKeeps(st, step);
    case CdrSelectStep(_) => CdrSelectKeeps(st, step);
    case CdrInsertStep(_) => CdrInsertKeeps(st, step);
    case StopPublishStep(_) => StopPublishKeeps(st, step);
    case Started201Step(_, _) => Started201Keeps(st, step);
    case Resolve201Step(_, _, _, _, _) => Resolve201Keeps(st, step);
    case Meter201Step(_, _, _) => Meter201Keeps(st, step);
    case ReconnectStep(_) => ReconnectKeeps(st, step);
    case CrashStep(_) => CrashKeeps(st, step);
    case CloserFetchStep(_) => CloserFetchKeeps(st, step);
    case CloserCloseStep(_, _) => CloserCloseKeeps(st, step);
    case CreatePublicStep(_, _) => CreatePublicKeeps(st, step);
    case _ => ApiStepKeeps(st, step);
  }

  lemma {:induction false} RunKeeps(st: State, steps: seq<Step>)
    requires Inv(st)
    ensures Inv(Exec(st, steps))
  {
    if steps != [] {
      RunKeeps(st, steps[..|steps| - 1]);
      NextKeeps(Exec(st, steps[..|steps| - 1]), steps[|steps| - 1]);
    }
  }

  /** Every state a run of the empty database reaches satisfies the invariant. */
  lemma ReachableInv(steps: seq<Step>)
    ensures Inv(Exec(INITIAL, steps))
  {
    RunKeeps(INITIAL, steps);
  }
}
