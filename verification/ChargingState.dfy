/**
 The charging-session and billing core as one state machine.

 The state holds the rows of `sessions`, `public_sessions` and `cdrs`, the published events, and what
 is in flight: for every charger the statement its current message has reached, for every 2.0.1
 connection the map of active transactions, and the rows the stale-session closer has fetched.

 A step is one SQL statement or one database transaction.  Steps of different chargers, of the closer
 and of the REST API interleave freely; the messages of one charger do not overlap.  A step that its
 guard forbids leaves the state as it is.

 Session rows are identified by their position in `sessions`, public rows by theirs in `publics`.
 */
module ChargingState {
  import opened Common
  import opened Rounding
  import opened Meter16
  import opened CdrCost

  // ---------------------------------------------------------------- rows

  /** 'active', 'completed' (a stop handler) and 'Completed' (the closer). */
  datatype Status = Active | Completed | AutoClosed

  /** One MeterValues entry of a 1.6 session: cumulative register in kWh, power in kW. */
  datatype MeterSample = MeterSample(register: real, power: real)

  /**
   `tid` is transaction_id (OCPP 1.6), `txn` is metadata->>'transaction_id' (OCPP 2.0.1).
   `wins` and `samples` are not columns: they record how many guarded close updates returned this row
   and which samples reached it: while it was active in 1.6, those with an energy in 2.0.1.
   */
  datatype Session = Session(
    cp: string, tid: Option<int>, txn: Option<string>, meterStart: real,
    status: Status, stopTime: Option<int>, stopReason: string, meterStop: Option<real>,
    energy: real, peak: real,
    wins: nat, samples: seq<MeterSample>)

  datatype Public = Public(
    prefix: string, createdAt: int, payment: string,
    tid: Option<int>, startedAt: Option<int>, stoppedAt: Option<int>, kwh: real)

  datatype Cdr = Cdr(sid: nat, stopTime: Option<int>, energy: real, cost: Option<Cost>)

  datatype Event =
    | SessionStart(sid: nat)
    | SessionMeter(meterSid: Option<nat>, meterEnergy: real)
    | SessionCdr(sid: nat, energy: real)
    | SessionStop(sid: nat, energy: real)

  /** What one 2.0.1 meter value says: energy and power, where sent. */
  datatype Reading = Reading(energy: Option<real>, power: Option<real>)

  // ---------------------------------------------------------------- in-flight messages

  /** Where the current message of a charger stands: the statement it executes next. */
  datatype Task =
    | Idle
    | Linking(sid: nat, tid: int, prefix: string)
    | MeteringSession(meterTid: Option<int>, meterSid: Option<nat>, sample: MeterSample, kwh: real)
    | MeteringPublic(meterTid: Option<int>, meterSid: Option<nat>, kwh: real)
    | Settling(sid: nat, tid: int, energy: real, time: int)
    | SelectingCdr(sid: nat, energy: real, priced: bool)
    | InsertingCdr(sid: nat, energy: real, priced: bool, readEnergy: real, readStop: Option<int>)
    | Announcing(sid: nat, energy: real)
    | Metering201(meterSid: Option<nat>, readings: seq<Reading>, ended: bool)

  datatype State = State(
    sessions: seq<Session>, publics: seq<Public>, cdrs: seq<Cdr>, events: seq<Event>,
    tasks: map<string, Task>,
    caches: map<string, map<string, nat>>,
    fetched: set<nat>,
    lost: seq<nat>)

  const INITIAL := State([], [], [], [], map[], map[], {}, [])

  function TaskOf(tasks: map<string, Task>, cp: string): Task {
    if cp in tasks then tasks[cp] else Idle
  }

  function CacheOf(caches: map<string, map<string, nat>>, cp: string): map<string, nat> {
    if cp in caches then caches[cp] else map[]
  }

  // ---------------------------------------------------------------- look-ups

  function Max(x: real, y: real): real {
    if x >= y then x else y
  }

  /** COALESCE(MAX(transaction_id), 0); 2.0.1 rows have no transaction_id. */
  function MaxTid(ss: seq<Session>): (m: int)
    ensures m >= 0
    ensures forall i :: 0 <= i < |ss| && ss[i].tid.Some? ==> ss[i].tid.value <= m
  {
    if ss == [] then 0
    else
      var rest := MaxTid(ss[..|ss| - 1]);
      var s := ss[|ss| - 1];
      if s.tid.Some? && s.tid.value > rest then s.tid.value else rest
  }

  /** WHERE charge_point = cp AND transaction_id = tid AND status = 'active'. */
  predicate IsActive16(s: Session, cp: string, tid: int) {
    s.cp == cp && s.tid == Some(tid) && s.status == Active
  }

  function FindActive(ss: seq<Session>, cp: string, tid: int): (sid: Option<nat>)
    ensures sid.Some? ==> sid.value < |ss| && IsActive16(ss[sid.value], cp, tid)
    ensures sid.None? ==> forall i :: 0 <= i < |ss| ==> !IsActive16(ss[i], cp, tid)
  {
    if ss == [] then None
    else if IsActive16(ss[|ss| - 1], cp, tid) then Some(|ss| - 1)
    else FindActive(ss[..|ss| - 1], cp, tid)
  }

  /** WHERE charge_point = cp AND metadata->>'transaction_id' = txn AND status = 'active'. */
  predicate IsActive201(s: Session, cp: string, txn: string) {
    s.cp == cp && s.txn == Some(txn) && s.status == Active
  }

  /** The rows the 2.0.1 look-up may return when the map has no entry: any match, None if there is none. */
  predicate DbAnswers(ss: seq<Session>, cp: string, txn: string, pick: Option<nat>) {
    match pick
    case Some(sid) => sid < |ss| && IsActive201(ss[sid], cp, txn)
    case None => forall i :: 0 <= i < |ss| ==> !IsActive201(ss[i], cp, txn)
  }

  /** The map first, the database on a miss. */
  predicate LookupAnswers(ss: seq<Session>, cache: map<string, nat>, cp: string, txn: string, pick: Option<nat>) {
    if txn in cache then pick == Some(cache[txn]) else DbAnswers(ss, cp, txn, pick)
  }

  function LowerChar(c: char): char {
    if 'A' <= c <= 'Z' then (c as int + 32) as char else c
  }

  function UpperChar(c: char): char {
    if 'a' <= c <= 'z' then (c as int - 32) as char else c
  }

  function Lower(s: string): string {
    seq(|s|, i requires 0 <= i < |s| => LowerChar(s[i]))
  }

  function Upper(s: string): string {
    seq(|s|, i requires 0 <= i < |s| => UpperChar(s[i]))
  }

  /** The public session a tag of the charge app names: APP_88FBC7B6 names 88fbc7b6*. */
  function AppPrefix(idTag: string): Option<string> {
    if "APP_" <= idTag then Some(Lower(idTag[4..])) else None
  }

  /** The tag sent with RemoteStartTransaction for a public session. */
  function AppTag(prefix: string): string {
    "APP_" + Upper(prefix)
  }

  /** Public rows the link statement may choose from. */
  predicate Linkable(p: Public, prefix: string) {
    p.prefix == prefix && p.tid.None? && p.startedAt.None?
  }

  /** ORDER BY created_at DESC LIMIT 1. */
  predicate LinkChooses(ps: seq<Public>, prefix: string, pick: Option<nat>) {
    match pick
    case Some(p) =>
      && p < |ps| && Linkable(ps[p], prefix)
      && forall q :: 0 <= q < |ps| && Linkable(ps[q], prefix) ==> ps[q].createdAt <= ps[p].createdAt
    case None => forall q :: 0 <= q < |ps| ==> !Linkable(ps[q], prefix)
  }

  // ---------------------------------------------------------------- OCPP 1.6 messages

  function StartInsert(st: State, cp: string, idTag: string, meterStart: real): State {
    if TaskOf(st.tasks, cp) != Idle then st
    else
      var tid := MaxTid(st.sessions) + 1;
      var sid := |st.sessions|;
      var row := Session(cp, Some(tid), None, meterStart, Active, None, "", None, 0.0, 0.0, 0, []);
      st.(sessions := st.sessions + [row],
          events := st.events + [SessionStart(sid)],
          tasks := st.tasks[cp := match AppPrefix(idTag)
                                  case Some(prefix) => Linking(sid, tid, prefix)
                                  case None => Idle])
  }

  function StartLink(st: State, cp: string, pick: Option<nat>, now: int): State {
    match TaskOf(st.tasks, cp)
    case Linking(sid, tid, prefix) =>
      if !LinkChooses(st.publics, prefix, pick) then st
      else
        st.(publics := if pick.None? then st.publics
                       else st.publics[pick.value := st.publics[pick.value].(tid := Some(tid), startedAt := Some(now))],
            tasks := st.tasks[cp := Idle])
    case _ => st
  }

  /** The session look-up of one MeterValues entry; an absent or zero transactionId looks nothing up. */
  function MeterRead(st: State, cp: string, tid: Option<int>, sample: MeterSample): State {
    if TaskOf(st.tasks, cp) != Idle then st
    else
      var sid := if tid.Some? && tid.value != 0 then FindActive(st.sessions, cp, tid.value) else None;
      var meterStart := if sid.Some? then st.sessions[sid.value].meterStart else 0.0;
      st.(tasks := st.tasks[cp := MeteringSession(tid, sid, sample, SessionEnergy(sample.register, meterStart))])
  }

  /** GREATEST on energy and peak power, guarded by the status. */
  function Raise(s: Session, sample: MeterSample, kwh: real): Session {
    if s.status != Active then s
    else if kwh > 0.0 || sample.power > 0.0 then
      s.(energy := Max(s.energy, kwh), peak := Max(s.peak, sample.power), samples := s.samples + [sample])
    else s.(samples := s.samples + [sample])
  }

  function MeterSession(st: State, cp: string): State {
    match TaskOf(st.tasks, cp)
    case MeteringSession(tid, sid, sample, kwh) =>
      st.(sessions := if sid.Some? && sid.value < |st.sessions|
                      then st.sessions[sid.value := Raise(st.sessions[sid.value], sample, kwh)]
                      else st.sessions,
          tasks := st.tasks[cp := MeteringPublic(tid, sid, kwh)])
    case _ => st
  }

  /** UPDATE public_sessions SET kwh_delivered = kwh WHERE ocpp_transaction_id = tid. */
  function Deliver(p: Public, tid: int, kwh: real): Public {
    if p.tid == Some(tid) then p.(kwh := Hundredths(kwh)) else p
  }

  function DeliverAll(ps: seq<Public>, tid: int, kwh: real): seq<Public> {
    seq(|ps|, i requires 0 <= i < |ps| => Deliver(ps[i], tid, kwh))
  }

  function MeterPublic(st: State, cp: string): State {
    match TaskOf(st.tasks, cp)
    case MeteringPublic(tid, sid, kwh) =>
      st.(publics := if tid.Some? && tid.value != 0 && kwh > 0.0 then DeliverAll(st.publics, tid.value, kwh)
                     else st.publics,
          events := st.events + [SessionMeter(sid, kwh)],
          tasks := st.tasks[cp := Idle])
    case _ => st
  }

  /** Find the active row, compute the final energy and close the row: one transaction. */
  function StopClose(st: State, cp: string, tid: Option<int>, meterStop: real, reason: string, now: int): State {
    if TaskOf(st.tasks, cp) != Idle || tid.None? then st
    else match FindActive(st.sessions, cp, tid.value)
      case None => st
      case Some(sid) =>
        var s := st.sessions[sid];
        var energy := SessionEnergy(meterStop / 1000.0, s.meterStart);
        st.(sessions := st.sessions[sid := s.(status := Completed, stopTime := Some(now), stopReason := reason,
                                              meterStop := Some(meterStop), energy := energy, wins := s.wins + 1)],
            tasks := st.tasks[cp := Settling(sid, tid.value, energy, now)])
  }

  /** UPDATE public_sessions SET stopped_at, kwh_delivered WHERE ocpp_transaction_id = tid AND stopped_at IS NULL. */
  function Settle(p: Public, tid: int, kwh: real, now: int): Public {
    if p.tid == Some(tid) && p.stoppedAt.None? then p.(stoppedAt := Some(now), kwh := Hundredths(kwh)) else p
  }

  function SettleAll(ps: seq<Public>, tid: int, kwh: real, now: int): seq<Public> {
    seq(|ps|, i requires 0 <= i < |ps| => Settle(ps[i], tid, kwh, now))
  }

  function StopSettle(st: State, cp: string): State {
    match TaskOf(st.tasks, cp)
    case Settling(sid, tid, energy, now) =>
      st.(publics := SettleAll(st.publics, tid, energy, now),
          tasks := st.tasks[cp := SelectingCdr(sid, energy, true)])
    case _ => st
  }

  // ---------------------------------------------------------------- CDR generation, both protocols

  function CdrSelect(st: State, cp: string): State {
    match TaskOf(st.tasks, cp)
    case SelectingCdr(sid, energy, priced) =>
      if sid >= |st.sessions| then st
      else
        var s := st.sessions[sid];
        st.(tasks := st.tasks[cp := InsertingCdr(sid, energy, priced, s.energy, s.stopTime)])
    case _ => st
  }

  /** Insert the row and publish SESSION_CDR; the 2.0.1 handler gives up when there is no stop time. */
  function CdrInsert(st: State, cp: string): State {
    match TaskOf(st.tasks, cp)
    case InsertingCdr(sid, energy, priced, readEnergy, readStop) =>
      if !priced && readStop.None? then st.(tasks := st.tasks[cp := Announcing(sid, energy)])
      else
        var cost := if priced then Some(Calculate(readEnergy)) else None;
        st.(cdrs := st.cdrs + [Cdr(sid, readStop, readEnergy, cost)],
            events := st.events + [SessionCdr(sid, readEnergy)],
            tasks := st.tasks[cp := Announcing(sid, energy)])
    case _ => st
  }

  function StopPublish(st: State, cp: string): State {
    match TaskOf(st.tasks, cp)
    case Announcing(sid, energy) =>
      st.(events := st.events + [SessionStop(sid, energy)], tasks := st.tasks[cp := Idle])
    case _ => st
  }

  // ---------------------------------------------------------------- OCPP 2.0.1 messages

  function Started201(st: State, cp: string, txn: string): State {
    if TaskOf(st.tasks, cp) != Idle then st
    else
      var sid := |st.sessions|;
      var row := Session(cp, None, Some(txn), 0.0, Active, None, "", None, 0.0, 0.0, 0, []);
      st.(sessions := st.sessions + [row],
          events := st.events + [SessionStart(sid)],
          caches := st.caches[cp := CacheOf(st.caches, cp)[txn := sid]])
  }

  /** Updated keeps a database answer in the map; Ended takes its entry out. */
  function Remembered(cache: map<string, nat>, txn: string, pick: Option<nat>, ended: bool): map<string, nat> {
    if ended then cache - {txn}
    else if pick.Some? then cache[txn := pick.value]
    else cache
  }

  function Resolve201(
    st: State, cp: string, txn: string, ended: bool, readings: seq<Reading>, pick: Option<nat>): State
  {
    var cache := CacheOf(st.caches, cp);
    if TaskOf(st.tasks, cp) != Idle || !LookupAnswers(st.sessions, cache, cp, txn, pick) then st
    else
      st.(caches := st.caches[cp := Remembered(cache, txn, pick, ended)],
          tasks := st.tasks[cp := Metering201(pick, readings, ended)])
  }

  /** GREATEST without a status guard, skipped when there is no energy or it is zero. */
  function Raise201(s: Session, r: Reading): Session {
    if r.energy.None? || r.energy.value == 0.0 then s
    else
      var sample := MeterSample(r.energy.value, OrZero(r.power));
      s.(energy := Max(s.energy, sample.register), peak := Max(s.peak, sample.power), samples := s.samples + [sample])
  }

  /** One meter value, or the end of the message when none is left. */
  function Meter201(st: State, cp: string, reason: string, now: int): State {
    match TaskOf(st.tasks, cp)
    case Metering201(sid, readings, ended) =>
      if readings != [] then
        var r := readings[0];
        st.(sessions := if sid.Some? && sid.value < |st.sessions|
                        then st.sessions[sid.value := Raise201(st.sessions[sid.value], r)]
                        else st.sessions,
            events := st.events + [SessionMeter(sid, OrZero(r.energy))],
            tasks := st.tasks[cp := Metering201(sid, readings[1..], ended)])
      else if ended && sid.Some? && sid.value < |st.sessions| && st.sessions[sid.value].status == Active then
        var s := st.sessions[sid.value];
        st.(sessions := st.sessions[sid.value := s.(status := Completed, stopTime := Some(now), stopReason := reason,
                                                    wins := s.wins + 1)],
            tasks := st.tasks[cp := SelectingCdr(sid.value, s.energy, false)])
      else st.(tasks := st.tasks[cp := Idle])
    case _ => st
  }

  /** The charger reconnects: a fresh handler with an empty map. */
  function Reconnect(st: State, cp: string): State {
    if TaskOf(st.tasks, cp) != Idle then st else st.(caches := st.caches[cp := map[]])
  }

  /** The row whose CDR a message still has to insert. */
  function PendingCdr(t: Task): Option<nat> {
    match t
    case Settling(sid, _, _, _) => Some(sid)
    case SelectingCdr(sid, _, _) => Some(sid)
    case InsertingCdr(sid, _, _, _, _) => Some(sid)
    case _ => None
  }

  /** A call made by the handler raises: the rest of the message is dropped, and a pending CDR with it. */
  function Crash(st: State, cp: string): State {
    var t := TaskOf(st.tasks, cp);
    st.(tasks := st.tasks[cp := Idle],
        lost := match PendingCdr(t) case Some(sid) => st.lost + [sid] case None => st.lost)
  }

  // ---------------------------------------------------------------- stale-session closer

  /** Either pass: the rows fetched were active; which of them are stale depends on meter data and time. */
  function CloserFetch(st: State, rows: set<nat>): State {
    if forall sid :: sid in rows ==> sid < |st.sessions| && st.sessions[sid].status == Active
    then st.(fetched := st.fetched + rows)
    else st
  }

  /** UPDATE ... WHERE id = $1: no status guard. */
  function CloserClose(st: State, sid: nat, now: int): State {
    if sid !in st.fetched || sid >= |st.sessions| then st
    else
      st.(sessions := st.sessions[sid := st.sessions[sid].(status := AutoClosed, stopReason := "StaleSessionAutoClose",
                                                            stopTime := Some(now))],
          fetched := st.fetched - {sid})
  }

  // ---------------------------------------------------------------- REST API

  function CreatePublic(st: State, prefix: string, now: int): State {
    st.(publics := st.publics + [Public(prefix, now, "pending", None, None, None, 0.0)])
  }

  function CancelPublic(st: State, p: nat, now: int): State {
    if p < |st.publics| && st.publics[p].startedAt.None?
    then st.(publics := st.publics[p := st.publics[p].(payment := "cancelled", stoppedAt := Some(now))])
    else st
  }

  function PayPublic(st: State, p: nat, status: string): State {
    if p < |st.publics| then st.(publics := st.publics[p := st.publics[p].(payment := status)]) else st
  }

  function FailStart(st: State, p: nat): State {
    if p < |st.publics| && st.publics[p].startedAt.None?
    then st.(publics := st.publics[p := st.publics[p].(payment := "remote_start_failed")])
    else st
  }

  // ---------------------------------------------------------------- runs

  datatype Step =
    | StartInsertStep(cp: string, idTag: string, meterStart: real)
    | StartLinkStep(cp: string, pick: Option<nat>, now: int)
    | MeterReadStep(cp: string, tid: Option<int>, sample: MeterSample)
    | MeterSessionStep(cp: string)
    | MeterPublicStep(cp: string)
    | StopCloseStep(cp: string, tid: Option<int>, meterStop: real, reason: string, now: int)
    | StopSettleStep(cp: string)
    | CdrSelectStep(cp: string)
    | CdrInsertStep(cp: string)
    | StopPublishStep(cp: string)
    | Started201Step(cp: string, txn: string)
    | Resolve201Step(cp: string, txn: string, ended: bool, readings: seq<Reading>, pick: Option<nat>)
    | Meter201Step(cp: string, reason: string, now: int)
    | ReconnectStep(cp: string)
    | CrashStep(cp: string)
    | CloserFetchStep(rows: set<nat>)
    | CloserCloseStep(sid: nat, now: int)
    | CreatePublicStep(prefix: string, now: int)
    | CancelPublicStep(p: nat, now: int)
    | PayPublicStep(p: nat, status: string)
    | FailStartStep(p: nat)

  function Next(st: State, step: Step): State {
    match step
    case StartInsertStep(cp, idTag, meterStart) => StartInsert(st, cp, idTag, meterStart)
    case StartLinkStep(cp, pick, now) => StartLink(st, cp, pick, now)
    case MeterReadStep(cp, tid, sample) => MeterRead(st, cp, tid, sample)
    case MeterSessionStep(cp) => MeterSession(st, cp)
    case MeterPublicStep(cp) => MeterPublic(st, cp)
    case StopCloseStep(cp, tid, meterStop, reason, now) => StopClose(st, cp, tid, meterStop, reason, now)
    case StopSettleStep(cp) => StopSettle(st, cp)
    case CdrSelectStep(cp) => CdrSelect(st, cp)
    case CdrInsertStep(cp) => CdrInsert(st, cp)
    case StopPublishStep(cp) => StopPublish(st, cp)
    case Started201Step(cp, txn) => Started201(st, cp, txn)
    case Resolve201Step(cp, txn, ended, readings, pick) => Resolve201(st, cp, txn, ended, readings, pick)
    case Meter201Step(cp, reason, now) => Meter201(st, cp, reason, now)
    case ReconnectStep(cp) => Reconnect(st, cp)
    case CrashStep(cp) => Crash(st, cp)
    case CloserFetchStep(rows) => CloserFetch(st, rows)
    case CloserCloseStep(sid, now) => CloserClose(st, sid, now)
    case CreatePublicStep(prefix, now) => CreatePublic(st, prefix, now)
    case CancelPublicStep(p, now) => CancelPublic(st, p, now)
    case PayPublicStep(p, status) => PayPublic(st, p, status)
    case FailStartStep(p) => FailStart(st, p)
  }

  /** The state after a run. */
  function Exec(st: State, steps: seq<Step>): State {
    if steps == [] then st else Next(Exec(st, steps[..|steps| - 1]), steps[|steps| - 1])
  }

  lemma {:induction false} ExecAppends(st: State, first: seq<Step>, second: seq<Step>)
    ensures Exec(st, first + second) == Exec(Exec(st, first), second)
  {
    if second == [] {
      assert first + second == first;
    } else {
      var init := second[..|second| - 1];
      assert (first + second)[..|first + second| - 1] == first + init;
      ExecAppends(st, first, init);
    }
  }
}
