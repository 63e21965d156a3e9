/** What every step of the charging core keeps, and hence every reachable state satisfies. */
module ChargingInvariants {
  import opened Common
  import opened CdrCost
  import opened Meter16
  import opened ChargingState

  // ---------------------------------------------------------------- session rows

  /** The largest session energy of the samples, and 0. */
  function RunningEnergy(samples: seq<MeterSample>, meterStart: real): (e: real)
    ensures e >= 0.0
    ensures forall i :: 0 <= i < |samples| ==> SessionEnergy(samples[i].register, meterStart) <= e
  {
    if samples == [] then 0.0
    else Max(RunningEnergy(samples[..|samples| - 1], meterStart),
             SessionEnergy(samples[|samples| - 1].register, meterStart))
  }

  function PeakPower(samples: seq<MeterSample>): (p: real)
    ensures p >= 0.0
    ensures forall i :: 0 <= i < |samples| ==> samples[i].power <= p
  {
    if samples == [] then 0.0 else Max(PeakPower(samples[..|samples| - 1]), samples[|samples| - 1].power)
  }

  /** The largest register of the samples, and 0: 2.0.1 reports a session's energy itself. */
  function HighestRegister(samples: seq<MeterSample>): (e: real)
    ensures e >= 0.0
    ensures forall i :: 0 <= i < |samples| ==> samples[i].register <= e
  {
    if samples == [] then 0.0 else Max(HighestRegister(samples[..|samples| - 1]), samples[|samples| - 1].register)
  }

  /**
   A row has at most one winning stop handler and then is not active; only a stop handler completes a
   row, and only a 1.6 stop handler writes meterStop.  A 1.6 row nobody has won carries the maxima of its
   samples, a 2.0.1 row always.
   */
  ghost predicate RowOk(s: Session) {
    && s.wins <= 1
    && (s.wins == 1 ==> s.status != Active)
    && (s.status == Completed ==> s.wins == 1)
    && (s.status != Active <==> s.stopTime.Some?)
    && (s.tid.Some? <==> s.txn.None?)
    && (s.tid.Some? ==> s.tid.value >= 1)
    && (s.tid.Some? ==> (s.meterStop.Some? <==> s.wins == 1))
    && (s.tid.Some? && s.wins == 0 ==>
          s.energy == RunningEnergy(s.samples, s.meterStart) && s.peak == PeakPower(s.samples))
    && (s.txn.Some? ==> s.energy == HighestRegister(s.samples) && s.peak == PeakPower(s.samples))
  }

  ghost predicate RowsOk(ss: seq<Session>) {
    forall i :: 0 <= i < |ss| ==> RowOk(ss[i])
  }

  ghost predicate IdsIncrease(ss: seq<Session>) {
    forall i, j :: 0 <= i < j < |ss| && ss[i].tid.Some? && ss[j].tid.Some? ==> ss[i].tid.value < ss[j].tid.value
  }

  /**
   How a row may change: identity and meterStart stay; a won row keeps its energy and peak, and its stop time
   unless the closer takes it; a row that left `active` stays out of it and is not won any more, one the closer
   took stays so; only a handler of the row's own charger (`who`) wins it.
   */
  ghost predicate RowEvolves(who: Option<string>, s: Session, s': Session) {
    && s'.cp == s.cp && s'.tid == s.tid && s'.txn == s.txn && s'.meterStart == s.meterStart
    && (s.wins == 1 ==> s'.wins == 1 && s'.energy == s.energy && s'.peak == s.peak)
    && (s.wins == 1 ==> s'.stopTime == s.stopTime || s'.status == AutoClosed)
    && (s.status != Active ==> s'.status != Active && s'.wins == s.wins)
    && (s.status == AutoClosed ==> s'.status == AutoClosed)
    && (who != Some(s.cp) ==> s'.wins == s.wins)
  }

  ghost predicate Evolves(who: Option<string>, ss: seq<Session>, ss': seq<Session>) {
    && |ss| <= |ss'|
    && forall i :: 0 <= i < |ss| ==> RowEvolves(who, ss[i], ss'[i])
  }

  // ---------------------------------------------------------------- tasks and maps

  ghost predicate Owns(ss: seq<Session>, cp: string, sid: nat) {
    sid < |ss| && ss[sid].cp == cp
  }

  /** The look-up result a metering message carries: its energy is that of its own unwon row, or 0. */
  ghost predicate MeterOk(ss: seq<Session>, cp: string, tid: Option<int>, sid: Option<nat>, kwh: real) {
    match sid
    case Some(i) => Owns(ss, cp, i) && tid.Some? && ss[i].tid == tid && ss[i].wins == 0
    case None => kwh == 0.0
  }

  /** A stop handler past its close: it has won the row and carries the row's energy. */
  ghost predicate WonBy(ss: seq<Session>, cp: string, sid: nat, energy: real) {
    Owns(ss, cp, sid) && ss[sid].wins == 1 && ss[sid].energy == energy
  }

  /** A stop time read from a closed row: still the row's, unless the closer has taken the row since. */
  predicate StopTimeOf(s: Session, time: Option<int>) {
    time.Some? && (time == s.stopTime || s.status == AutoClosed)
  }

  ghost predicate TaskOk(ss: seq<Session>, cp: string, t: Task) {
    match t
    case Idle => true
    case Linking(sid, tid, _) => Owns(ss, cp, sid) && ss[sid].tid == Some(tid)
    case MeteringSession(tid, sid, sample, kwh) =>
      && MeterOk(ss, cp, tid, sid, kwh)
      && (sid.Some? ==> kwh == SessionEnergy(sample.register, ss[sid.value].meterStart))
    case MeteringPublic(tid, sid, kwh) => MeterOk(ss, cp, tid, sid, kwh)
    case Settling(sid, tid, energy, _) => WonBy(ss, cp, sid, energy) && ss[sid].tid == Some(tid)
    case SelectingCdr(sid, energy, priced) => WonBy(ss, cp, sid, energy) && priced == ss[sid].tid.Some?
    case InsertingCdr(sid, energy, priced, readEnergy, readStop) =>
      && WonBy(ss, cp, sid, energy) && readEnergy == energy && priced == ss[sid].tid.Some?
      && StopTimeOf(ss[sid], readStop)
    case Announcing(sid, energy) => WonBy(ss, cp, sid, energy)
    case Metering201(sid, _, _) => sid.Some? ==> Unwon201(ss, cp, sid.value)
  }

  ghost predicate Unwon201(ss: seq<Session>, cp: string, sid: nat) {
    Owns(ss, cp, sid) && ss[sid].txn.Some? && ss[sid].wins == 0
  }

  ghost predicate TasksOk(ss: seq<Session>, tasks: map<string, Task>) {
    forall cp :: cp in tasks ==> TaskOk(ss, cp, tasks[cp])
  }

  ghost predicate CacheOk(ss: seq<Session>, cp: string, cache: map<string, nat>) {
    forall txn :: txn in cache ==> Unwon201(ss, cp, cache[txn]) && ss[cache[txn]].txn == Some(txn)
  }

  /** Every map entry names an unwon row of its charger and transaction. */
  ghost predicate CachesOk(ss: seq<Session>, caches: map<string, map<string, nat>>) {
    forall cp :: cp in caches ==> CacheOk(ss, cp, caches[cp])
  }

  /** The row an Ended message is about to close is no longer in the map. */
  ghost predicate EndedIsOut(cache: map<string, nat>, t: Task) {
    t.Metering201? && t.ended && t.meterSid.Some? ==> forall txn :: txn in cache ==> cache[txn] != t.meterSid.value
  }

  ghost predicate EndedAreOut(caches: map<string, map<string, nat>>, tasks: map<string, Task>) {
    forall cp :: cp in tasks ==> EndedIsOut(CacheOf(caches, cp), tasks[cp])
  }

  // ---------------------------------------------------------------- public sessions

  ghost predicate HasTid(ss: seq<Session>, tid: int) {
    exists i :: 0 <= i < |ss| && ss[i].tid == Some(tid)
  }

  ghost predicate LinksOk(ss: seq<Session>, ps: seq<Public>) {
    && (forall p :: 0 <= p < |ps| ==> (ps[p].tid.Some? <==> ps[p].startedAt.Some?))
    && (forall p :: 0 <= p < |ps| && ps[p].tid.Some? ==> HasTid(ss, ps[p].tid.value))
    && (forall p, q :: 0 <= p < q < |ps| && ps[p].tid.Some? ==> ps[p].tid != ps[q].tid)
  }

  ghost predicate NotLinked(ps: seq<Public>, t: Task) {
    t.Linking? ==> forall p :: 0 <= p < |ps| ==> ps[p].tid != Some(t.tid)
  }

  /** A transaction being linked is not linked yet. */
  ghost predicate LinkingIsNew(ps: seq<Public>, tasks: map<string, Task>) {
    forall cp :: cp in tasks ==> NotLinked(ps, tasks[cp])
  }

  // ---------------------------------------------------------------- CDRs and events

  function CdrCount(cdrs: seq<Cdr>, sid: nat): nat {
    if cdrs == [] then 0
    else CdrCount(cdrs[..|cdrs| - 1], sid) + (if cdrs[|cdrs| - 1].sid == sid then 1 else 0)
  }

  function Occurrences(xs: seq<nat>, sid: nat): nat {
    if xs == [] then 0 else Occurrences(xs[..|xs| - 1], sid) + (if xs[|xs| - 1] == sid then 1 else 0)
  }

  /** 1 when the charger's current message still has to insert the CDR of the row. */
  function InFlight(tasks: map<string, Task>, cp: string, sid: nat): nat {
    if PendingCdr(TaskOf(tasks, cp)) == Some(sid) then 1 else 0
  }

  /** CDRs inserted, in flight or lost to an exception: one for each winning stop handler. */
  ghost predicate BillsBalance(ss: seq<Session>, cdrs: seq<Cdr>, lost: seq<nat>, tasks: map<string, Task>) {
    forall sid: nat :: sid < |ss| ==>
      CdrCount(cdrs, sid) + Occurrences(lost, sid) + InFlight(tasks, ss[sid].cp, sid) == ss[sid].wins
  }

  ghost predicate Settled(ss: seq<Session>, sid: nat, energy: real) {
    sid < |ss| && ss[sid].wins == 1 && ss[sid].energy == energy
  }

  /** A CDR bills the energy of a won row up to its stop time; 1.6 prices it, 2.0.1 does not. */
  ghost predicate CdrOk(ss: seq<Session>, c: Cdr) {
    && Settled(ss, c.sid, c.energy)
    && StopTimeOf(ss[c.sid], c.stopTime)
    && c.cost == (if ss[c.sid].tid.Some? then Some(Calculate(c.energy)) else None)
  }

  ghost predicate CdrsOk(ss: seq<Session>, cdrs: seq<Cdr>) {
    forall i :: 0 <= i < |cdrs| ==> CdrOk(ss, cdrs[i])
  }

  ghost predicate LostOk(ss: seq<Session>, lost: seq<nat>) {
    forall i :: 0 <= i < |lost| ==> lost[i] < |ss|
  }

  ghost predicate EventOk(ss: seq<Session>, e: Event) {
    match e
    case SessionStart(sid) => sid < |ss|
    case SessionMeter(_, _) => true
    case SessionCdr(sid, energy) => Settled(ss, sid, energy)
    case SessionStop(sid, energy) => Settled(ss, sid, energy)
  }

  ghost predicate EventsOk(ss: seq<Session>, events: seq<Event>) {
    forall i :: 0 <= i < |events| ==> EventOk(ss, events[i])
  }

  // ---------------------------------------------------------------- the invariant

  ghost predicate SessionsInv(ss: seq<Session>) {
    RowsOk(ss) && IdsIncrease(ss)
  }

  ghost predicate ControlInv(st: State) {
    TasksOk(st.sessions, st.tasks) && CachesOk(st.sessions, st.caches) && EndedAreOut(st.caches, st.tasks)
  }

  ghost predicate PublicInv(st: State) {
    LinksOk(st.sessions, st.publics) && LinkingIsNew(st.publics, st.tasks)
  }

  ghost predicate BillingInv(st: State) {
    && BillsBalance(st.sessions, st.cdrs, st.lost, st.tasks)
    && CdrsOk(st.sessions, st.cdrs) && LostOk(st.sessions, st.lost) && EventsOk(st.sessions, st.events)
  }

  ghost predicate Inv(st: State) {
    SessionsInv(st.sessions) && ControlInv(st) && PublicInv(st) && BillingInv(st)
  }

  // ---------------------------------------------------------------- what survives a change of the rows

  /** A step of charger cp that leaves it with task t. */
  lemma TasksAfter(ss: seq<Session>, ss': seq<Session>, tasks: map<string, Task>, cp: string, t: Task)
    requires TasksOk(ss, tasks) && Evolves(Some(cp), ss, ss') && TaskOk(ss', cp, t)
    ensures TasksOk(ss', tasks[cp := t])
  {
  }

  /** A step of nobody's charger. */
  lemma TasksUnmoved(ss: seq<Session>, ss': seq<Session>, tasks: map<string, Task>)
    requires TasksOk(ss, tasks) && Evolves(None, ss, ss')
    ensures TasksOk(ss', tasks)
  {
  }

  /** Nobody in a map was won. */
  lemma CachesStable(who: Option<string>, ss: seq<Session>, ss': seq<Session>, caches: map<string, map<string, nat>>)
    requires Evolves(who, ss, ss') && CachesOk(ss, caches)
    requires who.Some? && who.value in caches ==>
               forall txn :: txn in caches[who.value] && caches[who.value][txn] < |ss| ==>
                 ss'[caches[who.value][txn]].wins == ss[caches[who.value][txn]].wins
    ensures CachesOk(ss', caches)
  {
  }

  lemma LinksStable(who: Option<string>, ss: seq<Session>, ss': seq<Session>, ps: seq<Public>)
    requires Evolves(who, ss, ss') && LinksOk(ss, ps)
    ensures LinksOk(ss', ps)
  {
  }

  lemma BillsStable(who: Option<string>, ss: seq<Session>, ss': seq<Session>, cdrs: seq<Cdr>, lost: seq<nat>,
                    events: seq<Event>)
    requires Evolves(who, ss, ss') && CdrsOk(ss, cdrs) && LostOk(ss, lost) && EventsOk(ss, events)
    ensures CdrsOk(ss', cdrs) && LostOk(ss', lost) && EventsOk(ss', events)
  {
  }

  lemma {:induction false} NoCdrs(ss: seq<Session>, cdrs: seq<Cdr>, sid: nat)
    requires CdrsOk(ss, cdrs) && sid >= |ss|
    ensures CdrCount(cdrs, sid) == 0
  {
    if cdrs != [] {
      NoCdrs(ss, cdrs[..|cdrs| - 1], sid);
      assert CdrOk(ss, cdrs[|cdrs| - 1]);
    }
  }

  lemma {:induction false} NoneLost(ss: seq<Session>, lost: seq<nat>, sid: nat)
    requires LostOk(ss, lost) && sid >= |ss|
    ensures Occurrences(lost, sid) == 0
  {
    if lost != [] {
      NoneLost(ss, lost[..|lost| - 1], sid);
    }
  }
}
