/**
 Remote starts of paid public sessions: the payment webhook, and the queue that is worked off when a charger
 comes back.  One charger; one pass over its queue at a time.
 */
module PendingStarts {
  import opened Common

  /** One queued command; Broken is a value that is not JSON. */
  datatype Entry = Broken | Pending(retries: int)

  datatype Row = Row(payment: string, started: bool)

  /** What happened, oldest first: history, not stored anywhere. */
  datatype Event =
    | Direct(sid: string, ok: bool)
    | Queued(sid: string)
    | Tried(sid: string, ok: bool)
    | GaveUp(sid: string)
    | Expired(sid: string)

  /** A webhook between its SELECT and its UPDATE. */
  datatype Call = Call(sid: string, status: string, previous: string)

  datatype State = State(rows: map<string, Row>, queue: map<string, Entry>, calls: map<nat, Call>, log: Log<Event>)

  const MAX_RETRIES := 3

  predicate Paid(status: string) {
    status == "paid" || status == "authorized"
  }

  // ---------------------------------------------------------------- steps

  /** Guarded by started_at IS NULL. */
  function FailStart(rows: map<string, Row>, sid: string): map<string, Row> {
    if sid != "" && sid in rows && !rows[sid].started
    then rows[sid := rows[sid].(payment := "remote_start_failed")]
    else rows
  }

  /** One key of a pass; ok is whether the charger takes the command. */
  function Handle(st: State, sid: string, ok: bool): State {
    if sid !in st.queue then st
    else match st.queue[sid]
      case Broken => st.(queue := st.queue - {sid})
      case Pending(retries) =>
        if retries >= MAX_RETRIES then
          st.(queue := st.queue - {sid}, log := Then(st.log, GaveUp(sid)), rows := FailStart(st.rows, sid))
        else if ok then st.(queue := st.queue - {sid}, log := Then(st.log, Tried(sid, true)))
        else st.(queue := st.queue[sid := Pending(retries + 1)], log := Then(st.log, Tried(sid, false)))
  }

  function Trigger(st: State, sid: string, ok: bool): State {
    if ok then st.(log := Then(st.log, Direct(sid, true)))
    else st.(queue := st.queue[sid := Pending(0)], log := Then(Then(st.log, Direct(sid, false)), Queued(sid)))
  }

  /** The webhook reads the payment status; without session, status or row it does nothing. */
  function WebhookRead(st: State, call: nat, sid: string, status: string): State {
    if sid == "" || status == "" || sid !in st.rows || call in st.calls then st
    else st.(calls := st.calls[call := Call(sid, status, st.rows[sid].payment)])
  }

  /** It writes the new status, and starts the charger when the status it has read was not a paid one. */
  function WebhookWrite(st: State, call: nat, ok: bool): State {
    if call !in st.calls || st.calls[call].sid !in st.rows then st
    else
      var c := st.calls[call];
      var st1 := st.(rows := st.rows[c.sid := st.rows[c.sid].(payment := c.status)], calls := st.calls - {call});
      if Paid(c.status) && !Paid(c.previous) then Trigger(st1, c.sid, ok) else st1
  }

  function Create(st: State, sid: string): State {
    if sid in st.rows then st else st.(rows := st.rows[sid := Row("pending", false)])
  }

  /** The charger started the session, or it was linked. */
  function Start(st: State, sid: string): State {
    if sid in st.rows then st.(rows := st.rows[sid := st.rows[sid].(started := true)]) else st
  }

  /** cancel_session, guarded by started_at IS NULL. */
  function Cancel(st: State, sid: string): State {
    if sid in st.rows && !st.rows[sid].started then st.(rows := st.rows[sid := st.rows[sid].(payment := "cancelled")])
    else st
  }

  /** The entry's 120 seconds are over. */
  function Expire(st: State, sid: string): State {
    if sid in st.queue then st.(queue := st.queue - {sid}, log := Then(st.log, Expired(sid))) else st
  }

  datatype Step =
    | HandleStep(sid: string, ok: bool)
    | WebhookReadStep(call: nat, sid: string, status: string)
    | WebhookWriteStep(call: nat, ok: bool)
    | CreateStep(sid: string)
    | StartStep(sid: string)
    | CancelStep(sid: string)
    | ExpireStep(sid: string)

  function Next(st: State, step: Step): State {
    match step
    case HandleStep(sid, ok) => Handle(st, sid, ok)
    case WebhookReadStep(call, sid, status) => WebhookRead(st, call, sid, status)
    case WebhookWriteStep(call, ok) => WebhookWrite(st, call, ok)
    case CreateStep(sid) => Create(st, sid)
    case StartStep(sid) => Start(st, sid)
    case CancelStep(sid) => Cancel(st, sid)
    case ExpireStep(sid) => Expire(st, sid)
  }

  /** The other writers of a row: creation, start and cancel; and what removes an entry without a try. */
  lemma OtherWrites(st: State, sid: string, ok: bool)
    ensures Create(st, sid)
         == if sid in st.rows then st else st.(rows := st.rows[sid := Row("pending", false)])
    ensures sid in st.rows ==>
              var r := st.rows[sid];
              && Start(st, sid) == st.(rows := st.rows[sid := Row(r.payment, true)])
              && Cancel(st, sid) == (if r.started then st else st.(rows := st.rows[sid := Row("cancelled", false)]))
    ensures sid in st.queue ==>
              && Expire(st, sid) == st.(queue := st.queue - {sid}, log := Then(st.log, Expired(sid)))
              && (st.queue[sid] == Broken ==> Handle(st, sid, ok) == st.(queue := st.queue - {sid}))
    ensures sid !in st.queue ==> Handle(st, sid, ok) == st && Expire(st, sid) == st
  {
  }

  function Exec(st: State, steps: seq<Step>): State {
    if steps == [] then st else Next(Exec(st, steps[..|steps| - 1]), steps[|steps| - 1])
  }

  const EMPTY := State(map[], map[], map[], Empty)

  lemma ExecOneMore(st: State, steps: seq<Step>, step: Step)
    ensures Exec(st, steps + [step]) == Next(Exec(st, steps), step)
  {
  }

  // ---------------------------------------------------------------- the life of one entry

  /** What happened to the session's latest entry since it was queued. */
  function Since(log: Log<Event>, sid: string): seq<Event> {
    if log.Empty? then []
    else
      var init, e := log.before, log.last;
      if e.sid != sid || e.Direct? then Since(init, sid)
      else if e.Queued? then []
      else Since(init, sid) + [e]
  }

  function Failures(sid: string, n: int): (life: seq<Event>)
    ensures |life| == if n < 0 then 0 else n
  {
    if n <= 0 then [] else Failures(sid, n - 1) + [Tried(sid, false)]
  }

  /** Some failed attempts, and then the end: sent within three, given up after three, or expired. */
  ghost predicate Over(life: seq<Event>, sid: string) {
    && life != []
    && var n := |life| - 1;
       && life[..n] == Failures(sid, n)
       && life[n].sid == sid
       && match life[n]
          case Tried(_, ok) => ok && n < MAX_RETRIES
          case GaveUp(_) => n == MAX_RETRIES
          case Expired(_) => n <= MAX_RETRIES
          case _ => false
  }

  predicate EverQueued(log: Log<Event>, sid: string) {
    Has(log, Queued(sid))
  }

  ghost predicate EntryOk(st: State, sid: string) {
    if sid in st.queue then
      && EverQueued(st.log, sid)
      && st.queue[sid].Pending? && 0 <= st.queue[sid].retries <= MAX_RETRIES
      && Since(st.log, sid) == Failures(sid, st.queue[sid].retries)
    else EverQueued(st.log, sid) ==> Over(Since(st.log, sid), sid)
  }

  lemma SinceOneMore(log: Log<Event>, e: Event, sid: string)
    ensures Since(Then(log, e), sid)
         == (if e.sid != sid || e.Direct? then Since(log, sid) else if e.Queued? then [] else Since(log, sid) + [e])
    ensures EverQueued(Then(log, e), sid) <==> EverQueued(log, sid) || e == Queued(sid)
  {
  }

  lemma FailsOnceMore(sid: string, n: nat)
    ensures Failures(sid, n) + [Tried(sid, false)] == Failures(sid, n + 1)
  {
  }

  /** The end of an entry after n failures. */
  lemma EndIsOver(sid: string, n: nat, e: Event)
    requires e.sid == sid
    requires || (e == Tried(sid, true) && n < MAX_RETRIES) || (e == GaveUp(sid) && n == MAX_RETRIES)
             || (e == Expired(sid) && n <= MAX_RETRIES)
    ensures Over(Failures(sid, n) + [e], sid)
  {
    assert (Failures(sid, n) + [e])[..n] == Failures(sid, n);
  }

  lemma HandleKeeps(st: State, key: string, ok: bool, sid: string)
    requires EntryOk(st, sid)
    ensures EntryOk(Handle(st, key, ok), sid)
  {
    if key in st.queue && st.queue[key].Pending? {
      var retries := st.queue[key].retries;
      var e := if retries >= MAX_RETRIES then GaveUp(key) else Tried(key, ok);
      SinceOneMore(st.log, e, sid);
      if key == sid {
        if e == Tried(sid, false) {
          FailsOnceMore(sid, retries);
        } else {
          EndIsOver(sid, retries, e);
        }
      }
    }
  }

  lemma TriggerKeeps(st: State, key: string, ok: bool, sid: string)
    requires EntryOk(st, sid)
    ensures EntryOk(Trigger(st, key, ok), sid)
  {
    SinceOneMore(st.log, Direct(key, ok), sid);
    SinceOneMore(Then(st.log, Direct(key, ok)), Queued(key), sid);
    assert Failures(sid, 0) == [];
  }

  lemma WriteKeeps(st: State, call: nat, ok: bool, sid: string)
    requires EntryOk(st, sid)
    ensures EntryOk(WebhookWrite(st, call, ok), sid)
  {
    if call in st.calls && st.calls[call].sid in st.rows {
      var c := st.calls[call];
      var rows := st.rows[c.sid := st.rows[c.sid].(payment := c.status)];
      TriggerKeeps(st.(rows := rows, calls := st.calls - {call}), c.sid, ok, sid);
    }
  }

  lemma ExpireKeeps(st: State, key: string, sid: string)
    requires EntryOk(st, sid)
    ensures EntryOk(Expire(st, key), sid)
  {
    if key in st.queue {
      SinceOneMore(st.log, Expired(key), sid);
      if key == sid {
        EndIsOver(sid, st.queue[sid].retries, Expired(sid));
      }
    }
  }

  lemma {:induction false} EntryOkOverRun(steps: seq<Step>, sid: string)
    ensures EntryOk(Exec(EMPTY, steps), sid)
  {
    if steps != [] {
      var mid := Exec(EMPTY, steps[..|steps| - 1]);
      EntryOkOverRun(steps[..|steps| - 1], sid);
      match steps[|steps| - 1]
      case HandleStep(key, ok) => HandleKeeps(mid, key, ok, sid);
      case WebhookWriteStep(call, ok) => WriteKeeps(mid, call, ok, sid);
      case ExpireStep(key) => ExpireKeeps(mid, key, sid);
      case _ =>
    }
  }

  /** The attempts among some events, and the successful ones. */
  function Attempts(life: seq<Event>): nat {
    if life == [] then 0
    else Attempts(life[..|life| - 1]) + (if life[|life| - 1].Tried? then 1 else 0)
  }

  function Successes(life: seq<Event>): nat {
    if life == [] then 0
    else
      var e := life[|life| - 1];
      Successes(life[..|life| - 1]) + (if e.Tried? && e.ok then 1 else 0)
  }

  lemma {:induction false} FailuresCount(sid: string, n: nat)
    ensures Attempts(Failures(sid, n)) == n && Successes(Failures(sid, n)) == 0
  {
    if n > 0 {
      assert (Failures(sid, n - 1) + [Tried(sid, false)])[..n - 1] == Failures(sid, n - 1);
      FailuresCount(sid, n - 1);
    }
  }

  /** It ends with the one successful attempt, with giving up after three failed ones, or expired. */
  ghost predicate Ended(life: seq<Event>, sid: string) {
    && life != []
    && var last := life[|life| - 1];
       && last in {Tried(sid, true), GaveUp(sid), Expired(sid)}
       && (Successes(life) == 1 <==> last == Tried(sid, true))
       && (last == GaveUp(sid) ==> Attempts(life) == 3)
  }

  /**
   Over every run: an entry is sent to the charger at most three times and at most once successfully; when it
   is gone it was sent, given up after three failures, or expired; while it is there it has only failed.
   */
  lemma AtMostThreeAttemptsOneSuccess(steps: seq<Step>, sid: string)
    requires EverQueued(Exec(EMPTY, steps).log, sid)
    ensures var st := Exec(EMPTY, steps);
            var life := Since(st.log, sid);
            && Attempts(life) <= 3 && Successes(life) <= 1
            && (sid in st.queue ==> Successes(life) == 0 && |life| == Attempts(life))
            && (sid !in st.queue ==> Ended(life, sid))
  {
    EntryOkOverRun(steps, sid);
    var st := Exec(EMPTY, steps);
    if sid in st.queue {
      FailuresCount(sid, st.queue[sid].retries);
    } else {
      OverEnds(Since(st.log, sid), sid);
    }
  }

  lemma OverEnds(life: seq<Event>, sid: string)
    requires Over(life, sid)
    ensures Ended(life, sid) && Attempts(life) <= 3 && Successes(life) <= 1
  {
    FailuresCount(sid, |life| - 1);
  }

  // ---------------------------------------------------------------- it does not stay

  function Passes(steps: seq<Step>, sid: string): nat {
    if steps == [] then 0
    else
      var step := steps[|steps| - 1];
      Passes(steps[..|steps| - 1], sid) + (if step.HandleStep? && step.sid == sid then 1 else 0)
  }

  function Retries(st: State, sid: string): int {
    if sid in st.queue && st.queue[sid].Pending? then st.queue[sid].retries else 0
  }

  ghost predicate NoNewPayment(steps: seq<Step>) {
    forall i :: 0 <= i < |steps| ==> !steps[i].WebhookWriteStep?
  }

  lemma RetriesOverStep(st: State, step: Step, sid: string)
    requires EntryOk(st, sid) && !step.WebhookWriteStep?
    ensures EntryOk(Next(st, step), sid)
    ensures sid in Next(st, step).queue ==>
              var more := if step.HandleStep? && step.sid == sid then 1 else 0;
              sid in st.queue && Retries(Next(st, step), sid) == Retries(st, sid) + more
  {
    match step
    case HandleStep(key, ok) => HandleKeeps(st, key, ok, sid);
    case ExpireStep(key) => ExpireKeeps(st, key, sid);
    case _ => QueueUnmoved(st, step);
  }

  lemma QueueUnmoved(st: State, step: Step)
    requires !step.HandleStep? && !step.ExpireStep? && !step.WebhookWriteStep?
    ensures Next(st, step).queue == st.queue && Next(st, step).log == st.log
  {
  }

  lemma {:induction false} RetriesCountPasses(st: State, steps: seq<Step>, sid: string)
    requires EntryOk(st, sid) && NoNewPayment(steps)
    ensures EntryOk(Exec(st, steps), sid)
    ensures sid in Exec(st, steps).queue ==>
              sid in st.queue && Retries(Exec(st, steps), sid) == Retries(st, sid) + Passes(steps, sid)
  {
    if steps != [] {
      RetriesCountPasses(st, steps[..|steps| - 1], sid);
      RetriesOverStep(Exec(st, steps[..|steps| - 1]), steps[|steps| - 1], sid);
    }
  }

  /**
   Four passes work an entry off, whatever the charger answers and whatever else happens in between: with r
   failures behind it, 4 - r passes do, unless a new payment queues it again.
   */
  lemma GoneAfterFourPasses(steps: seq<Step>, more: seq<Step>, sid: string)
    requires NoNewPayment(more) && Passes(more, sid) >= 4 - Retries(Exec(EMPTY, steps), sid)
    ensures sid !in Exec(Exec(EMPTY, steps), more).queue
  {
    EntryOkOverRun(steps, sid);
    RetriesCountPasses(Exec(EMPTY, steps), more, sid);
  }

  // ---------------------------------------------------------------- payments

  /** Giving up is the only thing the queue does to a row, and only to a session that has not started. */
  lemma QueueFailsOnlyUnstarted(st: State, key: string, ok: bool, sid: string)
    requires sid in st.rows
    ensures var st' := Handle(st, key, ok);
            && sid in st'.rows && st'.rows[sid].started == st.rows[sid].started
            && (st'.rows[sid].payment != st.rows[sid].payment ==>
                  key == sid && !st.rows[sid].started && st'.log == Then(st.log, GaveUp(sid))
                  && st'.rows[sid].payment == "remote_start_failed")
  {
  }

  /** On giving up, nothing but the row is written: it says remote_start_failed, unless the session has started. */
  lemma GivingUpMarksUnstarted(st: State, sid: string, ok: bool)
    requires sid in st.queue && st.queue[sid].Pending? && st.queue[sid].retries >= MAX_RETRIES
    requires sid != "" && sid in st.rows
    ensures var r, st' := st.rows[sid], Handle(st, sid, ok);
            && sid !in st'.queue && st'.log == Then(st.log, GaveUp(sid)) && st'.calls == st.calls
            && st'.rows == st.rows[sid := if r.started then r else Row("remote_start_failed", false)]
  {
  }

  function DirectSends(log: Log<Event>, sid: string): nat {
    if log.Empty? then 0
    else
      var e := log.last;
      DirectSends(log.before, sid) + (if e.Direct? && e.sid == sid then 1 else 0)
  }

  predicate IsPaid(st: State, sid: string) {
    sid in st.rows && Paid(st.rows[sid].payment)
  }

  /** How often the session became paid. */
  function Payments(st: State, steps: seq<Step>, sid: string): nat {
    if steps == [] then 0
    else
      var init := steps[..|steps| - 1];
      Payments(st, init, sid) + (if Pays(Exec(st, init), Exec(st, steps), sid) then 1 else 0)
  }

  lemma SendsOneMore(log: Log<Event>, e: Event, sid: string)
    ensures DirectSends(Then(log, e), sid) == DirectSends(log, sid) + (if e.Direct? && e.sid == sid then 1 else 0)
  {
  }

  /** Becoming paid in this step. */
  predicate Pays(st: State, st': State, sid: string) {
    !IsPaid(st, sid) && IsPaid(st', sid)
  }

  lemma TriggerSends(st: State, key: string, ok: bool, sid: string)
    ensures DirectSends(Trigger(st, key, ok).log, sid) == DirectSends(st.log, sid) + (if key == sid then 1 else 0)
  {
    SendsOneMore(st.log, Direct(key, ok), sid);
    SendsOneMore(Then(st.log, Direct(key, ok)), Queued(key), sid);
  }

  /** The webhook's decision is right exactly when the paid-ness it has read is still that of the row. */
  lemma WriteSendsIff(st: State, call: nat, ok: bool)
    requires call in st.calls && st.calls[call].sid in st.rows
    ensures var c := st.calls[call];
            var st' := WebhookWrite(st, call, ok);
            (DirectSends(st'.log, c.sid) == DirectSends(st.log, c.sid) + (if Pays(st, st', c.sid) then 1 else 0))
            <==> (Paid(c.status) ==> (Paid(c.previous) <==> IsPaid(st, c.sid)))
  {
    var c := st.calls[call];
    var st1 := st.(rows := st.rows[c.sid := st.rows[c.sid].(payment := c.status)], calls := st.calls - {call});
    TriggerSends(st1, c.sid, ok, c.sid);
  }

  lemma OtherStepsDoNotSend(st: State, step: Step, sid: string)
    requires step.WebhookWriteStep? && step.call in st.calls ==> st.calls[step.call].sid != sid
    ensures var st' := Next(st, step);
            DirectSends(st'.log, sid) == DirectSends(st.log, sid) && !Pays(st, st', sid)
  {
    match step
    case HandleStep(key, ok) =>
      SendsOneMore(st.log, GaveUp(key), sid);
      SendsOneMore(st.log, Tried(key, true), sid);
      SendsOneMore(st.log, Tried(key, false), sid);
    case WebhookWriteStep(call, ok) =>
      if call in st.calls && st.calls[call].sid in st.rows {
        var c := st.calls[call];
        var rows := st.rows[c.sid := st.rows[c.sid].(payment := c.status)];
        TriggerSends(st.(rows := rows, calls := st.calls - {call}), c.sid, ok, sid);
      }
    case ExpireStep(key) => SendsOneMore(st.log, Expired(key), sid);
    case _ =>
  }

  /** Nobody wrote the session's payment status between the webhook's read and its write. */
  ghost predicate ReadIsCurrent(st: State, step: Step, sid: string) {
    step.WebhookWriteStep? && step.call in st.calls && st.calls[step.call].sid == sid && sid in st.rows ==>
      st.calls[step.call].previous == st.rows[sid].payment
  }

  ghost predicate WebhooksDoNotOverlap(st: State, steps: seq<Step>, sid: string) {
    steps == [] ||
    var init, last := steps[..|steps| - 1], steps[|steps| - 1];
    WebhooksDoNotOverlap(st, init, sid) && ReadIsCurrent(Exec(st, init), last, sid)
  }

  /** When a session's webhooks do not overlap, they send a remote start once per time it becomes paid. */
  lemma {:induction false} OneDirectSendPerPayment(steps: seq<Step>, sid: string)
    requires WebhooksDoNotOverlap(EMPTY, steps, sid)
    ensures DirectSends(Exec(EMPTY, steps).log, sid) == Payments(EMPTY, steps, sid)
  {
    if steps != [] {
      var mid, step := Exec(EMPTY, steps[..|steps| - 1]), steps[|steps| - 1];
      OneDirectSendPerPayment(steps[..|steps| - 1], sid);
      if step.WebhookWriteStep? && step.call in mid.calls && mid.calls[step.call].sid == sid && sid in mid.rows {
        WriteSendsIff(mid, step.call, step.ok);
      } else if step.WebhookWriteStep? && step.call in mid.calls && mid.calls[step.call].sid == sid {
        assert Next(mid, step) == mid;
      } else {
        OtherStepsDoNotSend(mid, step, sid);
      }
    }
  }

  /** Two webhooks that both read before either writes: one payment, two remote starts. */
  lemma OverlappingWebhooksSendTwice(sid: string, ok: bool, ok2: bool)
    requires sid != ""
    ensures var st := State(map[sid := Row("pending", false)], map[], map[], Empty);
            var read := WebhookRead(WebhookRead(st, 0, sid, "paid"), 1, sid, "paid");
            var once := WebhookWrite(read, 0, ok);
            var twice := WebhookWrite(once, 1, ok2);
            Pays(read, once, sid) && !Pays(once, twice, sid) && DirectSends(twice.log, sid) == 2
  {
    var st := State(map[sid := Row("pending", false)], map[], map[], Empty);
    var read := WebhookRead(WebhookRead(st, 0, sid, "paid"), 1, sid, "paid");
    var once := WebhookWrite(read, 0, ok);
    WriteSendsIff(read, 0, ok);
    WriteSendsIff(once, 1, ok2);
    var rows := once.rows[sid := once.rows[sid].(payment := "paid")];
    TriggerSends(once.(rows := rows, calls := once.calls - {1}), sid, ok2, sid);
  }

  /** Commands the charger has taken for a session, from the webhook and from the queue. */
  function Starts(log: Log<Event>, sid: string): nat {
    if log.Empty? then 0
    else
      var e := log.last;
      Starts(log.before, sid) + (if (e.Direct? || e.Tried?) && e.ok && e.sid == sid then 1 else 0)
  }

  lemma StartsOneMore(log: Log<Event>, e: Event, sid: string)
    ensures Starts(Then(log, e), sid)
         == Starts(log, sid) + (if (e.Direct? || e.Tried?) && e.ok && e.sid == sid then 1 else 0)
  {
  }

  /** An attempt of the webhook that failed is behind every queued entry, and every start uses one attempt up. */
  predicate StartsCovered(st: State, sid: string) {
    Starts(st.log, sid) + (if sid in st.queue then 1 else 0) <= DirectSends(st.log, sid)
  }

  lemma CoveredOverHandle(st: State, key: string, ok: bool, sid: string)
    requires StartsCovered(st, sid)
    ensures StartsCovered(Handle(st, key, ok), sid)
  {
    if key in st.queue && st.queue[key].Pending? {
      var e := if st.queue[key].retries >= MAX_RETRIES then GaveUp(key) else Tried(key, ok);
      StartsOneMore(st.log, e, sid);
      SendsOneMore(st.log, e, sid);
    }
  }

  lemma CoveredOverTrigger(st: State, key: string, ok: bool, sid: string)
    requires StartsCovered(st, sid)
    ensures StartsCovered(Trigger(st, key, ok), sid)
  {
    StartsOneMore(st.log, Direct(key, ok), sid);
    SendsOneMore(st.log, Direct(key, ok), sid);
    if !ok {
      StartsOneMore(Then(st.log, Direct(key, ok)), Queued(key), sid);
      SendsOneMore(Then(st.log, Direct(key, ok)), Queued(key), sid);
      }
  }

  lemma CoveredOverWrite(st: State, call: nat, ok: bool, sid: string)
    requires StartsCovered(st, sid)
    ensures StartsCovered(WebhookWrite(st, call, ok), sid)
  {
    if call in st.calls && st.calls[call].sid in st.rows {
      var c := st.calls[call];
      var st1 := st.(rows := st.rows[c.sid := st.rows[c.sid].(payment := c.status)], calls := st.calls - {call});
      CoveredOverTrigger(st1, c.sid, ok, sid);
    }
  }

  lemma CoveredOverExpire(st: State, key: string, sid: string)
    requires StartsCovered(st, sid)
    ensures StartsCovered(Expire(st, key), sid)
  {
    StartsOneMore(st.log, Expired(key), sid);
    SendsOneMore(st.log, Expired(key), sid);
  }

  lemma {:induction false} CoveredOverRun(steps: seq<Step>, sid: string)
    ensures StartsCovered(Exec(EMPTY, steps), sid)
  {
    if steps != [] {
      var mid := Exec(EMPTY, steps[..|steps| - 1]);
      CoveredOverRun(steps[..|steps| - 1], sid);
      match steps[|steps| - 1]
      case HandleStep(key, ok) => CoveredOverHandle(mid, key, ok, sid);
      case WebhookWriteStep(call, ok) => CoveredOverWrite(mid, call, ok, sid);
      case ExpireStep(key) => CoveredOverExpire(mid, key, sid);
      case _ =>
    }
  }

  /**
   When a session's webhooks do not overlap, the charger takes at most one command, from the webhook or from the
   queue, for every time the session became paid; and while one is queued, one fewer.
   */
  lemma AtMostOneStartPerPayment(steps: seq<Step>, sid: string)
    requires WebhooksDoNotOverlap(EMPTY, steps, sid)
    ensures var st := Exec(EMPTY, steps);
            Starts(st.log, sid) + (if sid in st.queue then 1 else 0) <= Payments(EMPTY, steps, sid)
  {
    CoveredOverRun(steps, sid);
    OneDirectSendPerPayment(steps, sid);
  }

  // ---------------------------------------------------------------- the code

  class Starter {
    var rows: map<string, Row>
    var queue: map<string, Entry>
    ghost var log: Log<Event>

    constructor ()
      ensures Now() == EMPTY
    {
      rows, queue, log := map[], map[], Empty;
    }

    ghost function Now(): State
      reads this
    {
      State(rows, queue, map[], log)
    }

    method FailPendingStart(sid: string)
      modifies this`rows
      ensures rows == FailStart(old(rows), sid)
    {
      if sid == "" {
        return;
      }
      if sid in rows && !rows[sid].started {
        rows := rows[sid := rows[sid].(payment := "remote_start_failed")];
      }
    }

    /**
     One pass over the given keys.  `online` says whether the charger takes a command at that moment, `raises`
     whether sending it raises, which ends the pass before the entry is touched.
     */
    method ProcessPendingStarts(keys: seq<string>, online: nat -> bool, raises: nat -> bool)
      returns (finished: bool, ghost steps: seq<Step>)
      modifies this
      ensures Now() == Exec(old(Now()), steps)
      ensures |steps| <= |keys| && forall i :: 0 <= i < |steps| ==> steps[i] == HandleStep(keys[i], online(i))
      ensures finished ==> |steps| == |keys|
      ensures !finished ==> |steps| < |keys| && raises(|steps|)
    {
      steps := [];
      finished := true;
      for i := 0 to |keys|
        invariant Now() == Exec(old(Now()), steps)
        invariant |steps| == i && forall j :: 0 <= j < i ==> steps[j] == HandleStep(keys[j], online(j))
      {
        var key := keys[i];
        if key in queue && queue[key].Pending? && queue[key].retries < MAX_RETRIES && raises(i) {
          return false, steps;
        }
        ExecOneMore(old(Now()), steps, HandleStep(key, online(i)));
        steps := steps + [HandleStep(key, online(i))];
        if key !in queue {
          continue;
        }
        if queue[key].Broken? {
          queue := queue - {key};
          continue;
        }
        var retries := queue[key].retries;
        if retries >= MAX_RETRIES {
          queue := queue - {key};
          log := Then(log, GaveUp(key));
          FailPendingStart(key);
          continue;
        }
        if online(i) {
          queue := queue - {key};
          log := Then(log, Tried(key, true));
        } else {
          queue := queue[key := Pending(retries + 1)];
          log := Then(log, Tried(key, false));
        }
      }
    }

    method TriggerRemoteStart(sid: string, online: bool)
      modifies this
      ensures Now() == Trigger(old(Now()), sid, online)
    {
      log := Then(log, Direct(sid, online));
      if !online {
        queue := queue[sid := Pending(0)];
        log := Then(log, Queued(sid));
      }
    }

    method PaymentWebhook(sid: string, status: string, online: bool)
      modifies this
      ensures Now() == WebhookWrite(WebhookRead(old(Now()), 0, sid, status), 0, online)
      ensures sid == "" || status == "" || sid !in old(rows) ==>
                rows == old(rows) && queue == old(queue) && log == old(log)
      ensures sid != "" && status != "" && sid in old(rows) ==>
                && rows == old(rows)[sid := old(rows)[sid].(payment := status)]
                && var was := old(rows)[sid].payment;
                   var newly := (status == "paid" || status == "authorized") && was != "paid" && was != "authorized";
                   && (newly && online ==> queue == old(queue) && log == Then(old(log), Direct(sid, true)))
                   && (newly && !online ==>
                         && queue == old(queue)[sid := Pending(0)]
                         && log == Then(Then(old(log), Direct(sid, false)), Queued(sid)))
                   && (!newly ==> queue == old(queue) && log == old(log))
    {
      if sid == "" || status == "" || sid !in rows {
        return;
      }
      var previous := rows[sid].payment;
      rows := rows[sid := rows[sid].(payment := status)];
      if Paid(status) && !Paid(previous) {
        TriggerRemoteStart(sid, online);
      }
    }
  }
}
