/**
 Creating and cancelling public sessions.  Creation first looks for a session to reuse, so that a charger that
 reboots does not collect duplicates; the look-up and the INSERT are two statements.
 */
module PublicSessions {
  import opened Common

  /** `neverLeft` is history: the row has been waiting ever since it was inserted. */
  datatype Row = Row(
    cp: string, connector: int, createdAt: int, payment: string, linked: bool, startedAt: Option<int>,
    stoppedAt: Option<int>, neverLeft: bool)

  /** A creation that found nothing to reuse. */
  datatype Call = Call(cp: string, connector: int, readAt: int, rows: nat)

  datatype State = State(now: int, rows: seq<Row>, calls: map<nat, Call>)

  const WINDOW := 120
  const START := State(0, [], map[])

  predicate Waiting(r: Row) {
    r.payment in {"paid", "authorized", "pending"} && !r.linked && r.stoppedAt.None?
  }

  predicate Reusable(r: Row, cp: string, connector: int, now: int) {
    r.cp == cp && r.connector == connector && r.createdAt > now - WINDOW && Waiting(r)
  }

  /** Under two minutes old, of this connector, paid or to be paid, and neither linked nor stopped. */
  predicate MayReuse(r: Row, cp: string, connector: int, now: int) {
    && r.cp == cp && r.connector == connector && now - r.createdAt < 120
    && (r.payment == "paid" || r.payment == "authorized" || r.payment == "pending")
    && !r.linked && r.stoppedAt == None
  }

  ghost predicate NothingToReuse(rows: seq<Row>, cp: string, connector: int, now: int) {
    forall i :: 0 <= i < |rows| ==> !Reusable(rows[i], cp, connector, now)
  }

  function New(cp: string, connector: int, now: int): Row {
    Row(cp, connector, now, "pending", false, None, None, true)
  }

  // ---------------------------------------------------------------- steps

  function Tick(st: State, dt: nat): State {
    st.(now := st.now + dt)
  }

  /** The look-up of create_session; a session to reuse ends the request. */
  ghost function Look(st: State, call: nat, cp: string, connector: int): State {
    if call in st.calls || !NothingToReuse(st.rows, cp, connector, st.now) then st
    else st.(calls := st.calls[call := Call(cp, connector, st.now, |st.rows|)])
  }

  function Insert(st: State, call: nat): State {
    if call !in st.calls then st
    else st.(rows := st.rows + [New(st.calls[call].cp, st.calls[call].connector, st.now)], calls := st.calls - {call})
  }

  /** Payment webhook, cancel, link, stop and failed start: anything but the row's identity may change. */
  function Update(st: State, i: nat, payment: string, linked: bool, startedAt: Option<int>,
                  stoppedAt: Option<int>): State {
    if i >= |st.rows| then st
    else
      var r := st.rows[i].(payment := payment, linked := linked, startedAt := startedAt, stoppedAt := stoppedAt);
      st.(rows := st.rows[i := r.(neverLeft := r.neverLeft && Waiting(r))])
  }

  datatype Step =
    | TickStep(dt: nat)
    | LookStep(call: nat, cp: string, connector: int)
    | InsertStep(call: nat)
    | UpdateStep(i: nat, payment: string, linked: bool, startedAt: Option<int>, stoppedAt: Option<int>)

  ghost function Next(st: State, step: Step): State {
    match step
    case TickStep(dt) => Tick(st, dt)
    case LookStep(call, cp, connector) => Look(st, call, cp, connector)
    case InsertStep(call) => Insert(st, call)
    case UpdateStep(i, payment, linked, startedAt, stoppedAt) => Update(st, i, payment, linked, startedAt, stoppedAt)
  }

  ghost function Exec(st: State, steps: seq<Step>): State {
    if steps == [] then st else Next(Exec(st, steps[..|steps| - 1]), steps[|steps| - 1])
  }

  // ---------------------------------------------------------------- no duplicates

  /** Two sessions of a connector that have both been waiting since they were created are two minutes apart. */
  ghost predicate NoDuplicates(rows: seq<Row>) {
    forall i, j :: 0 <= i < j < |rows| && rows[i].neverLeft && rows[j].neverLeft
                   && rows[i].cp == rows[j].cp && rows[i].connector == rows[j].connector ==>
      rows[j].createdAt - rows[i].createdAt >= 120
  }

  ghost predicate RowsOk(st: State) {
    forall i :: 0 <= i < |st.rows| ==> st.rows[i].createdAt <= st.now && (st.rows[i].neverLeft ==> Waiting(st.rows[i]))
  }

  /** What a look-up has established and no later change undoes. */
  ghost predicate CallOk(st: State, c: Call) {
    && c.readAt <= st.now && c.rows <= |st.rows|
    && forall i :: 0 <= i < c.rows && st.rows[i].neverLeft
                   && st.rows[i].cp == c.cp && st.rows[i].connector == c.connector ==>
         st.rows[i].createdAt <= c.readAt - WINDOW
  }

  ghost predicate Inv(st: State) {
    RowsOk(st) && forall call :: call in st.calls ==> CallOk(st, st.calls[call])
  }

  lemma NextKeeps(st: State, step: Step)
    requires Inv(st)
    ensures Inv(Next(st, step))
  {
  }

  /** No other session of the connector was inserted between the look-up and the INSERT. */
  ghost predicate LookIsCurrent(st: State, step: Step) {
    step.InsertStep? && step.call in st.calls ==>
      var c := st.calls[step.call];
      forall i :: c.rows <= i < |st.rows| ==> st.rows[i].cp != c.cp || st.rows[i].connector != c.connector
  }

  ghost predicate CreationsDoNotOverlap(st: State, steps: seq<Step>) {
    steps == [] ||
    var init, last := steps[..|steps| - 1], steps[|steps| - 1];
    CreationsDoNotOverlap(st, init) && LookIsCurrent(Exec(st, init), last)
  }

  /** A young session of the connector that has been waiting since it was created. */
  predicate Rivals(r: Row, c: Call, now: int) {
    r.neverLeft && r.cp == c.cp && r.connector == c.connector && r.createdAt > now - 120
  }

  /**
   The look-up rules out every session that was there: the INSERT makes no duplicate exactly when none of those
   inserted since the request looked is a young one of its connector that still waits.
   */
  lemma InsertMakesNoDuplicateIff(st: State, call: nat)
    requires Inv(st) && NoDuplicates(st.rows) && call in st.calls
    ensures var c := st.calls[call];
            NoDuplicates(Insert(st, call).rows) <==>
              forall i :: c.rows <= i < |st.rows| ==> !Rivals(st.rows[i], c, st.now)
  {
    var c, rows' := st.calls[call], Insert(st, call).rows;
    assert CallOk(st, c);
    assert rows'[|st.rows|] == New(c.cp, c.connector, st.now);
    assert forall i :: 0 <= i < |st.rows| ==> rows'[i] == st.rows[i];
  }

  lemma UpdateMakesNoDuplicate(st: State, step: Step)
    requires NoDuplicates(st.rows) && step.UpdateStep?
    ensures NoDuplicates(Next(st, step).rows)
  {
  }

  /**
   When creations for one connector do not overlap, in every run no two sessions of a connector created within two
   minutes of each other are both left waiting.
   */
  lemma {:induction false} ReuseGuardPreventsDuplicates(steps: seq<Step>)
    requires CreationsDoNotOverlap(START, steps)
    ensures NoDuplicates(Exec(START, steps).rows) && Inv(Exec(START, steps))
  {
    if steps != [] {
      var mid, step := Exec(START, steps[..|steps| - 1]), steps[|steps| - 1];
      ReuseGuardPreventsDuplicates(steps[..|steps| - 1]);
      NextKeeps(mid, step);
      match step
      case InsertStep(call) =>
        if call in mid.calls {
          assert CallOk(mid, mid.calls[call]);
          InsertMakesNoDuplicateIff(mid, call);
        }
      case UpdateStep(_, _, _, _, _) => UpdateMakesNoDuplicate(mid, step);
      case _ =>
    }
  }

  /** Two creations that both look before either inserts leave two waiting sessions of one age. */
  lemma OverlappingCreationsDuplicate(cp: string, connector: int)
    ensures var st := Insert(Insert(Look(Look(START, 0, cp, connector), 1, cp, connector), 0), 1);
            |st.rows| == 2 && !NoDuplicates(st.rows)
  {
    var st := Insert(Insert(Look(Look(START, 0, cp, connector), 1, cp, connector), 0), 1);
    assert st.rows[0] == st.rows[1] == New(cp, connector, 0);
  }

  // ---------------------------------------------------------------- the endpoints

  datatype Reply = Created(id: nat) | Reused(id: nat) | Busy | Cancelled | NotFound | AlreadyStarted

  function CancelReply(rows: seq<Row>, i: nat): Reply {
    if i >= |rows| then NotFound else if rows[i].startedAt.Some? then AlreadyStarted else Cancelled
  }

  function CancelWrite(st: State, i: nat): State {
    if i < |st.rows| && st.rows[i].startedAt.None?
    then st.(rows := st.rows[i := st.rows[i].(payment := "cancelled", stoppedAt := Some(st.now), neverLeft := false)])
    else st
  }

  predicate IsCancelled(r: Row, now: int) {
    r.payment == "cancelled" && r.stoppedAt == Some(now)
  }

  /**
   The reply was decided by the SELECT; `st` is the state the UPDATE finds.  A reply of cancelled is true exactly
   when the session has not started in between.
   */
  lemma CancelledReplyIsTrueIff(rows: seq<Row>, st: State, i: nat)
    requires CancelReply(rows, i) == Cancelled && |rows| <= |st.rows| && !IsCancelled(st.rows[i], st.now)
    ensures IsCancelled(CancelWrite(st, i).rows[i], st.now) <==> st.rows[i].startedAt.None?
  {
  }

  /** A cancel is one of the updates of the run theorems. */
  lemma CancelIsAnUpdate(st: State, i: nat)
    requires i < |st.rows| && st.rows[i].startedAt.None?
    ensures CancelWrite(st, i) == Next(st, UpdateStep(i, "cancelled", st.rows[i].linked, None, Some(st.now)))
  {
  }

  class SessionApi {
    var now: int
    var rows: seq<Row>

    constructor ()
      ensures Now() == START
    {
      now, rows := 0, [];
    }

    ghost function Now(): State
      reads this
    {
      State(now, rows, map[])
    }

    /** The newest reusable session. */
    method FindRecent(cp: string, connector: int) returns (recent: Option<nat>)
      ensures match recent
              case Some(i) =>
                && i < |rows| && Reusable(rows[i], cp, connector, now)
                && forall j :: 0 <= j < |rows| && Reusable(rows[j], cp, connector, now) ==>
                     rows[j].createdAt <= rows[i].createdAt
              case None => NothingToReuse(rows, cp, connector, now)
    {
      recent := None;
      for i := 0 to |rows|
        invariant recent.Some? ==> recent.value < i && Reusable(rows[recent.value], cp, connector, now)
        invariant forall j :: 0 <= j < i && Reusable(rows[j], cp, connector, now) ==>
                    recent.Some? && rows[j].createdAt <= rows[recent.value].createdAt
      {
        if Reusable(rows[i], cp, connector, now)
           && (recent.None? || rows[recent.value].createdAt <= rows[i].createdAt)
        {
          recent := Some(i);
        }
      }
    }

    /** `live` is the connector's last reported status, where the charger is known. */
    method CreateSession(cp: string, connector: int, live: Option<string>) returns (reply: Reply)
      modifies this`rows
      ensures reply == Busy <==> live.Some? && live.value !in {"Available", "Preparing"}
      ensures reply == Busy ==> rows == old(rows)
      ensures reply != Busy ==> Now() == Insert(Look(old(Now()), 0, cp, connector), 0)
      ensures reply.Created? ==> reply.id == old(|rows|) && NothingToReuse(old(rows), cp, connector, now)
      ensures reply.Reused? ==>
                && reply.id < |rows| && rows == old(rows) && Reusable(rows[reply.id], cp, connector, now)
                && forall j :: 0 <= j < |rows| && Reusable(rows[j], cp, connector, now) ==>
                     rows[j].createdAt <= rows[reply.id].createdAt
      ensures reply.Busy? || reply.Created? || reply.Reused?
      ensures reply.Created? ==>
                && |rows| == old(|rows|) + 1 && rows[..old(|rows|)] == old(rows)
                && rows[old(|rows|)] == Row(cp, connector, now, "pending", false, None, None, true)
                && forall i :: 0 <= i < old(|rows|) ==> !MayReuse(old(rows)[i], cp, connector, now)
      ensures reply.Reused? ==> MayReuse(rows[reply.id], cp, connector, now)
    {
      if live.Some? && live.value !in {"Available", "Preparing"} {
        return Busy;
      }
      var recent := FindRecent(cp, connector);
      if recent.Some? {
        return Reused(recent.value);
      }
      reply := Created(|rows|);
      rows := rows + [New(cp, connector, now)];
    }

    /** The SELECT of cancel_session. */
    method LookForCancel(i: nat) returns (reply: Reply)
      ensures reply == CancelReply(rows, i)
    {
      if i >= |rows| {
        return NotFound;
      }
      if rows[i].startedAt.Some? {
        return AlreadyStarted;
      }
      reply := Cancelled;
    }

    /** Its UPDATE, guarded by started_at IS NULL; whether it hit a row is not looked at. */
    method WriteCancel(i: nat)
      modifies this`rows
      ensures Now() == CancelWrite(old(Now()), i)
    {
      if i < |rows| && rows[i].startedAt.None? {
        rows := rows[i := rows[i].(payment := "cancelled", stoppedAt := Some(now), neverLeft := false)];
      }
    }

    /** Both, when nothing comes in between: cancels exactly a session that has not started. */
    method CancelSession(i: nat) returns (reply: Reply)
      modifies this`rows
      ensures reply == CancelReply(old(rows), i)
      ensures Now() == if reply == Cancelled then CancelWrite(old(Now()), i) else old(Now())
      ensures reply == Cancelled ==> IsCancelled(rows[i], now)
    {
      reply := LookForCancel(i);
      if reply == Cancelled {
        WriteCancel(i);
      }
    }
  }
}
