/** When the audit log tells the status of every token, and the lifecycle endpoints as code. */
module TokenAudit {
  import opened Common
  import opened Tokens

  /** The status a log entry says its token got. */
  function Effect(e: LogEntry): Option<string> {
    match e
    case Created(_, status) => Some(status)
    case Changed(_, op) => Some(Result(op))
    case Replaced(_) => Some("blocked")
    case Edited(_) => None
  }

  /** The status of a token according to its log entries. */
  function Replay(log: seq<LogEntry>, t: nat): Option<string> {
    ReplayFirst(log, |log|, t)
  }

  function ReplayFirst(log: seq<LogEntry>, n: nat, t: nat): Option<string>
    requires n <= |log|
  {
    if n == 0 then None
    else
      var e := log[n - 1];
      if e.token == t && Effect(e).Some? then Effect(e) else ReplayFirst(log, n - 1, t)
  }

  lemma {:induction false} ReplayPrefix(log: seq<LogEntry>, e: LogEntry, n: nat, t: nat)
    requires n <= |log|
    ensures ReplayFirst(log + [e], n, t) == ReplayFirst(log, n, t)
  {
    if n > 0 {
      ReplayPrefix(log, e, n - 1, t);
    }
  }

  lemma ReplayOneMore(log: seq<LogEntry>, e: LogEntry, t: nat)
    ensures Replay(log + [e], t) == (if e.token == t && Effect(e).Some? then Effect(e) else Replay(log, t))
  {
    ReplayPrefix(log, e, |log|, t);
  }

  // ---------------------------------------------------------------- one request per token at a time

  predicate Concerns(c: Call, t: nat) {
    c.token == t || ((c.OwesUpdate? || c.OwesReplaced?) && c.replacement == t)
  }

  /** The status a request has given token t and not yet logged. */
  function Owed(c: Call, t: nat): Option<string> {
    match c
    case OwesCreated(u, status) => if u == t then Some(status) else None
    case OwesChanged(u, op) => if u == t then Some(Result(op)) else None
    case OwesUpdate(_, n) => if n == t then Some("active") else None
    case OwesReplaced(u, n) => if n == t then Some("active") else if u == t then Some("blocked") else None
  }

  ghost predicate Free(st: State, t: nat) {
    forall call :: call in st.calls ==> !Concerns(st.calls[call], t)
  }

  /** A request on a token starts when no other request on it is under way, and no request dies. */
  ghost predicate InTurn(st: State, step: Step) {
    match step
    case ChangeStep(_, t, _) => Free(st, t)
    case ReplaceStep(_, t, _) => Free(st, t)
    case DieStep(call) => call !in st.calls
    case _ => true
  }

  ghost predicate OneAtATime(st: State, steps: seq<Step>) {
    steps == [] ||
    (OneAtATime(st, steps[..|steps| - 1]) && InTurn(Exec(st, steps[..|steps| - 1]), steps[|steps| - 1]))
  }

  ghost predicate AuditOk(st: State, t: nat)
    requires t < |st.tokens|
  {
    && (forall call :: call in st.calls && Owed(st.calls[call], t).Some? ==>
          Owed(st.calls[call], t) == Some(st.tokens[t].status))
    && ((forall call :: call in st.calls ==> Owed(st.calls[call], t).None?) ==>
          Replay(st.log, t) == Some(st.tokens[t].status))
  }

  ghost predicate Exclusive(st: State) {
    forall c, d, t: nat :: c in st.calls && d in st.calls && Concerns(st.calls[c], t) && Concerns(st.calls[d], t) ==>
      c == d
  }

  ghost predicate Audited(st: State) {
    && Inv(st) && Exclusive(st)
    && forall t :: 0 <= t < |st.tokens| ==> AuditOk(st, t)
  }

  /** A request starts: token t gets the status it owes. */
  lemma StartKeeps(st: State, call: nat, c: Call, tokens: seq<Token>)
    requires Audited(st) && call !in st.calls && |st.tokens| <= |tokens|
    requires forall t: nat :: Concerns(c, t) ==> Free(st, t)
    requires forall t :: 0 <= t < |tokens| && Owed(c, t).Some? ==> Owed(c, t) == Some(tokens[t].status)
    requires forall t :: 0 <= t < |tokens| && Owed(c, t).None? ==>
               t < |st.tokens| && tokens[t].status == st.tokens[t].status
    ensures var st' := State(tokens, st.log, st.calls[call := c]);
            Exclusive(st') && forall t :: 0 <= t < |tokens| ==> AuditOk(st', t)
  {
    var st' := State(tokens, st.log, st.calls[call := c]);
    forall t | 0 <= t < |tokens| ensures AuditOk(st', t) {
      if Owed(c, t).Some? {
        assert Owed(st'.calls[call], t).Some?;
        assert Concerns(c, t);
      } else {
        assert AuditOk(st, t);
        assert forall d :: d in st.calls ==> st'.calls[d] == st.calls[d];
      }
    }
  }

  /** A request writes its log entry for token t and is left with c', or done. */
  lemma LogKeeps(st: State, call: nat, e: LogEntry, calls: map<nat, Call>)
    requires Audited(st) && call in st.calls && e.token < |st.tokens|
    requires Effect(e) == Owed(st.calls[call], e.token) && Effect(e).Some?
    requires calls == st.calls - {call} || (call in calls && calls == st.calls[call := calls[call]])
    requires call in calls ==>
               && (forall t: nat :: Concerns(calls[call], t) ==> Concerns(st.calls[call], t))
               && (forall t: nat :: t != e.token ==> Owed(calls[call], t) == Owed(st.calls[call], t))
               && Owed(calls[call], e.token).None?
    requires call !in calls ==> forall t: nat :: t != e.token ==> Owed(st.calls[call], t).None?
    ensures var st' := State(st.tokens, st.log + [e], calls);
            Exclusive(st') && forall t :: 0 <= t < |st.tokens| ==> AuditOk(st', t)
  {
    var st' := State(st.tokens, st.log + [e], calls);
    forall t | 0 <= t < |st.tokens| ensures AuditOk(st', t) {
      assert AuditOk(st, t);
      ReplayOneMore(st.log, e, t);
      if t == e.token {
        forall d | d in calls && Owed(calls[d], t).Some? ensures false {
          assert Concerns(st.calls[d], t) && Concerns(st.calls[call], t);
        }
      } else {
        forall d | d in st.calls && d != call ensures d in calls && calls[d] == st.calls[d] {
        }
      }
    }
  }

  /** A replacing request updates the old token. */
  lemma UpdateOldKeeps(st: State, call: nat)
    requires Audited(st) && call in st.calls && st.calls[call].OwesUpdate?
    ensures var st' := Continue(st, call);
            Exclusive(st') && forall t :: 0 <= t < |st'.tokens| ==> AuditOk(st', t)
  {
    var c, st' := st.calls[call], Continue(st, call);
    assert CallOk(st.tokens, c);
    forall t | 0 <= t < |st'.tokens| ensures AuditOk(st', t) {
      assert AuditOk(st, t);
      if t == c.token {
        assert Owed(st'.calls[call], t) == Some("blocked");
        forall d | d in st'.calls && Owed(st'.calls[d], t).Some? ensures d == call {
          assert Concerns(st.calls[call], t);
          if d != call {
            assert Concerns(st.calls[d], t);
          }
        }
      } else {
        assert st'.tokens[t] == st.tokens[t];
        forall d | d in st.calls ensures d in st'.calls && Owed(st'.calls[d], t) == Owed(st.calls[d], t) {
        }
      }
    }
  }

  lemma NoCallBeyond(st: State, t: nat)
    requires Inv(st) && t >= |st.tokens|
    ensures Free(st, t)
  {
  }

  lemma CreateAudited(st: State, step: Step)
    requires Audited(st) && step.CreateStep?
    ensures Exclusive(Next(st, step)) && forall t :: 0 <= t < |Next(st, step).tokens| ==> AuditOk(Next(st, step), t)
  {
    if Next(st, step) != st {
      NoCallBeyond(st, |st.tokens|);
      var token := Token(step.uid, step.status, None, None);
      StartKeeps(st, step.call, OwesCreated(|st.tokens|, step.status), st.tokens + [token]);
    }
  }

  lemma ChangeAudited(st: State, step: Step)
    requires Audited(st) && step.ChangeStep? && InTurn(st, step)
    ensures Exclusive(Next(st, step)) && forall t :: 0 <= t < |Next(st, step).tokens| ==> AuditOk(Next(st, step), t)
  {
    if Next(st, step) != st {
      var token := st.tokens[step.t].(status := Result(step.op));
      StartKeeps(st, step.call, OwesChanged(step.t, step.op), st.tokens[step.t := token]);
    }
  }

  lemma ReplaceAudited(st: State, step: Step)
    requires Audited(st) && step.ReplaceStep? && InTurn(st, step)
    ensures Exclusive(Next(st, step)) && forall t :: 0 <= t < |Next(st, step).tokens| ==> AuditOk(Next(st, step), t)
  {
    if Next(st, step) != st {
      NoCallBeyond(st, |st.tokens|);
      var token := Token(step.uid, "active", Some(step.t), None);
      StartKeeps(st, step.call, OwesUpdate(step.t, |st.tokens|), st.tokens + [token]);
    }
  }

  lemma ContinueAudited(st: State, step: Step)
    requires Audited(st) && step.ContinueStep?
    ensures Exclusive(Next(st, step)) && forall t :: 0 <= t < |Next(st, step).tokens| ==> AuditOk(Next(st, step), t)
  {
    if step.call in st.calls {
      var c := st.calls[step.call];
      assert CallOk(st.tokens, c);
      match c
      case OwesCreated(t, status) => LogKeeps(st, step.call, Created(t, status), st.calls - {step.call});
      case OwesChanged(t, op) => LogKeeps(st, step.call, Changed(t, op), st.calls - {step.call});
      case OwesUpdate(t, n) => UpdateOldKeeps(st, step.call);
      case OwesReplaced(t, n) => LogKeeps(st, step.call, Replaced(t), st.calls[step.call := OwesCreated(n, "active")]);
    }
  }

  lemma EditAudited(st: State, step: Step)
    requires Audited(st) && step.EditStep?
    ensures Exclusive(Next(st, step)) && forall t :: 0 <= t < |Next(st, step).tokens| ==> AuditOk(Next(st, step), t)
  {
    if step.t < |st.tokens| {
      forall t | 0 <= t < |st.tokens| ensures AuditOk(Next(st, step), t) {
        assert AuditOk(st, t);
        ReplayOneMore(st.log, Edited(step.t), t);
      }
    }
  }

  lemma NextAudited(st: State, step: Step)
    requires Audited(st) && InTurn(st, step)
    ensures Audited(Next(st, step))
  {
    NextKeeps(st, step);
    match step
    case CreateStep(_, _, _) => CreateAudited(st, step);
    case ChangeStep(_, _, _) => ChangeAudited(st, step);
    case ReplaceStep(_, _, _) => ReplaceAudited(st, step);
    case ContinueStep(_) => ContinueAudited(st, step);
    case EditStep(_) => EditAudited(st, step);
    case DieStep(call) => assert st.calls - {call} == st.calls;
  }

  lemma {:induction false} RunAudited(steps: seq<Step>)
    requires OneAtATime(EMPTY, steps)
    ensures Audited(Exec(EMPTY, steps))
  {
    if steps != [] {
      RunAudited(steps[..|steps| - 1]);
      NextAudited(Exec(EMPTY, steps[..|steps| - 1]), steps[|steps| - 1]);
    }
  }

  /**
   When the requests of a token take turns and none dies half way, then over every run the stored status of a
   token with no request under way is the replay of its log entries.
   */
  lemma AuditTellsStatus(steps: seq<Step>, t: nat)
    requires OneAtATime(EMPTY, steps)
    requires t < |Exec(EMPTY, steps).tokens| && Free(Exec(EMPTY, steps), t)
    ensures Replay(Exec(EMPTY, steps).log, t) == Some(Exec(EMPTY, steps).tokens[t].status)
  {
    RunAudited(steps);
    var st := Exec(EMPTY, steps);
    assert AuditOk(st, t);
    forall call | call in st.calls ensures Owed(st.calls[call], t).None? {
      assert !Concerns(st.calls[call], t);
    }
  }

  /** Two requests on one token, updated in one order and logged in the other. */
  function Overlapped(st: State, t: nat, first: Op, second: Op): State {
    Continue(Continue(Change(Change(st, 0, t, first), 1, t, second), 1), 0)
  }

  /** Then the log tells the status exactly when both requests give the same one. */
  lemma OverlapTellsStatusIff(st: State, t: nat, first: Op, second: Op)
    requires t < |st.tokens| && 0 !in st.calls && 1 !in st.calls
    ensures var st' := Overlapped(st, t, first, second);
            Replay(st'.log, t) == Some(st'.tokens[t].status) <==> Result(first) == Result(second)
  {
    ReplayOneMore(st.log + [Changed(t, second)], Changed(t, first), t);
  }

  // ---------------------------------------------------------------- exactly when the log tells the status

  /** The log tells the status of token t. */
  ghost predicate Tells(st: State, t: nat)
    requires t < |st.tokens|
  {
    Replay(st.log, t) == Some(st.tokens[t].status)
  }

  /** What a request logs next; the update of a replaced token comes before its log entry. */
  function NextEntry(c: Call): Option<LogEntry> {
    match c
    case OwesCreated(t, status) => Some(Created(t, status))
    case OwesChanged(t, op) => Some(Changed(t, op))
    case OwesUpdate(_, _) => None
    case OwesReplaced(t, _) => Some(Replaced(t))
  }

  /**
   In every state and for every kind of request: its log entry tells the status exactly when the row still has
   the status the request wrote.
   */
  lemma LogEntryTellsIff(st: State, call: nat)
    requires call in st.calls && NextEntry(st.calls[call]).Some? && st.calls[call].token < |st.tokens|
    ensures var c := st.calls[call];
            Tells(Continue(st, call), c.token) <==> Effect(NextEntry(c).value) == Some(st.tokens[c.token].status)
  {
    ReplayOneMore(st.log, NextEntry(st.calls[call]).value, st.calls[call].token);
  }

  /** An edit of the details is logged and tells nothing of the status. */
  lemma EditsTellNothing(st: State, t: nat, u: nat)
    requires t < |st.tokens| && u < |st.tokens|
    ensures Edit(st, t).tokens == st.tokens && Edit(st, t).log == st.log + [Edited(t)]
    ensures Tells(Edit(st, t), u) <==> Tells(st, u)
  {
    ReplayOneMore(st.log, Edited(t), u);
  }

  /** A status written and not logged, because its request died, is told exactly when the log said it before. */
  lemma DeadRequestTellsIff(st: State, call: nat, t: nat, op: Op)
    requires t < |st.tokens| && call !in st.calls
    ensures Tells(Die(Change(st, call, t, op), call), t) <==> Replay(st.log, t) == Some(Result(op))
  {
  }

  /** One request, nothing beside it: a Block that dies before its log entry. */
  lemma DeadBlockContradictsTheLog(uid: string)
    ensures var st := Continue(CreateInsert(EMPTY, 0, uid, "active"), 0);
            var st' := Die(Change(st, 1, 0, Block), 1);
            && |st'.tokens| == 1 && st'.calls == map[]
            && st'.tokens[0].status == "blocked" && Replay(st'.log, 0) == Some("active")
  {
    ReplayOneMore([], Created(0, "active"), 0);
    assert [] + [Created(0, "active")] == [Created(0, "active")];
  }

  /** This step logs a status for token t. */
  predicate Logs(st: State, step: Step, t: nat) {
    && step.ContinueStep? && step.call in st.calls && st.calls[step.call].token == t
    && NextEntry(st.calls[step.call]).Some?
  }

  /** And the row still has the status that request wrote. */
  predicate LogsCurrent(st: State, step: Step, t: nat) {
    && Logs(st, step, t) && t < |st.tokens|
    && Effect(NextEntry(st.calls[step.call]).value) == Some(st.tokens[t].status)
  }

  /** The step ends a request that has written the token's status and not logged it. */
  predicate DiesOwing(st: State, step: Step, t: nat) {
    step.DieStep? && step.call in st.calls && Owed(st.calls[step.call], t).Some?
  }

  /**
   When a request on the token last came to its end: if it wrote its log entry, the row still had the status it
   wrote; if it died before, the log already told the status.
   */
  ghost predicate LastWordWasTrue(st: State, steps: seq<Step>, t: nat) {
    steps != [] &&
    var mid, last := Exec(st, steps[..|steps| - 1]), steps[|steps| - 1];
    if Logs(mid, last, t) then LogsCurrent(mid, last, t)
    else if DiesOwing(mid, last, t) then t < |mid.tokens| && Tells(mid, t)
    else LastWordWasTrue(st, steps[..|steps| - 1], t)
  }

  ghost predicate NothingOwed(st: State, t: nat) {
    forall call :: call in st.calls ==> Owed(st.calls[call], t).None?
  }

  /** The claim about one state: with nothing owed, the log tells the status iff `current`. */
  ghost predicate ToldIff(st: State, t: nat, current: bool) {
    t < |st.tokens| && NothingOwed(st, t) ==> (Tells(st, t) <==> current)
  }

  lemma ToldOverContinue(st: State, step: Step, t: nat, current: bool)
    requires Inv(st) && step.ContinueStep? && ToldIff(st, t, current)
    ensures ToldIff(Next(st, step), t, if Logs(st, step, t) then LogsCurrent(st, step, t) else current)
  {
    if step.call in st.calls {
      var c := st.calls[step.call];
      assert CallOk(st.tokens, c);
      if NextEntry(c).Some? {
        ReplayOneMore(st.log, NextEntry(c).value, t);
      }
      var st' := Continue(st, step.call);
      if NothingOwed(st', t) && !Logs(st, step, t) && t < |st.tokens| {
        forall call | call in st.calls ensures Owed(st.calls[call], t).None? {
          if call == step.call {
            assert step.call in st'.calls ==> Owed(st'.calls[step.call], t).None?;
          } else {
            assert st'.calls[call] == st.calls[call];
          }
        }
        if c.OwesUpdate? {
          assert Owed(st'.calls[step.call], t).None?;
          assert st'.tokens[t] == st.tokens[t] && st'.log == st.log;
        } else {
          assert c.token != t && st'.tokens == st.tokens && Replay(st'.log, t) == Replay(st.log, t);
        }
      }
    }
  }

  lemma ToldOverStart(st: State, step: Step, t: nat, current: bool)
    requires Inv(st) && (step.CreateStep? || step.ChangeStep? || step.ReplaceStep?) && ToldIff(st, t, current)
    ensures ToldIff(Next(st, step), t, current)
  {
    var st' := Next(st, step);
    if st' != st && t < |st'.tokens| && NothingOwed(st', t) {
      assert Owed(st'.calls[step.call], t).None?;
      forall call | call in st.calls ensures Owed(st.calls[call], t).None? {
        assert st'.calls[call] == st.calls[call];
      }
    }
  }

  lemma ToldOverEdit(st: State, step: Step, t: nat, current: bool)
    requires step.EditStep? && ToldIff(st, t, current)
    ensures ToldIff(Next(st, step), t, current)
  {
    ReplayOneMore(st.log, Edited(step.t), t);
  }

  lemma ToldOverDeath(st: State, step: Step, t: nat, current: bool)
    requires Inv(st) && step.DieStep? && ToldIff(st, t, current)
    ensures ToldIff(Next(st, step), t, if DiesOwing(st, step, t) then t < |st.tokens| && Tells(st, t) else current)
  {
    var st' := Next(st, step);
    if !DiesOwing(st, step, t) && NothingOwed(st', t) {
      forall call | call in st.calls ensures Owed(st.calls[call], t).None? {
        assert call != step.call ==> st'.calls[call] == st.calls[call];
      }
    }
  }

  lemma {:induction false} ToldOverRun(steps: seq<Step>, t: nat)
    ensures ToldIff(Exec(EMPTY, steps), t, LastWordWasTrue(EMPTY, steps, t))
  {
    if steps != [] {
      var init, last := steps[..|steps| - 1], steps[|steps| - 1];
      ToldOverRun(init, t);
      RunKeeps(EMPTY, init);
      match last
      case ContinueStep(_) => ToldOverContinue(Exec(EMPTY, init), last, t, LastWordWasTrue(EMPTY, init, t));
      case EditStep(_) => ToldOverEdit(Exec(EMPTY, init), last, t, LastWordWasTrue(EMPTY, init, t));
      case DieStep(_) => ToldOverDeath(Exec(EMPTY, init), last, t, LastWordWasTrue(EMPTY, init, t));
      case _ => ToldOverStart(Exec(EMPTY, init), last, t, LastWordWasTrue(EMPTY, init, t));
    }
  }

  /**
   Over every run and interleaving, requests that die included, with no request under way that has written the
   token's status and not logged it: the stored status is the replay of the log exactly when the last request on
   the token to come to its end logged a status its row still had, or died over one the log already told.
   */
  lemma AuditTellsStatusIff(steps: seq<Step>, st: State, t: nat)
    requires st == Exec(EMPTY, steps)
    requires t < |st.tokens| && NothingOwed(st, t)
    ensures Replay(st.log, t) == Some(st.tokens[t].status) <==> LastWordWasTrue(EMPTY, steps, t)
  {
    ToldOverRun(steps, t);
  }

  // ---------------------------------------------------------------- creations and replacements that die

  ghost predicate EntriesNameTokens(st: State) {
    forall e :: e in st.log ==> e.token < |st.tokens|
  }

  lemma {:induction false} EntriesOverRun(steps: seq<Step>)
    ensures EntriesNameTokens(Exec(EMPTY, steps))
  {
    if steps != [] {
      var st, last := Exec(EMPTY, steps[..|steps| - 1]), steps[|steps| - 1];
      EntriesOverRun(steps[..|steps| - 1]);
      RunKeeps(EMPTY, steps[..|steps| - 1]);
      if last.ContinueStep? && last.call in st.calls {
        assert CallOk(st.tokens, st.calls[last.call]);
      }
    }
  }

  lemma {:induction false} NoEntryNoReplay(log: seq<LogEntry>, n: nat, t: nat)
    requires n <= |log| && forall e :: e in log ==> e.token != t
    ensures ReplayFirst(log, n, t) == None
  {
    if n > 0 {
      NoEntryNoReplay(log, n - 1, t);
    }
  }

  ghost predicate NeverLogs(st: State, steps: seq<Step>, t: nat) {
    steps == [] ||
    var init, last := steps[..|steps| - 1], steps[|steps| - 1];
    NeverLogs(st, init, t) && !Logs(Exec(st, init), last, t)
  }

  lemma UntoldOverStep(st: State, step: Step, t: nat)
    requires Replay(st.log, t) == None && !Logs(st, step, t)
    ensures Replay(Next(st, step).log, t) == None
  {
    match step
    case ContinueStep(call) =>
      if call in st.calls && NextEntry(st.calls[call]).Some? {
        ReplayOneMore(st.log, NextEntry(st.calls[call]).value, t);
      }
    case EditStep(u) => ReplayOneMore(st.log, Edited(u), t);
    case _ =>
  }

  lemma {:induction false} UntoldUntilLogged(st: State, steps: seq<Step>, t: nat)
    requires Replay(st.log, t) == None && NeverLogs(st, steps, t)
    ensures Replay(Exec(st, steps).log, t) == None
  {
    if steps != [] {
      UntoldUntilLogged(st, steps[..|steps| - 1], t);
      UntoldOverStep(Exec(st, steps[..|steps| - 1]), steps[|steps| - 1], t);
    }
  }

  /** A creation that dies before its log entry: the log says nothing of the token until another request does. */
  lemma DeadCreationIsUntold(steps: seq<Step>, call: nat, uid: string, status: string, more: seq<Step>)
    requires call !in Exec(EMPTY, steps).calls && !UidTaken(Exec(EMPTY, steps).tokens, uid)
    requires var st := Exec(EMPTY, steps);
             NeverLogs(Die(CreateInsert(st, call, uid, status), call), more, |st.tokens|)
    ensures var st := Exec(EMPTY, steps);
            var st' := Die(CreateInsert(st, call, uid, status), call);
            && |st'.tokens| == |st.tokens| + 1 && st'.tokens[|st.tokens|] == Token(uid, status, None, None)
            && Replay(Exec(st', more).log, |st.tokens|) == None
  {
    var st := Exec(EMPTY, steps);
    EntriesOverRun(steps);
    NoEntryNoReplay(st.log, |st.log|, |st.tokens|);
    UntoldUntilLogged(Die(CreateInsert(st, call, uid, status), call), more, |st.tokens|);
  }

  /**
   A replacement that dies leaves its new token untold wherever it dies before the last log entry.  The old one is
   told as before when it died before the update, exactly when the log already said blocked when it died before
   the first log entry, and for certain after that.
   */
  lemma DeadReplacementTellsIff(steps: seq<Step>, st: State, call: nat, t: nat, uid: string)
    requires st == Exec(EMPTY, steps) && call !in st.calls && t < |st.tokens| && !UidTaken(st.tokens, uid)
    ensures var inserted := ReplaceInsert(st, call, t, uid);
            var updated := Continue(inserted, call);
            var logged := Continue(updated, call);
            && |inserted.tokens| == |updated.tokens| == |logged.tokens| == |st.tokens| + 1
            && (Tells(Die(inserted, call), t) <==> Tells(st, t))
            && (Tells(Die(updated, call), t) <==> Replay(st.log, t) == Some("blocked"))
            && Tells(Die(logged, call), t)
            && Replay(Die(inserted, call).log, |st.tokens|) == None
            && Replay(Die(updated, call).log, |st.tokens|) == None
            && Replay(Die(logged, call).log, |st.tokens|) == None
  {
    EntriesOverRun(steps);
    NoEntryNoReplay(st.log, |st.log|, |st.tokens|);
    ReplayOneMore(st.log, Replaced(t), t);
    ReplayOneMore(st.log, Replaced(t), |st.tokens|);
  }

  // ---------------------------------------------------------------- the endpoints

  datatype Reply = Done(id: nat) | NotFound | UidConflict

  class TokenStore {
    var tokens: seq<Token>
    var log: seq<LogEntry>

    constructor ()
      ensures Now() == EMPTY
    {
      tokens, log := [], [];
    }

    ghost function Now(): State
      reads this
    {
      State(tokens, log, map[])
    }

    method HasUid(uid: string) returns (taken: bool)
      ensures taken <==> UidTaken(tokens, uid)
    {
      for i := 0 to |tokens|
        invariant forall j :: 0 <= j < i ==> tokens[j].uid != uid
      {
        if tokens[i].uid == uid {
          return true;
        }
      }
      return false;
    }

    method CreateToken(uid: string, status: string) returns (reply: Reply)
      modifies this
      ensures Now() == Continue(CreateInsert(old(Now()), 0, uid, status), 0)
      ensures reply == if UidTaken(old(tokens), uid) then UidConflict else Done(old(|tokens|))
      ensures reply == UidConflict ==> tokens == old(tokens) && log == old(log)
      ensures reply.Done? ==>
                && tokens == old(tokens) + [Token(uid, status, None, None)]
                && log == old(log) + [Created(old(|tokens|), status)]
    {
      var taken := HasUid(uid);
      if taken {
        return UidConflict;
      }
      var id := |tokens|;
      tokens := tokens + [Token(uid, status, None, None)];
      log := log + [Created(id, status)];
      reply := Done(id);
    }

    /** activate_token, block_token, unblock_token and revoke_token. */
    method ChangeStatus(t: nat, op: Op) returns (reply: Reply)
      modifies this
      ensures Now() == Continue(Change(old(Now()), 0, t, op), 0)
      ensures reply == if t < old(|tokens|) then Done(t) else NotFound
      ensures reply == NotFound ==> tokens == old(tokens) && log == old(log)
      ensures reply.Done? ==>
                && log == old(log) + [Changed(t, op)] && tokens == old(tokens)[t := tokens[t]]
                && tokens[t] == old(tokens)[t].(status := tokens[t].status)
                && (op == Activate || op == Unblock ==> tokens[t].status == "active")
                && (op == Block ==> tokens[t].status == "blocked")
                && (op == Revoke ==> tokens[t].status == "revoked")
    {
      if t >= |tokens| {
        return NotFound;
      }
      tokens := tokens[t := tokens[t].(status := Result(op))];
      log := log + [Changed(t, op)];
      reply := Done(t);
    }

    method ReplaceToken(t: nat, uid: string) returns (reply: Reply)
      modifies this
      ensures Now() == Continue(Continue(Continue(ReplaceInsert(old(Now()), 0, t, uid), 0), 0), 0)
      ensures reply == if t >= old(|tokens|) then NotFound
                       else if UidTaken(old(tokens), uid) then UidConflict else Done(old(|tokens|))
      ensures !reply.Done? ==> tokens == old(tokens) && log == old(log)
      ensures reply.Done? ==>
                && tokens == old(tokens)[t := old(tokens)[t].(status := "blocked", replacedById := Some(reply.id))]
                             + [Token(uid, "active", Some(t), None)]
                && log == old(log) + [Replaced(t), Created(reply.id, "active")]
    {
      if t >= |tokens| {
        return NotFound;
      }
      var taken := HasUid(uid);
      if taken {
        return UidConflict;
      }
      var id := |tokens|;
      tokens := tokens + [Token(uid, "active", Some(t), None)];
      tokens := tokens[t := tokens[t].(status := "blocked", replacedById := Some(id))];
      log := log + [Replaced(t)];
      log := log + [Created(id, "active")];
      reply := Done(id);
    }
  }
}
