/**
 RFID tokens: the lifecycle endpoints, the token table and its audit log.

 The endpoints run on an autocommit connection, so every UPDATE, INSERT and log entry is a step of its own
 and requests interleave between them.  Tokens are identified by their position in the table.
 */
module Tokens {
  import opened Common

  datatype Token = Token(uid: string, status: string, replacesId: Option<nat>, replacedById: Option<nat>)

  datatype Op = Activate | Block | Unblock | Revoke

  datatype LogEntry =
    | Created(token: nat, status: string)
    | Changed(token: nat, op: Op)
    | Replaced(token: nat)
    | Edited(token: nat)

  /** What a request has still to write. */
  datatype Call =
    | OwesCreated(token: nat, status: string)
    | OwesChanged(token: nat, op: Op)
    | OwesUpdate(token: nat, replacement: nat)
    | OwesReplaced(token: nat, replacement: nat)

  datatype State = State(tokens: seq<Token>, log: seq<LogEntry>, calls: map<nat, Call>)

  const EMPTY := State([], [], map[])

  function Result(op: Op): string {
    match op
    case Activate => "active"
    case Block => "blocked"
    case Unblock => "active"
    case Revoke => "revoked"
  }

  predicate UidTaken(tokens: seq<Token>, uid: string) {
    exists i :: 0 <= i < |tokens| && tokens[i].uid == uid
  }

  // ---------------------------------------------------------------- steps

  /** INSERT of a new token; the unique uid makes a second one fail. */
  function CreateInsert(st: State, call: nat, uid: string, status: string): State {
    if call in st.calls || UidTaken(st.tokens, uid) then st
    else
      st.(tokens := st.tokens + [Token(uid, status, None, None)],
          calls := st.calls[call := OwesCreated(|st.tokens|, status)])
  }

  /** Activate, block, unblock and revoke: no guard on the status they find. */
  function Change(st: State, call: nat, t: nat, op: Op): State {
    if call in st.calls || t >= |st.tokens| then st
    else
      st.(tokens := st.tokens[t := st.tokens[t].(status := Result(op))],
          calls := st.calls[call := OwesChanged(t, op)])
  }

  function ReplaceInsert(st: State, call: nat, t: nat, uid: string): State {
    if call in st.calls || t >= |st.tokens| || UidTaken(st.tokens, uid) then st
    else
      st.(tokens := st.tokens + [Token(uid, "active", Some(t), None)],
          calls := st.calls[call := OwesUpdate(t, |st.tokens|)])
  }

  /** The next statement of a request: the update of a replaced token, or a log entry. */
  function Continue(st: State, call: nat): State {
    if call !in st.calls then st
    else match st.calls[call]
      case OwesCreated(t, status) => st.(log := st.log + [Created(t, status)], calls := st.calls - {call})
      case OwesChanged(t, op) => st.(log := st.log + [Changed(t, op)], calls := st.calls - {call})
      case OwesUpdate(t, n) =>
        st.(tokens := if t >= |st.tokens| then st.tokens
                      else st.tokens[t := st.tokens[t].(status := "blocked", replacedById := Some(n))],
            calls := st.calls[call := OwesReplaced(t, n)])
      case OwesReplaced(t, n) =>
        st.(log := st.log + [Replaced(t)], calls := st.calls[call := OwesCreated(n, "active")])
  }

  /** update_token: details only. */
  function Edit(st: State, t: nat): State {
    if t >= |st.tokens| then st else st.(log := st.log + [Edited(t)])
  }

  /** The request dies between two statements. */
  function Die(st: State, call: nat): State {
    st.(calls := st.calls - {call})
  }

  datatype Step =
    | CreateStep(call: nat, uid: string, status: string)
    | ChangeStep(call: nat, t: nat, op: Op)
    | ReplaceStep(call: nat, t: nat, uid: string)
    | ContinueStep(call: nat)
    | EditStep(t: nat)
    | DieStep(call: nat)

  function Next(st: State, step: Step): State {
    match step
    case CreateStep(call, uid, status) => CreateInsert(st, call, uid, status)
    case ChangeStep(call, t, op) => Change(st, call, t, op)
    case ReplaceStep(call, t, uid) => ReplaceInsert(st, call, t, uid)
    case ContinueStep(call) => Continue(st, call)
    case EditStep(t) => Edit(st, t)
    case DieStep(call) => Die(st, call)
  }

  function Exec(st: State, steps: seq<Step>): State {
    if steps == [] then st else Next(Exec(st, steps[..|steps| - 1]), steps[|steps| - 1])
  }

  // ---------------------------------------------------------------- replacement chain, over every interleaving

  ghost predicate TokenOk(tokens: seq<Token>, t: nat)
    requires t < |tokens|
  {
    && (tokens[t].replacesId.Some? ==> tokens[t].replacesId.value < t)
    && (tokens[t].replacedById.Some? ==>
          t < tokens[t].replacedById.value < |tokens| && tokens[tokens[t].replacedById.value].replacesId == Some(t))
  }

  ghost predicate CallOk(tokens: seq<Token>, c: Call) {
    match c
    case OwesCreated(t, _) => t < |tokens|
    case OwesChanged(t, _) => t < |tokens|
    case OwesUpdate(t, n) => t < n < |tokens| && tokens[n].replacesId == Some(t)
    case OwesReplaced(t, n) => t < n < |tokens| && tokens[n].replacesId == Some(t)
  }

  ghost predicate ChainsOk(tokens: seq<Token>) {
    && (forall t :: 0 <= t < |tokens| ==> TokenOk(tokens, t))
    && (forall i, j :: 0 <= i < j < |tokens| ==> tokens[i].uid != tokens[j].uid)
  }

  ghost predicate Inv(st: State) {
    ChainsOk(st.tokens) && forall call :: call in st.calls ==> CallOk(st.tokens, st.calls[call])
  }

  lemma InsertKeeps(st: State, token: Token)
    requires Inv(st) && !UidTaken(st.tokens, token.uid)
    requires token.replacedById.None? && (token.replacesId.Some? ==> token.replacesId.value < |st.tokens|)
    ensures Inv(st.(tokens := st.tokens + [token]))
  {
    var tokens := st.tokens + [token];
    forall t | 0 <= t < |tokens| ensures TokenOk(tokens, t) {
      if t < |st.tokens| {
        assert TokenOk(st.tokens, t);
      }
    }
    forall call | call in st.calls ensures CallOk(tokens, st.calls[call]) {
      assert CallOk(st.tokens, st.calls[call]);
    }
  }

  lemma UpdateKeeps(st: State, t: nat, token: Token)
    requires Inv(st) && t < |st.tokens| && token.uid == st.tokens[t].uid && token.replacesId == st.tokens[t].replacesId
    requires token.replacedById == st.tokens[t].replacedById
             || (token.replacedById.Some? && t < token.replacedById.value < |st.tokens|
                 && st.tokens[token.replacedById.value].replacesId == Some(t))
    ensures Inv(st.(tokens := st.tokens[t := token]))
  {
    var tokens := st.tokens[t := token];
    forall i | 0 <= i < |tokens| ensures TokenOk(tokens, i) {
      assert TokenOk(st.tokens, i);
    }
    forall call | call in st.calls ensures CallOk(tokens, st.calls[call]) {
      assert CallOk(st.tokens, st.calls[call]);
    }
  }

  lemma NextKeeps(st: State, step: Step)
    requires Inv(st)
    ensures Inv(Next(st, step))
  {
    match step
    case CreateStep(call, uid, status) =>
      if !UidTaken(st.tokens, uid) {
        InsertKeeps(st, Token(uid, status, None, None));
      }
    case ChangeStep(call, t, op) =>
      if t < |st.tokens| {
        UpdateKeeps(st, t, st.tokens[t].(status := Result(op)));
      }
    case ReplaceStep(call, t, uid) =>
      if t < |st.tokens| && !UidTaken(st.tokens, uid) {
        InsertKeeps(st, Token(uid, "active", Some(t), None));
      }
    case ContinueStep(call) =>
      if call in st.calls {
        assert CallOk(st.tokens, st.calls[call]);
        if st.calls[call].OwesUpdate? {
          var t := st.calls[call].token;
          UpdateKeeps(st, t, st.tokens[t].(status := "blocked", replacedById := Some(st.calls[call].replacement)));
        }
      }
    case _ =>
  }

  lemma {:induction false} RunKeeps(st: State, steps: seq<Step>)
    requires Inv(st)
    ensures Inv(Exec(st, steps))
  {
    if steps != [] {
      RunKeeps(st, steps[..|steps| - 1]);
      NextKeeps(Exec(st, steps[..|steps| - 1]), steps[|steps| - 1]);
    }
  }

  /** The tokens that followed token t. */
  function Chain(tokens: seq<Token>, t: nat): (chain: seq<nat>)
    requires ChainsOk(tokens) && t < |tokens|
    decreases |tokens| - t
  {
    assert TokenOk(tokens, t);
    if tokens[t].replacedById.None? then [t] else [t] + Chain(tokens, tokens[t].replacedById.value)
  }

  /** c starts at t, goes from token to replacement, both ways recorded, and ends at one not replaced. */
  ghost predicate IsChain(tokens: seq<Token>, t: nat, c: seq<nat>) {
    && c != [] && c[0] == t
    && (forall i :: 0 <= i < |c| ==> t <= c[i] < |tokens|)
    && tokens[c[|c| - 1]].replacedById.None?
    && (forall i :: 0 < i < |c| ==>
          tokens[c[i - 1]].replacedById == Some(c[i]) && tokens[c[i]].replacesId == Some(c[i - 1]))
  }

  lemma {:induction false} ChainEnds(tokens: seq<Token>, t: nat)
    requires ChainsOk(tokens) && t < |tokens|
    ensures IsChain(tokens, t, Chain(tokens, t)) && |Chain(tokens, t)| <= |tokens| - t
    decreases |tokens| - t
  {
    assert TokenOk(tokens, t);
    if tokens[t].replacedById.Some? {
      var n := tokens[t].replacedById.value;
      ChainEnds(tokens, n);
      var c, rest := Chain(tokens, t), Chain(tokens, n);
      forall i | 0 < i < |c|
        ensures tokens[c[i - 1]].replacedById == Some(c[i]) && tokens[c[i]].replacesId == Some(c[i - 1])
      {
        assert c[i] == rest[i - 1];
        if i > 1 {
          assert c[i - 1] == rest[i - 2];
        }
      }
    }
  }

  /**
   Over every run and interleaving: a token that was replaced is named by its replacement, nothing replaces two
   tokens, and uids are unique.
   */
  lemma ReplacementsMatch(steps: seq<Step>, tokens: seq<Token>, t: nat)
    requires tokens == Exec(EMPTY, steps).tokens && t < |tokens|
    ensures ChainsOk(tokens) && TokenOk(tokens, t)
    ensures forall s :: 0 <= s < |tokens| && s != t ==>
              tokens[s].uid != tokens[t].uid
              && (tokens[t].replacedById.Some? ==> tokens[s].replacedById != tokens[t].replacedById)
  {
    RunKeeps(EMPTY, steps);
    assert TokenOk(tokens, t);
    forall s | 0 <= s < |tokens| && s != t && tokens[t].replacedById.Some?
      ensures tokens[s].replacedById != tokens[t].replacedById
    {
      assert TokenOk(tokens, s);
    }
  }

  /** Following replaced_by_id from any token ends at one that was not replaced. */
  lemma ReplacementChains(steps: seq<Step>, tokens: seq<Token>, t: nat)
    requires tokens == Exec(EMPTY, steps).tokens && t < |tokens|
    ensures ChainsOk(tokens) && IsChain(tokens, t, Chain(tokens, t))
  {
    RunKeeps(EMPTY, steps);
    ChainEnds(tokens, t);
  }
}
