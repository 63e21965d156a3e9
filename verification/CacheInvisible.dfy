/**
 The map of active transactions of a 2.0.1 connection is a cache of a database look-up.  Dropping it
 anywhere (a reconnect) is invisible as long as only stop handlers close sessions and no transactionId
 is started twice on a charger.
 */
module CacheInvisible {
  import opened Common
  import opened Meter16
  import opened ChargingState
  import opened ChargingInvariants
  import opened ChargingSteps
  import opened BillingTheorems

  /** The state without its maps. */
  function Erase(st: State): State {
    st.(caches := map[])
  }

  /** One step of a system that keeps no map and always asks the database. */
  function NextDb(st: State, step: Step): State {
    Erase(Next(Erase(st), step))
  }

  function ExecDb(st: State, steps: seq<Step>): State {
    if steps == [] then Erase(st) else NextDb(ExecDb(st, steps[..|steps| - 1]), steps[|steps| - 1])
  }

  /** No charger starts one transactionId twice. */
  ghost predicate StartedOnce(steps: seq<Step>) {
    forall i, j :: 0 <= i < j < |steps| && steps[i].Started201Step? && steps[j].Started201Step?
                   && steps[i].cp == steps[j].cp ==>
      steps[i].txn != steps[j].txn
  }

  ghost predicate NoCloser(steps: seq<Step>) {
    forall i :: 0 <= i < |steps| ==> !steps[i].CloserCloseStep?
  }

  // ---------------------------------------------------------------- what the conditions give

  ghost predicate UniqueTxns(ss: seq<Session>) {
    forall i, j :: 0 <= i < j < |ss| && ss[i].txn.Some? && ss[i].cp == ss[j].cp ==> ss[i].txn != ss[j].txn
  }

  ghost predicate NoneAutoClosed(ss: seq<Session>) {
    forall i :: 0 <= i < |ss| ==> ss[i].status != AutoClosed
  }

  ghost predicate HasStart(steps: seq<Step>, cp: string, txn: string) {
    exists k :: 0 <= k < |steps| && steps[k] == Started201Step(cp, txn)
  }

  /** Every 2.0.1 row comes from a Started message. */
  ghost predicate Accounted(ss: seq<Session>, steps: seq<Step>) {
    forall i :: 0 <= i < |ss| && ss[i].txn.Some? ==> HasStart(steps, ss[i].cp, ss[i].txn.value)
  }

  /** Rows are only appended, a 2.0.1 row only by its Started message; the rest keep charger and transaction. */
  ghost predicate Appends(ss: seq<Session>, step: Step, ss': seq<Session>) {
    && |ss| <= |ss'| <= |ss| + 1
    && (forall i :: 0 <= i < |ss| ==> ss'[i].cp == ss[i].cp && ss'[i].txn == ss[i].txn)
    && (|ss'| == |ss| + 1 && ss'[|ss|].txn.Some? ==> step == Started201Step(ss'[|ss|].cp, ss'[|ss|].txn.value))
  }

  lemma StepAppends(st: State, step: Step)
    requires Inv(st)
    ensures Appends(st.sessions, step, Next(st, step).sessions)
  {
    var ss, ss' := st.sessions, Next(st, step).sessions;
    assert |ss| <= |ss'| && forall i :: 0 <= i < |ss| ==> ss'[i].cp == ss[i].cp && ss'[i].txn == ss[i].txn by {
      NextKeeps(st, step);
      forall i | 0 <= i < |ss| ensures ss'[i].cp == ss[i].cp && ss'[i].txn == ss[i].txn {
        assert RowEvolves(Who(step), ss[i], ss'[i]);
      }
    }
    AppendsOne(st, step);
  }

  lemma AppendsOne(st: State, step: Step)
    ensures var ss, ss' := st.sessions, Next(st, step).sessions;
            && |ss'| <= |ss| + 1
            && (|ss'| == |ss| + 1 && ss'[|ss|].txn.Some? ==> step == Started201Step(ss'[|ss|].cp, ss'[|ss|].txn.value))
  {
  }

  lemma StillAccounted(ss: seq<Session>, ss': seq<Session>, steps: seq<Step>, last: Step)
    requires UniqueTxns(ss) && Accounted(ss, steps) && Appends(ss, last, ss') && StartedOnce(steps + [last])
    ensures UniqueTxns(ss') && Accounted(ss', steps + [last])
  {
    var all := steps + [last];
    forall i | 0 <= i < |ss| && ss[i].txn.Some?
      ensures HasStart(all, ss[i].cp, ss[i].txn.value)
      ensures last != Started201Step(ss[i].cp, ss[i].txn.value)
    {
      assert HasStart(steps, ss[i].cp, ss[i].txn.value);
      var k :| 0 <= k < |steps| && steps[k] == Started201Step(ss[i].cp, ss[i].txn.value);
      assert all[k] == steps[k] && all[|steps|] == last;
    }
    if |ss'| > |ss| && ss'[|ss|].txn.Some? {
      assert all[|steps|] == Started201Step(ss'[|ss|].cp, ss'[|ss|].txn.value);
    }
  }

  lemma {:induction false} AutoClosedOnlyByCloser(st: State, step: Step)
    requires NoneAutoClosed(st.sessions) && !step.CloserCloseStep?
    ensures NoneAutoClosed(Next(st, step).sessions)
  {
  }

  ghost predicate TxnsOk(ss: seq<Session>, steps: seq<Step>) {
    UniqueTxns(ss) && Accounted(ss, steps) && NoneAutoClosed(ss)
  }

  lemma TxnsOverStep(st: State, steps: seq<Step>, last: Step)
    requires Inv(st) && TxnsOk(st.sessions, steps) && StartedOnce(steps + [last]) && !last.CloserCloseStep?
    ensures TxnsOk(Next(st, last).sessions, steps + [last])
  {
    var ss' := Next(st, last).sessions;
    StepAppends(st, last);
    AutoClosedOnlyByCloser(st, last);
    StillAccounted(st.sessions, ss', steps, last);
  }

  lemma {:induction false} TxnsOverRun(steps: seq<Step>)
    requires StartedOnce(steps) && NoCloser(steps)
    ensures TxnsOk(Exec(INITIAL, steps).sessions, steps)
  {
    if steps != [] {
      var init, last := steps[..|steps| - 1], steps[|steps| - 1];
      assert steps == init + [last];
      assert Exec(INITIAL, steps) == Next(Exec(INITIAL, init), last);
      assert TxnsOk(Next(Exec(INITIAL, init), last).sessions, init + [last]) by {
        TxnsOverRun(init);
        ReachableInv(init);
        TxnsOverStep(Exec(INITIAL, init), init, last);
      }
    }
  }

  // ---------------------------------------------------------------- the map answers as the database

  /**
   In a reachable state with unique transactions, the map entry of a transaction gives the database's
   answer exactly when its session is still active.
   */
  lemma MapAnswersIff(ss: seq<Session>, cache: map<string, nat>, cp: string, txn: string)
    requires CacheOk(ss, cp, cache) && UniqueTxns(ss) && txn in cache
    ensures (forall pick :: LookupAnswers(ss, cache, cp, txn, pick) <==> DbAnswers(ss, cp, txn, pick))
       <==> ss[cache[txn]].status == Active
  {
    var sid := cache[txn];
    assert Unwon201(ss, cp, sid) && ss[sid].txn == Some(txn);
    assert LookupAnswers(ss, cache, cp, txn, Some(sid));
    if ss[sid].status == Active {
      forall pick: Option<nat>
        ensures LookupAnswers(ss, cache, cp, txn, pick) <==> DbAnswers(ss, cp, txn, pick)
      {
        assert IsActive201(ss[sid], cp, txn);
        if pick.Some? && DbAnswers(ss, cp, txn, pick) {
          assert ss[pick.value].txn == ss[sid].txn && ss[pick.value].cp == ss[sid].cp;
        }
      }
    }
  }

  lemma SameAnswers(st: State, cp: string, txn: string, pick: Option<nat>)
    requires Inv(st) && UniqueTxns(st.sessions) && NoneAutoClosed(st.sessions)
    ensures LookupAnswers(st.sessions, CacheOf(st.caches, cp), cp, txn, pick)
       <==> LookupAnswers(st.sessions, CacheOf(Erase(st).caches, cp), cp, txn, pick)
  {
  }

  predicate IsMeterOrStart(step: Step) {
    || step.StartInsertStep? || step.StartLinkStep? || step.MeterReadStep? || step.MeterSessionStep?
    || step.MeterPublicStep? || step.Started201Step? || step.Meter201Step? || step.ReconnectStep?
  }

  /** Apart from look-ups no step depends on the maps. */
  lemma MapsDoNotMatterWhileCharging(st: State, step: Step)
    requires IsMeterOrStart(step)
    ensures Erase(Next(st, step)) == NextDb(Erase(st), step)
  {
  }

  lemma MapsDoNotMatterElsewhere(st: State, step: Step)
    requires !step.Resolve201Step? && !IsMeterOrStart(step)
    ensures Erase(Next(st, step)) == NextDb(Erase(st), step)
  {
  }

  lemma EraseCommutes(st: State, step: Step)
    requires Inv(st) && UniqueTxns(st.sessions) && NoneAutoClosed(st.sessions)
    ensures Erase(Next(st, step)) == NextDb(Erase(st), step)
  {
    if step.Resolve201Step? {
      SameAnswers(st, step.cp, step.txn, step.pick);
    } else if IsMeterOrStart(step) {
      MapsDoNotMatterWhileCharging(st, step);
    } else {
      MapsDoNotMatterElsewhere(st, step);
    }
  }

  // ---------------------------------------------------------------- refinement over runs

  /** Sessions, public sessions, CDRs, events and in-flight messages are those of database-only look-up. */
  lemma {:induction false} CacheIsInvisible(steps: seq<Step>)
    requires StartedOnce(steps) && NoCloser(steps)
    ensures Erase(Exec(INITIAL, steps)) == ExecDb(INITIAL, steps)
  {
    if steps != [] {
      var init := steps[..|steps| - 1];
      CacheIsInvisible(init);
      TxnsOverRun(init);
      ReachableInv(init);
      EraseCommutes(Exec(INITIAL, init), steps[|steps| - 1]);
    }
  }

  /** The same messages without any reconnect. */
  function Unbroken(steps: seq<Step>): seq<Step> {
    if steps == [] then []
    else
      var init := Unbroken(steps[..|steps| - 1]);
      if steps[|steps| - 1].ReconnectStep? then init else init + [steps[|steps| - 1]]
  }

  lemma {:induction false} DbIgnoresReconnects(steps: seq<Step>)
    ensures ExecDb(INITIAL, steps) == ExecDb(INITIAL, Unbroken(steps))
    ensures ExecDb(INITIAL, steps).caches == map[]
  {
    if steps != [] {
      var init, last := steps[..|steps| - 1], steps[|steps| - 1];
      DbIgnoresReconnects(init);
      if !last.ReconnectStep? {
        assert Unbroken(steps)[..|Unbroken(steps)| - 1] == Unbroken(init);
      }
    }
  }

  lemma {:induction false} UnbrokenSteps(steps: seq<Step>)
    ensures NoCloser(steps) ==> NoCloser(Unbroken(steps))
    ensures StartedOnce(steps) ==> StartedOnce(Unbroken(steps))
    ensures forall x :: x in Unbroken(steps) ==> x in steps
  {
    if steps != [] {
      var init, last := steps[..|steps| - 1], steps[|steps| - 1];
      UnbrokenSteps(init);
      assert steps == init + [last];
      if StartedOnce(steps) && last.Started201Step? {
        forall x | x in Unbroken(init) && x.Started201Step? && x.cp == last.cp ensures x.txn != last.txn {
          assert x in init;
          var k :| 0 <= k < |init| && init[k] == x;
          assert steps[k] == x;
        }
      }
    }
  }

  /** Reconnecting at any points of a run leaves every table and every event as if the connection had held. */
  lemma ReconnectIsInvisible(steps: seq<Step>)
    requires StartedOnce(steps) && NoCloser(steps)
    ensures Erase(Exec(INITIAL, steps)) == Erase(Exec(INITIAL, Unbroken(steps)))
  {
    UnbrokenSteps(steps);
    CacheIsInvisible(steps);
    CacheIsInvisible(Unbroken(steps));
    DbIgnoresReconnects(steps);
  }

  // ---------------------------------------------------------------- the closer makes it visible

  const CLOSED: seq<Step> :=
    [Started201Step("CP-2", "T"), CloserFetchStep({0}), CloserCloseStep(0, 9)]

  function Report(pick: Option<nat>): seq<Step> {
    [Resolve201Step("CP-2", "T", false, [Reading(Some(5.0), None)], pick), Meter201Step("CP-2", "", 10)]
  }

  /**
   After the closer took a session, a report on the old connection still raises its energy through the
   map; on a new connection the look-up finds nothing and the energy stays.
   */
  lemma CloserMakesTheMapVisible()
    ensures var st := Exec(INITIAL, CLOSED);
            var kept, broken := Exec(st, Report(Some(0))), Exec(Reconnect(st, "CP-2"), Report(None));
            && |st.sessions| == |kept.sessions| == |broken.sessions| == 1
            && st.sessions[0].status == kept.sessions[0].status == broken.sessions[0].status == AutoClosed
            && kept.sessions[0].energy == 5.0 && broken.sessions[0].energy == 0.0
  {
    ClosedRun();
    var st := Exec(INITIAL, CLOSED);
    ReportRun(st, Some(0));
    var renewed := Reconnect(st, "CP-2");
    assert CacheOf(renewed.caches, "CP-2") == map[];
    ReportRun(renewed, None);
  }

  lemma ClosedRun()
    ensures var st := Exec(INITIAL, CLOSED);
            && st.sessions == [Session("CP-2", None, Some("T"), 0.0, AutoClosed, Some(9), "StaleSessionAutoClose",
                                       None, 0.0, 0.0, 0, [])]
            && TaskOf(st.tasks, "CP-2") == Idle && CacheOf(st.caches, "CP-2") == map["T" := 0]
  {
    ExecThree(INITIAL, CLOSED[0], CLOSED[1], CLOSED[2]);
    var st1 := Started201(INITIAL, "CP-2", "T");
    assert st1 == Next(INITIAL, CLOSED[0]);
    var st2 := CloserFetch(st1, {0});
    assert st2 == Next(st1, CLOSED[1]) && st2.fetched == {0};
  }

  lemma ReportSteps(st: State, pick: Option<nat>)
    ensures Exec(st, Report(pick))
         == Meter201(Resolve201(st, "CP-2", "T", false, [Reading(Some(5.0), None)], pick), "CP-2", "", 10)
  {
    var resolve, meter := Report(pick)[0], Report(pick)[1];
    ExecTwo(st, resolve, meter);
    var st1 := Resolve201(st, "CP-2", "T", false, [Reading(Some(5.0), None)], pick);
    assert Next(st, resolve) == st1 && Next(st1, meter) == Meter201(st1, "CP-2", "", 10);
  }

  lemma ReportRun(st: State, pick: Option<nat>)
    requires TaskOf(st.tasks, "CP-2") == Idle && |st.sessions| == 1 && st.sessions[0].energy == 0.0
    requires LookupAnswers(st.sessions, CacheOf(st.caches, "CP-2"), "CP-2", "T", pick)
    ensures |Exec(st, Report(pick)).sessions| == 1
    ensures Exec(st, Report(pick)).sessions[0].status == st.sessions[0].status
    ensures Exec(st, Report(pick)).sessions[0].energy == (if pick == Some(0) then 5.0 else 0.0)
  {
    var t := Metering201(pick, [Reading(Some(5.0), None)], false);
    var st1 := Resolve201(st, "CP-2", "T", false, t.readings, pick);
    assert TaskOf(st1.tasks, "CP-2") == t && st1.sessions == st.sessions;
    var st2 := Meter201(st1, "CP-2", "", 10);
    assert st2.sessions == if pick == Some(0) then [Raise201(st.sessions[0], t.readings[0])] else st.sessions;
    assert Exec(st, Report(pick)) == st2 by {
      ReportSteps(st, pick);
    }
  }
}
