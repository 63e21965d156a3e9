/** What every run of the event bus guarantees its consumer groups, and the `consume` loop itself. */
module EventBusTheorems {
  import opened Common
  import opened EventBus

  lemma ReachableInv(maxLen: nat, steps: seq<Step>)
    ensures Inv(Exec(maxLen, EMPTY, steps))
  {
    RunKeeps(maxLen, EMPTY, steps);
  }

  // ---------------------------------------------------------------- accounting

  /** Of the group's consumers, c and no other got entry i. */
  ghost predicate TakenOnlyBy(st: State, name: string, i: nat, c: nat) {
    forall d: nat :: d < |st.consumers| && st.consumers[d].group == name ==>
      (i in st.consumers[d].taken <==> d == c)
  }

  /**
   Over every run, every entry delivered to a group lies between its start and its cursor, is in exactly one
   of acknowledged and pending, and was taken by exactly one consumer; and what lies there undelivered has
   been trimmed.
   */
  lemma DeliveredIsAckedOrPending(maxLen: nat, steps: seq<Step>, name: string, i: nat)
    requires name in Exec(maxLen, EMPTY, steps).groups
    ensures var st := Exec(maxLen, EMPTY, steps);
            var g := st.groups[name];
            && (i in g.owner ==> g.start <= i < g.cursor <= |st.log|)
            && (i in g.owner <==> (i in g.acked) != (i in g.pending))
            && (i in g.acked ==> i !in g.pending)
            && (g.start <= i < g.cursor && i !in g.owner ==> i < st.lo)
            && (i in g.owner ==> g.owner[i] < |st.consumers| && TakenOnlyBy(st, name, i, g.owner[i]))
  {
    ReachableInv(maxLen, steps);
    var st := Exec(maxLen, EMPTY, steps);
    assert GroupOk(|st.log|, st.lo, st.groups[name]);
    forall c: nat | c < |st.consumers| && st.consumers[c].group == name
                    && i in st.consumers[c].taken && i in st.groups[name].owner
      ensures c == st.groups[name].owner[i]
    {
      assert ConsumerOk(st.log, st.groups[name], c, st.consumers[c]);
    }
  }

  /** What may happen to a group later in a run: its start stays, its cursor and its acknowledgements only grow. */
  ghost predicate LaterGroup(g: Group, g': Group) {
    && g'.start == g.start && g.cursor <= g'.cursor && g.acked <= g'.acked
    && forall i :: i in g.owner ==> i in g'.owner && g'.owner[i] == g.owner[i]
  }

  lemma GroupOverRead(st: State, c: nat, count: nat, name: string)
    requires Inv(st) && name in st.groups
    ensures name in Read(st, c, count).groups && LaterGroup(st.groups[name], Read(st, c, count).groups[name])
  {
  }

  lemma GroupOverProcess(st: State, c: nat, ok: bool, name: string)
    requires name in st.groups
    ensures name in Process(st, c, ok).groups && LaterGroup(st.groups[name], Process(st, c, ok).groups[name])
    ensures name in Resume(st, c, ok).groups && LaterGroup(st.groups[name], Resume(st, c, ok).groups[name])
  {
  }

  lemma GroupOverStep(maxLen: nat, st: State, step: Step, name: string)
    requires Inv(st) && name in st.groups
    ensures name in Next(maxLen, st, step).groups
    ensures LaterGroup(st.groups[name], Next(maxLen, st, step).groups[name])
  {
    match step
    case ReadStep(c, count) => GroupOverRead(st, c, count, name);
    case ProcessStep(c, ok) => GroupOverProcess(st, c, ok, name);
    case ResumeStep(c, ok) => GroupOverProcess(st, c, ok, name);
    case _ => assert LaterGroup(st.groups[name], st.groups[name]);
  }

  lemma {:induction false} GroupOverRun(maxLen: nat, st: State, steps: seq<Step>, name: string)
    requires Inv(st) && name in st.groups
    ensures name in Exec(maxLen, st, steps).groups
    ensures LaterGroup(st.groups[name], Exec(maxLen, st, steps).groups[name])
  {
    if steps != [] {
      var mid := Exec(maxLen, st, steps[..|steps| - 1]);
      GroupOverRun(maxLen, st, steps[..|steps| - 1], name);
      RunKeeps(maxLen, st, steps[..|steps| - 1]);
      GroupOverStep(maxLen, mid, steps[|steps| - 1], name);
      LaterGroupOnce(st.groups[name], mid.groups[name], Next(maxLen, mid, steps[|steps| - 1]).groups[name]);
    }
  }

  lemma LaterGroupOnce(g: Group, mid: Group, g': Group)
    requires LaterGroup(g, mid) && LaterGroup(mid, g')
    ensures LaterGroup(g, g')
  {
  }

  // ---------------------------------------------------------------- what a consumer yields

  /** The consumer has yielded exactly the matching entries among those it got to, in stream order. */
  ghost predicate YieldsMatchesInOrder(st: State, k: Consumer) {
    && Seen(k) <= |k.taken|
    && (forall i :: i in k.yielded <==> i in k.taken[..Seen(k)] && Wanted(st.log, k.filter, i))
    && (forall j, l :: 0 <= j < l < |k.yielded| ==> k.yielded[j] < k.yielded[l])
  }

  lemma YieldsOfConsumer(st: State, c: nat)
    requires Inv(st) && c < |st.consumers|
    ensures YieldsMatchesInOrder(st, st.consumers[c])
  {
    var k := st.consumers[c];
    assert ConsumerOk(st.log, st.groups[k.group], c, k);
    var seen := k.taken[..Seen(k)];
    assert forall j, l :: 0 <= j < l < |seen| ==> seen[j] < seen[l];
    YieldedMembers(st.log, k.filter, seen);
    YieldedKeepsOrder(st.log, k.filter, seen);
  }

  /**
   Over every run, what a consumer yielded are its matching entries in stream order, and no entry is yielded
   to two consumers of a group.
   */
  lemma YieldsAreTheMatchesInOrder(maxLen: nat, steps: seq<Step>, c: nat)
    requires c < |Exec(maxLen, EMPTY, steps).consumers|
    ensures var st := Exec(maxLen, EMPTY, steps);
            var k := st.consumers[c];
            && YieldsMatchesInOrder(st, k)
            && forall d, i: nat :: 0 <= d < |st.consumers| && d != c && st.consumers[d].group == k.group
                                   && i in k.yielded ==>
                 i !in st.consumers[d].yielded
  {
    ReachableInv(maxLen, steps);
    var st := Exec(maxLen, EMPTY, steps);
    YieldsOfConsumer(st, c);
    forall d, i: nat | 0 <= d < |st.consumers| && d != c && st.consumers[d].group == st.consumers[c].group
                       && i in st.consumers[c].yielded
      ensures i !in st.consumers[d].yielded
    {
      if i in st.consumers[d].yielded {
        YieldedIsTaken(st, d, i);
        YieldedIsTaken(st, c, i);
      }
    }
  }

  lemma YieldedIsTaken(st: State, c: nat, i: nat)
    requires Inv(st) && c < |st.consumers| && i in st.consumers[c].yielded
    ensures i in st.consumers[c].taken && i in st.groups[st.consumers[c].group].owner
    ensures st.groups[st.consumers[c].group].owner[i] == c
  {
    var k := st.consumers[c];
    assert ConsumerOk(st.log, st.groups[k.group], c, k);
    YieldedMembers(st.log, k.filter, k.taken[..Seen(k)]);
  }

  /**
   An entry the loop is past: if it was malformed it was not yielded and is pending; otherwise it was
   yielded iff it matches, and acknowledged unless its XACK raised.  The rest of the batch is pending.
   */
  lemma ProcessedEntries(maxLen: nat, steps: seq<Step>, c: nat, j: nat)
    requires c < |Exec(maxLen, EMPTY, steps).consumers| && j < |Exec(maxLen, EMPTY, steps).consumers[c].taken|
    ensures var st := Exec(maxLen, EMPTY, steps);
            var k := st.consumers[c];
            var i := k.taken[j];
            && k.group in st.groups && i < |st.log|
            && (j < k.done ==>
                  && (i in k.yielded <==> Wanted(st.log, k.filter, i))
                  && (i in st.groups[k.group].acked <==> st.log[i].Some? && j !in k.failures)
                  && (i in st.groups[k.group].pending <==> st.log[i].None? || j in k.failures))
            && (j >= k.done ==> i in st.groups[k.group].pending)
            && (j >= Seen(k) ==> i !in k.yielded)
  {
    ReachableInv(maxLen, steps);
    var st := Exec(maxLen, EMPTY, steps);
    var k := st.consumers[c];
    var g := st.groups[k.group];
    assert ConsumerOk(st.log, g, c, k) && GroupOk(|st.log|, st.lo, g);
    YieldedMembers(st.log, k.filter, k.taken[..Seen(k)]);
    assert k.taken[j] in g.owner;
    if j < Seen(k) {
      assert k.taken[..Seen(k)][j] == k.taken[j];
    }
  }

  // ---------------------------------------------------------------- nothing is redelivered

  /** A pending entry its consumer is past, or whose consumer is gone. */
  ghost predicate Stuck(st: State, c: nat, j: nat, name: string, i: nat) {
    && c < |st.consumers| && st.consumers[c].group == name && name in st.groups
    && j < |st.consumers[c].taken| && st.consumers[c].taken[j] == i
    && i in st.groups[name].pending
    && (j < st.consumers[c].done || !st.consumers[c].live)
  }

  ghost predicate NotYieldedAgain(st: State, st': State, name: string, i: nat) {
    && |st.consumers| <= |st'.consumers|
    && forall d :: 0 <= d < |st'.consumers| && st'.consumers[d].group == name && i in st'.consumers[d].yielded ==>
         d < |st.consumers| && st.consumers[d].group == name && i in st.consumers[d].yielded
  }

  lemma OnlyOwnConsumerTouches(st: State, c: nat, j: nat, d: nat)
    requires Inv(st) && c < |st.consumers| && j < |st.consumers[c].taken| && AtWork(st, d)
    requires st.consumers[d].group == st.consumers[c].group
    requires st.consumers[d].taken[st.consumers[d].done] == st.consumers[c].taken[j]
    ensures d == c && st.consumers[c].done == j
  {
  }

  ghost predicate StaysStuck(st: State, st': State, c: nat, j: nat, name: string, i: nat) {
    Stuck(st', c, j, name, i) && NotYieldedAgain(st, st', name, i)
  }

  /** A consumer moves on in its batch and yields nothing more, or something else. */
  lemma StuckOverMove(st: State, d: nat, k': Consumer, c: nat, j: nat, name: string, i: nat)
    requires Stuck(st, c, j, name, i) && d < |st.consumers|
    requires var k := st.consumers[d];
             && k'.group == k.group && k'.taken == k.taken && k.done <= k'.done && (!k.live ==> !k'.live)
             && (k.group == name && i in k'.yielded ==> i in k.yielded)
    ensures var st' := st.(consumers := st.consumers[d := k']);
            StaysStuck(st, st', c, j, name, i)
  {
  }

  /** The entry consumer d has at hand is not entry i of this group. */
  ghost predicate OtherAtHand(st: State, d: nat, name: string, i: nat)
    requires AtWork(st, d)
  {
    st.consumers[d].group != name || st.consumers[d].taken[st.consumers[d].done] != i
  }

  lemma StuckIsNotAtHand(st: State, d: nat, c: nat, j: nat, name: string, i: nat)
    requires Inv(st) && Stuck(st, c, j, name, i) && AtWork(st, d)
    ensures OtherAtHand(st, d, name, i)
  {
    if !OtherAtHand(st, d, name, i) {
      OnlyOwnConsumerTouches(st, c, j, d);
    }
  }

  lemma StuckOverOtherAck(st: State, d: nat, ok: bool, c: nat, j: nat, name: string, i: nat)
    requires Stuck(st, c, j, name, i) && AtWork(st, d) && OtherAtHand(st, d, name, i)
    ensures StaysStuck(st, AckNext(st, d, ok), c, j, name, i)
  {
    StuckOverMove(st, d, AckNext(st, d, ok).consumers[d], c, j, name, i);
  }

  lemma StuckOverAck(st: State, d: nat, ok: bool, c: nat, j: nat, name: string, i: nat)
    requires Inv(st) && Stuck(st, c, j, name, i) && AtWork(st, d)
    ensures StaysStuck(st, AckNext(st, d, ok), c, j, name, i)
  {
    StuckIsNotAtHand(st, d, c, j, name, i);
    StuckOverOtherAck(st, d, ok, c, j, name, i);
  }

  lemma StuckOverOtherProcess(st: State, d: nat, ok: bool, c: nat, j: nat, name: string, i: nat)
    requires Stuck(st, c, j, name, i) && AtWork(st, d) && OtherAtHand(st, d, name, i) && !st.consumers[d].awaiting
    ensures StaysStuck(st, Process(st, d, ok), c, j, name, i)
  {
    var k := st.consumers[d];
    var e := k.taken[k.done];
    if st.log[e].Some? && !Matches(k.filter, st.log[e].value) {
      StuckOverOtherAck(st, d, ok, c, j, name, i);
      assert Process(st, d, ok) == AckNext(st, d, ok);
    } else {
      var k' := Process(st, d, ok).consumers[d];
      assert Process(st, d, ok) == st.(consumers := st.consumers[d := k']);
      StuckOverMove(st, d, k', c, j, name, i);
    }
  }

  lemma StuckOverProcess(st: State, d: nat, ok: bool, c: nat, j: nat, name: string, i: nat)
    requires Inv(st) && Stuck(st, c, j, name, i)
    ensures StaysStuck(st, Process(st, d, ok), c, j, name, i)
  {
    if AtWork(st, d) && !st.consumers[d].awaiting {
      StuckIsNotAtHand(st, d, c, j, name, i);
      StuckOverOtherProcess(st, d, ok, c, j, name, i);
    } else {
      assert Process(st, d, ok) == st;
    }
  }

  lemma StuckOverResume(st: State, d: nat, ok: bool, c: nat, j: nat, name: string, i: nat)
    requires Inv(st) && Stuck(st, c, j, name, i)
    ensures StaysStuck(st, Resume(st, d, ok), c, j, name, i)
  {
    if AtWork(st, d) {
      StuckOverAck(st, d, ok, c, j, name, i);
    }
  }

  lemma StuckOverRead(st: State, d: nat, count: nat, c: nat, j: nat, name: string, i: nat)
    requires Stuck(st, c, j, name, i)
    ensures StaysStuck(st, Read(st, d, count), c, j, name, i)
  {
  }

  lemma StuckOverPublish(maxLen: nat, st: State, entry: Entry, lo: nat, c: nat, j: nat, name: string, i: nat)
    requires Stuck(st, c, j, name, i)
    ensures StaysStuck(st, Publish(maxLen, st, entry, lo), c, j, name, i)
  {
  }

  lemma StuckOverGroup(st: State, group: string, latest: bool, c: nat, j: nat, name: string, i: nat)
    requires Stuck(st, c, j, name, i)
    ensures StaysStuck(st, EnsureGroup(st, group, latest), c, j, name, i)
  {
  }

  lemma StuckOverSubscribe(st: State, group: string, filter: Filter, c: nat, j: nat, name: string, i: nat)
    requires Stuck(st, c, j, name, i)
    ensures StaysStuck(st, Subscribe(st, group, filter), c, j, name, i)
  {
  }

  lemma StuckOverAbandon(st: State, d: nat, c: nat, j: nat, name: string, i: nat)
    requires Stuck(st, c, j, name, i)
    ensures StaysStuck(st, Abandon(st, d), c, j, name, i)
  {
  }

  lemma StuckOverStep(maxLen: nat, st: State, step: Step, c: nat, j: nat, name: string, i: nat)
    requires Inv(st) && Stuck(st, c, j, name, i)
    ensures StaysStuck(st, Next(maxLen, st, step), c, j, name, i)
  {
    match step
    case ProcessStep(d, ok) => StuckOverProcess(st, d, ok, c, j, name, i);
    case ResumeStep(d, ok) => StuckOverResume(st, d, ok, c, j, name, i);
    case _ => StuckOverRest(maxLen, st, step, c, j, name, i);
  }

  lemma StuckOverRest(maxLen: nat, st: State, step: Step, c: nat, j: nat, name: string, i: nat)
    requires Stuck(st, c, j, name, i) && !step.ProcessStep? && !step.ResumeStep?
    ensures StaysStuck(st, Next(maxLen, st, step), c, j, name, i)
  {
    match step
    case ReadStep(d, count) => StuckOverRead(st, d, count, c, j, name, i);
    case PublishStep(entry, lo) => StuckOverPublish(maxLen, st, entry, lo, c, j, name, i);
    case EnsureGroupStep(group, latest) => StuckOverGroup(st, group, latest, c, j, name, i);
    case SubscribeStep(group, filter) => StuckOverSubscribe(st, group, filter, c, j, name, i);
    case AbandonStep(d) => StuckOverAbandon(st, d, c, j, name, i);
  }

  /**
   Nothing is redelivered: an entry left pending because it was malformed, its XACK raised or its consumer
   went away stays pending in every continuation, and is never yielded again to any consumer of the group.
   */
  lemma {:induction false} PendingIsNeverYieldedAgain(maxLen: nat, st: State, steps: seq<Step>, c: nat, j: nat,
                                                      name: string, i: nat)
    requires Inv(st) && Stuck(st, c, j, name, i)
    ensures Stuck(Exec(maxLen, st, steps), c, j, name, i)
    ensures NotYieldedAgain(st, Exec(maxLen, st, steps), name, i)
  {
    if steps != [] {
      var mid := Exec(maxLen, st, steps[..|steps| - 1]);
      PendingIsNeverYieldedAgain(maxLen, st, steps[..|steps| - 1], c, j, name, i);
      RunKeeps(maxLen, st, steps[..|steps| - 1]);
      StuckOverStep(maxLen, mid, steps[|steps| - 1], c, j, name, i);
    }
  }

  /**
   The caller comes back for the next event: the one it was given is acknowledged exactly when the XACK goes
   through, whatever the caller did with it.
   */
  lemma ComingBackAcknowledgesIff(st: State, c: nat, ok: bool)
    requires Inv(st) && AtWork(st, c) && st.consumers[c].awaiting
    ensures var k := st.consumers[c];
            var g', i := Resume(st, c, ok).groups[k.group], k.taken[k.done];
            i in k.yielded && (i in g'.acked <==> ok) && (i in g'.pending <==> !ok)
  {
    var k := st.consumers[c];
    var g := st.groups[k.group];
    assert ConsumerOk(st.log, g, c, k) && GroupOk(|st.log|, st.lo, g);
    YieldedMembers(st.log, k.filter, k.taken[..Seen(k)]);
    assert k.taken[..Seen(k)][k.done] == k.taken[k.done];
  }

  /** A consumer gets one event and goes away while its caller is at work on it. */
  function CrashRun(name: string, filter: Filter, e: Event): seq<Step> {
    [SubscribeStep(name, filter)] + [PublishStep(Some(e), 0)] + [ReadStep(0, 1)] + [ProcessStep(0, true)]
    + [AbandonStep(0)]
  }

  lemma CrashRunStates(maxLen: nat, name: string, filter: Filter, e: Event)
    ensures Exec(maxLen, EMPTY, CrashRun(name, filter, e))
         == Abandon(Process(Read(Publish(maxLen, Subscribe(EMPTY, name, filter), Some(e), 0), 0, 1), 0, true), 0)
  {
    var s1 := [SubscribeStep(name, filter)];
    var s2 := s1 + [PublishStep(Some(e), 0)];
    var s3 := s2 + [ReadStep(0, 1)];
    var s4 := s3 + [ProcessStep(0, true)];
    assert [] + s1 == s1;
    ExecOneMore(maxLen, EMPTY, [], SubscribeStep(name, filter));
    ExecOneMore(maxLen, EMPTY, s1, PublishStep(Some(e), 0));
    ExecOneMore(maxLen, EMPTY, s2, ReadStep(0, 1));
    ExecOneMore(maxLen, EMPTY, s3, ProcessStep(0, true));
    ExecOneMore(maxLen, EMPTY, s4, AbandonStep(0));
  }

  lemma CrashRunIsStuck(maxLen: nat, name: string, filter: Filter, e: Event)
    requires Matches(filter, e)
    ensures var st := Exec(maxLen, EMPTY, CrashRun(name, filter, e));
            Stuck(st, 0, 0, name, 0) && |st.consumers| == 1
  {
    CrashRunStates(maxLen, name, filter, e);
    var st2 := Publish(maxLen, Subscribe(EMPTY, name, filter), Some(e), 0);
    assert st2.log == [Some(e)] && st2.consumers == [Consumer(name, filter, true, [], 0, false, [], {})];
    var st3 := Read(st2, 0, 1);
    assert st3.consumers[0].taken == [0];
    var st4 := Process(st3, 0, true);
    assert st4.consumers[0].awaiting && 0 in st4.groups[name].pending;
    assert Stuck(Abandon(st4, 0), 0, 0, name, 0);
  }

  /**
   The documentation's at-least-once delivery fails for every event: whatever happens after the crash, the
   event stays pending and no later consumer of the group ever gets it.
   */
  lemma CrashedEventIsNotRedelivered(maxLen: nat, name: string, filter: Filter, e: Event, later: seq<Step>)
    requires Matches(filter, e)
    ensures var st := Exec(maxLen, EMPTY, CrashRun(name, filter, e) + later);
            && name in st.groups && 0 in st.groups[name].pending
            && forall d :: 1 <= d < |st.consumers| && st.consumers[d].group == name ==> 0 !in st.consumers[d].yielded
  {
    var st := Exec(maxLen, EMPTY, CrashRun(name, filter, e));
    CrashRunIsStuck(maxLen, name, filter, e);
    ReachableInv(maxLen, CrashRun(name, filter, e));
    PendingIsNeverYieldedAgain(maxLen, st, later, 0, 0, name, 0);
    ExecAppends(maxLen, EMPTY, CrashRun(name, filter, e), later);
  }

  // ---------------------------------------------------------------- no loss under bounded lag

  /** No entry the group still has to get is dropped by this change. */
  ghost predicate LosesNothing(st: State, st': State, name: string)
    requires name in st.groups
  {
    forall i: nat :: st.groups[name].start <= i && st.lo <= i < st'.lo ==> i in st.groups[name].owner
  }

  /** Counting the new entry, the group lags by at most maxLen, or the stream is not longer than maxLen. */
  predicate KeepsUp(maxLen: nat, st: State, name: string)
    requires name in st.groups
  {
    || |st.log| + 1 <= st.groups[name].cursor + maxLen
    || |st.log| + 1 <= st.lo + maxLen
  }

  /** One publish is safe for a group, however Redis trims within its promise, exactly when the group keeps up. */
  lemma PublishIsSafeIff(maxLen: nat, st: State, entry: Entry, name: string)
    requires Inv(st) && name in st.groups
    ensures (forall lo': nat :: TrimAllowed(maxLen, |st.log| + 1, st.lo, lo') ==>
              LosesNothing(st, Publish(maxLen, st, entry, lo'), name))
       <==> KeepsUp(maxLen, st, name)
  {
    var g := st.groups[name];
    assert GroupOk(|st.log|, st.lo, g);
    if KeepsUp(maxLen, st, name) {
      forall lo': nat | TrimAllowed(maxLen, |st.log| + 1, st.lo, lo')
        ensures LosesNothing(st, Publish(maxLen, st, entry, lo'), name)
      {
        assert lo' == st.lo || lo' <= g.cursor || lo' <= st.lo;
      }
    } else {
      var lo' := |st.log| + 1 - maxLen;
      assert TrimAllowed(maxLen, |st.log| + 1, st.lo, lo');
      var i := if g.cursor < st.lo then st.lo else g.cursor;
      assert g.start <= i && st.lo <= i < lo' && i !in g.owner;
      assert !LosesNothing(st, Publish(maxLen, st, entry, lo'), name);
    }
  }

  /** The group keeps up at every publish of the run. */
  ghost predicate AlwaysKeepsUp(maxLen: nat, st: State, steps: seq<Step>, name: string) {
    steps == [] ||
    var mid := Exec(maxLen, st, steps[..|steps| - 1]);
    && AlwaysKeepsUp(maxLen, st, steps[..|steps| - 1], name)
    && (steps[|steps| - 1].PublishStep? ==> name in mid.groups && KeepsUp(maxLen, mid, name))
  }

  /** Everything from `from` on has been delivered to the group or is still in the stream. */
  ghost predicate Lossless(st: State, name: string, from: nat) {
    && name in st.groups && st.groups[name].start <= from
    && forall i: nat :: from <= i < |st.log| ==> i in st.groups[name].owner || i >= st.lo
  }

  lemma LosslessOverStep(maxLen: nat, st: State, step: Step, name: string, from: nat)
    requires Inv(st) && Lossless(st, name, from)
    requires step.PublishStep? ==> KeepsUp(maxLen, st, name)
    ensures Lossless(Next(maxLen, st, step), name, from)
  {
    var st' := Next(maxLen, st, step);
    GroupOverStep(maxLen, st, step, name);
    match step
    case PublishStep(entry, lo') =>
      if TrimAllowed(maxLen, |st.log| + 1, st.lo, lo') {
        PublishIsSafeIff(maxLen, st, entry, name);
        assert st' == Publish(maxLen, st, entry, lo');
        assert LosesNothing(st, st', name);
        assert GroupOk(|st.log|, st.lo, st.groups[name]);
      }
    case _ =>
      LogUnchanged(maxLen, st, step);
  }

  lemma LogUnchanged(maxLen: nat, st: State, step: Step)
    requires !step.PublishStep?
    ensures Next(maxLen, st, step).log == st.log && Next(maxLen, st, step).lo == st.lo
  {
  }

  /**
   No loss under bounded lag: while the group keeps up, every entry from `from` on is delivered to it or
   still in the stream, so what it has been delivered has no gap up to its cursor.
   */
  lemma {:induction false} NoLossWhileKeepingUp(maxLen: nat, st: State, steps: seq<Step>, name: string, from: nat)
    requires Inv(st) && Lossless(st, name, from) && AlwaysKeepsUp(maxLen, st, steps, name)
    ensures var st' := Exec(maxLen, st, steps);
            && Lossless(st', name, from)
            && forall i: nat :: from <= i < st'.groups[name].cursor ==> i in st'.groups[name].owner
  {
    var st' := Exec(maxLen, st, steps);
    if steps != [] {
      NoLossWhileKeepingUp(maxLen, st, steps[..|steps| - 1], name, from);
      RunKeeps(maxLen, st, steps[..|steps| - 1]);
      LosslessOverStep(maxLen, Exec(maxLen, st, steps[..|steps| - 1]), steps[|steps| - 1], name, from);
    }
    RunKeeps(maxLen, st, steps);
    assert GroupOk(|st'.log|, st'.lo, st'.groups[name]);
  }

  /** A new group has lost nothing of what the stream still holds from its start. */
  lemma NewGroupIsLossless(st: State, name: string, latest: bool)
    requires Inv(st) && name !in st.groups
    ensures var st' := EnsureGroup(st, name, latest);
            Lossless(st', name, if latest then |st.log| else st.lo)
  {
  }
}
