/** `EventBus` as code: the commands it sends and the `consume` loop, proved to be runs of the model. */
module EventBusClient {
  import opened Common
  import opened EventBus
  import opened EventBusTheorems

  /** Where the next XREADGROUP of a group starts. */
  function NextUnread(st: State, name: string): nat {
    if name in st.groups && st.groups[name].cursor >= st.lo then st.groups[name].cursor else st.lo
  }

  function Min(a: nat, b: nat): nat {
    if a <= b then a else b
  }

  function Available(st: State, name: string): nat {
    if |st.log| <= NextUnread(st, name) then 0 else |st.log| - NextUnread(st, name)
  }

  lemma OneMoreBatch(available: nat, round: nat, size: nat)
    ensures var taken := Min(available, round * size);
            taken + Min(size, available - taken) == Min(available, (round + 1) * size)
  {
  }

  lemma SpanGrows(from: nat, n: nat, m: nat)
    ensures Span(from, n) + Span(from + n, m) == Span(from, n + m)
  {
  }

  /** Consumer c, between two messages, has taken the entries from `from` on without a gap. */
  ghost predicate Working(st: State, c: nat, group: string, filter: Filter, from: nat) {
    && c < |st.consumers| && group in st.groups
    && var k := st.consumers[c];
       && k.live && !k.awaiting && k.group == group && k.filter == filter && k.done <= |k.taken|
       && k.taken == Span(from, |k.taken|)
       && (k.taken == [] || from + |k.taken| <= |st.log|)
  }

  /** The consumer is gone with an event in hand. */
  ghost predicate Gone(st: State, c: nat, group: string, filter: Filter) {
    && c < |st.consumers|
    && var k := st.consumers[c];
       !k.live && k.awaiting && k.group == group && k.filter == filter
  }

  /** These events are what the consumer has yielded. */
  ghost predicate Collected(log: seq<Entry>, k: Consumer, events: seq<Event>) {
    && |events| == |k.yielded|
    && forall j :: 0 <= j < |events| ==> k.yielded[j] < |log| && log[k.yielded[j]] == Some(events[j])
  }

  /** What stays while the consumer works on its batch. */
  ghost predicate SameBatch(st: State, st': State, c: nat, group: string) {
    && |st'.consumers| == |st.consumers| && st'.log == st.log && NextUnread(st', group) == NextUnread(st, group)
    && c < |st.consumers| && st'.consumers[c].taken == st.consumers[c].taken
  }

  // ---------------------------------------------------------------- one message

  /** Process the entry; if it was yielded the caller comes back for the next, or does not. */
  function Served(st: State, c: nat, ok: bool, back: bool): State {
    var st1 := Process(st, c, ok);
    if c >= |st1.consumers| || !st1.consumers[c].awaiting then st1
    else if back then Resume(st1, c, ok)
    else Abandon(st1, c)
  }

  function EventsAfter(log: seq<Entry>, k: Consumer, events: seq<Event>): seq<Event> {
    if k.done < |k.taken| && Wanted(log, k.filter, k.taken[k.done]) then events + [log[k.taken[k.done]].value]
    else events
  }

  lemma AckEffect(st: State, c: nat, ok: bool)
    requires AtWork(st, c)
    ensures var k, st' := st.consumers[c], AckNext(st, c, ok);
            && SameBatch(st, st', c, k.group) && k.group in st'.groups
            && st'.consumers[c].done == k.done + 1 && !st'.consumers[c].awaiting && st'.consumers[c].live
            && st'.consumers[c].group == k.group && st'.consumers[c].filter == k.filter
            && st'.consumers[c].yielded == k.yielded
  {
  }

  lemma SkipEffect(st: State, c: nat, group: string, filter: Filter, from: nat, ok: bool, back: bool)
    requires Working(st, c, group, filter, from) && st.consumers[c].done < |st.consumers[c].taken|
    requires !Wanted(st.log, filter, st.consumers[c].taken[st.consumers[c].done])
    ensures var st' := Served(st, c, ok, back);
            && SameBatch(st, st', c, group) && Working(st', c, group, filter, from)
            && st'.consumers[c].done == st.consumers[c].done + 1 && st'.consumers[c].yielded == st.consumers[c].yielded
  {
    var k := st.consumers[c];
    if st.log[k.taken[k.done]].Some? {
      AckEffect(st, c, ok);
      assert Process(st, c, ok) == AckNext(st, c, ok);
    } else {
      assert Process(st, c, ok) == st.(consumers := st.consumers[c := k.(done := k.done + 1)]);
    }
  }

  lemma YieldEffect(st: State, c: nat, group: string, filter: Filter, from: nat, ok: bool, back: bool)
    requires Working(st, c, group, filter, from) && st.consumers[c].done < |st.consumers[c].taken|
    requires Wanted(st.log, filter, st.consumers[c].taken[st.consumers[c].done])
    ensures var k, st' := st.consumers[c], Served(st, c, ok, back);
            && SameBatch(st, st', c, group) && st'.consumers[c].yielded == k.yielded + [k.taken[k.done]]
            && (back ==> Working(st', c, group, filter, from) && st'.consumers[c].done == k.done + 1)
            && (!back ==> Gone(st', c, group, filter))
  {
    var k := st.consumers[c];
    var st1 := Process(st, c, ok);
    assert st1 == st.(consumers := st.consumers[c := k.(awaiting := true, yielded := k.yielded + [k.taken[k.done]])]);
    if back {
      AckEffect(st1, c, ok);
      assert Served(st, c, ok, back) == AckNext(st1, c, ok);
    }
  }

  lemma ServedEffect(st: State, c: nat, group: string, filter: Filter, from: nat, ok: bool, back: bool,
                     events: seq<Event>)
    requires Working(st, c, group, filter, from) && st.consumers[c].done < |st.consumers[c].taken|
    requires Collected(st.log, st.consumers[c], events)
    requires !back ==> Wanted(st.log, filter, st.consumers[c].taken[st.consumers[c].done])
    ensures var k, st' := st.consumers[c], Served(st, c, ok, back);
            && SameBatch(st, st', c, group)
            && Collected(st'.log, st'.consumers[c], EventsAfter(st.log, k, events))
            && (back ==> Working(st', c, group, filter, from) && st'.consumers[c].done == k.done + 1)
            && (!back ==> Gone(st', c, group, filter))
  {
    if Wanted(st.log, filter, st.consumers[c].taken[st.consumers[c].done]) {
      YieldEffect(st, c, group, filter, from, ok, back);
    } else {
      SkipEffect(st, c, group, filter, from, ok, back);
    }
  }

  lemma ServedSteps(maxLen: nat, start: State, before: seq<Step>, st: State, c: nat, ok: bool, back: bool)
    returns (steps: seq<Step>)
    requires st == Exec(maxLen, start, before)
    ensures Exec(maxLen, start, steps) == Served(st, c, ok, back)
  {
    var process, next := ProcessStep(c, ok), if back then ResumeStep(c, ok) else AbandonStep(c);
    var st1 := Process(st, c, ok);
    steps := before + [process];
    assert Exec(maxLen, start, steps) == st1 by {
      ExecOneMore(maxLen, start, before, process);
    }
    if c < |st1.consumers| && st1.consumers[c].awaiting {
      assert Next(maxLen, st1, next) == Served(st, c, ok, back);
      ExecOneMore(maxLen, start, steps, next);
      steps := steps + [next];
    }
  }

  // ---------------------------------------------------------------- one read

  lemma ReadGives(st: State, c: nat, count: nat)
    requires c < |st.consumers| && st.consumers[c].live && !st.consumers[c].awaiting
    requires st.consumers[c].group in st.groups && st.consumers[c].done == |st.consumers[c].taken|
    ensures var k, st' := st.consumers[c], Read(st, c, count);
            var n := Min(count, Available(st, k.group));
            && st'.log == st.log && st'.lo == st.lo && k.group in st'.groups
            && st'.consumers == st.consumers[c := k.(taken := k.taken + Span(NextUnread(st, k.group), n))]
            && NextUnread(st', k.group) == NextUnread(st, k.group) + n
  {
    var k, n := st.consumers[c], Min(count, Available(st, st.consumers[c].group));
    if n == 0 {
      assert k.taken + [] == k.taken;
      assert st.consumers[c := k] == st.consumers;
    } else {
      var g' := Delivered(st.groups[k.group], c, NextUnread(st, k.group), n);
      assert Read(st, c, count).groups == st.groups[k.group := g'];
    }
  }

  lemma TakesMore(st: State, st': State, c: nat, group: string, filter: Filter, from: nat, n: nat)
    requires Working(st, c, group, filter, from) && group in st'.groups && st'.log == st.log
    requires c < |st'.consumers| && n <= Available(st, group) && NextUnread(st, group) == from + |st.consumers[c].taken|
    requires var k := st.consumers[c];
             st'.consumers[c] == k.(taken := k.taken + Span(from + |k.taken|, n))
    ensures Working(st', c, group, filter, from)
  {
    SpanGrows(from, |st.consumers[c].taken|, n);
  }

  lemma ReadEffect(st: State, c: nat, group: string, filter: Filter, from: nat, count: nat)
    requires Working(st, c, group, filter, from) && st.consumers[c].done == |st.consumers[c].taken|
    requires NextUnread(st, group) == from + |st.consumers[c].taken|
    ensures var k, st' := st.consumers[c], Read(st, c, count);
            var n := Min(count, Available(st, group));
            && |st'.consumers| == |st.consumers| && st'.log == st.log && Working(st', c, group, filter, from)
            && st'.consumers[c] == k.(taken := k.taken + Span(NextUnread(st, group), n))
            && NextUnread(st', group) == NextUnread(st, group) + n
  {
    ReadGives(st, c, count);
    TakesMore(st, Read(st, c, count), c, group, filter, from, Min(count, Available(st, group)));
  }

  lemma ReadSteps(maxLen: nat, start: State, before: seq<Step>, st: State, c: nat, count: nat)
    requires st == Exec(maxLen, start, before)
    ensures Exec(maxLen, start, before + [ReadStep(c, count)]) == Read(st, c, count)
  {
    ExecOneMore(maxLen, start, before, ReadStep(c, count));
  }

  class Bus {
    const maxLen: nat
    var log: seq<Entry>
    var lo: nat
    var groups: map<string, Group>
    var consumers: seq<Consumer>

    constructor (maxLen: nat)
      ensures Now() == EMPTY && this.maxLen == maxLen
    {
      this.maxLen := maxLen;
      log, lo, groups, consumers := [], 0, map[], [];
    }

    function Now(): State
      reads this
    {
      State(log, lo, groups, consumers)
    }

    /** XADD with approximate MAXLEN; the parameter is how far Redis trims. */
    method Publish(entry: Entry, trimmedTo: nat)
      requires TrimAllowed(maxLen, |log| + 1, lo, trimmedTo)
      modifies this
      ensures Now() == Next(maxLen, old(Now()), PublishStep(entry, trimmedTo))
      ensures log == old(log) + [entry] && groups == old(groups) && consumers == old(consumers)
      ensures lo == old(lo) || (old(lo) <= lo <= |log| && |log| - lo >= maxLen)
    {
      log := log + [entry];
      lo := trimmedTo;
    }

    method EnsureGroup(group: string, latest: bool)
      modifies this
      ensures Now() == Next(maxLen, old(Now()), EnsureGroupStep(group, latest))
      ensures group in old(groups) ==> groups == old(groups)
      ensures group !in old(groups) ==>
                && group in groups && groups[group].cursor == (if latest then |log| else 0)
                && groups[group].pending == {} && groups == old(groups)[group := groups[group]]
    {
      if group !in groups {
        var at := if latest then |log| else 0;
        groups := groups[group := Group(at, at, {}, {}, map[])];
      }
    }

    method ReadGroup(c: nat, count: nat) returns (batch: seq<nat>)
      requires c < |consumers| && consumers[c].live && !consumers[c].awaiting && consumers[c].group in groups
      requires consumers[c].done == |consumers[c].taken|
      modifies this
      ensures Now() == Read(old(Now()), c, count)
      ensures var st, group := old(Now()), old(consumers[c].group);
              batch == Span(NextUnread(st, group), Min(count, Available(st, group)))
    {
      var g := groups[consumers[c].group];
      var from := if g.cursor < lo then lo else g.cursor;
      var n := if |log| <= from then 0 else if |log| - from < count then |log| - from else count;
      batch := Span(from, n);
      if n > 0 {
        groups := groups[consumers[c].group := Delivered(g, c, from, n)];
        consumers := consumers[c := consumers[c].(taken := consumers[c].taken + batch)];
      }
    }

    /** XACK of the entry at hand; ok is whether the command went through. */
    method Acknowledge(c: nat, ok: bool)
      requires AtWork(Now(), c)
      modifies this
      ensures Now() == AckNext(old(Now()), c, ok)
    {
      var k := consumers[c];
      var i := k.taken[k.done];
      if ok {
        var g := groups[k.group];
        groups := groups[k.group := g.(pending := g.pending - {i}, acked := g.acked + {i})];
        consumers := consumers[c := k.(done := k.done + 1, awaiting := false)];
      } else {
        consumers := consumers[c := k.(done := k.done + 1, awaiting := false, failures := k.failures + {k.done})];
      }
    }

    /** One round of the inner loop up to the yield: the event to yield, if there is one. */
    method Handle(c: nat, ok: bool) returns (event: Entry)
      requires AtWork(Now(), c) && !consumers[c].awaiting
      modifies this
      ensures Now() == Process(old(Now()), c, ok)
      ensures log == old(log)
      ensures var i := old(consumers[c].taken[consumers[c].done]);
              event == if Wanted(log, old(consumers[c].filter), i) then log[i] else None
      ensures var f, entry := old(consumers[c].filter), log[old(consumers[c].taken[consumers[c].done])];
              event.Some? <==>
                && entry.Some?
                && (f.types == {} || entry.value.kind in f.types)
                && (f.chargePoints == {} || entry.value.chargePoint in f.chargePoints)
                && (f.sites == {} || entry.value.site in f.sites)
      ensures event.Some? ==> groups == old(groups)
      ensures event.None? && log[old(consumers[c].taken[consumers[c].done])].None? ==> groups == old(groups)
      ensures event.None? && log[old(consumers[c].taken[consumers[c].done])].Some? && ok ==>
                var name, i := old(consumers[c].group), old(consumers[c].taken[consumers[c].done]);
                name in groups && i in groups[name].acked && i !in groups[name].pending
    {
      var k := consumers[c];
      var entry := log[k.taken[k.done]];
      if entry.None? {
        consumers := consumers[c := k.(done := k.done + 1)];
        return None;
      }
      var e := entry.value;
      if k.filter.types != {} && e.kind !in k.filter.types {
        Acknowledge(c, ok);
        return None;
      }
      if k.filter.chargePoints != {} && e.chargePoint !in k.filter.chargePoints {
        Acknowledge(c, ok);
        return None;
      }
      if k.filter.sites != {} && e.site !in k.filter.sites {
        Acknowledge(c, ok);
        return None;
      }
      consumers := consumers[c := k.(awaiting := true, yielded := k.yielded + [k.taken[k.done]])];
      return entry;
    }

    /** One message: yield it when it matches, and go on when the caller comes back. */
    method Message(c: nat, i: nat, events: seq<Event>, acks: nat -> bool, resumes: nat -> bool)
      returns (events': seq<Event>, back: bool)
      requires AtWork(Now(), c) && !consumers[c].awaiting && consumers[c].taken[consumers[c].done] == i
      modifies this
      ensures Now() == Served(old(Now()), c, acks(i), back)
      ensures events' == EventsAfter(old(log), old(consumers[c]), events)
      ensures !back ==> Wanted(old(log), old(consumers[c].filter), i)
    {
      events', back := events, true;
      var event := Handle(c, acks(i));
      if event.Some? {
        events' := events + [event.value];
        if resumes(|events'|) {
          Acknowledge(c, acks(i));
        } else {
          consumers := consumers[c := consumers[c].(live := false)];
          back := false;
        }
      }
    }

    /** The messages of one batch. */
    method Batch(c: nat, group: string, filter: Filter, ghost from: nat, batch: seq<nat>, events: seq<Event>,
                 acks: nat -> bool, resumes: nat -> bool, ghost start: State, ghost before: seq<Step>)
      returns (events': seq<Event>, back: bool, ghost steps: seq<Step>)
      requires Working(Now(), c, group, filter, from) && Collected(log, consumers[c], events)
      requires consumers[c].done + |batch| == |consumers[c].taken| && consumers[c].taken[consumers[c].done..] == batch
      requires Now() == Exec(maxLen, start, before)
      modifies this
      ensures Now() == Exec(maxLen, start, steps) && SameBatch(old(Now()), Now(), c, group)
      ensures Collected(log, consumers[c], events')
      ensures back ==> Working(Now(), c, group, filter, from) && consumers[c].done == |consumers[c].taken|
      ensures !back ==> Gone(Now(), c, group, filter)
    {
      events', back, steps := events, true, before;
      ghost var first, done := Now(), consumers[c].done;
      for p := 0 to |batch|
        invariant SameBatch(first, Now(), c, group) && Working(Now(), c, group, filter, from)
        invariant Collected(log, consumers[c], events') && consumers[c].done == done + p
        invariant Now() == Exec(maxLen, start, steps)
      {
        ghost var st, collected := Now(), events';
        assert consumers[c].taken[done + p] == batch[p] by {
          assert first.consumers[c].taken[done..][p] == batch[p];
        }
        events', back := Message(c, batch[p], events', acks, resumes);
        ServedEffect(st, c, group, filter, from, acks(batch[p]), back, collected);
        steps := ServedSteps(maxLen, start, steps, st, c, acks(batch[p]), back);
        if !back {
          return;
        }
      }
    }

    /** One read and its batch. */
    method Round(c: nat, group: string, filter: Filter, ghost from: nat, batchSize: nat, events: seq<Event>,
                 acks: nat -> bool, resumes: nat -> bool, ghost start: State, ghost before: seq<Step>)
      returns (events': seq<Event>, back: bool, ghost steps: seq<Step>)
      requires Working(Now(), c, group, filter, from) && Collected(log, consumers[c], events)
      requires consumers[c].done == |consumers[c].taken| && NextUnread(Now(), group) == from + |consumers[c].taken|
      requires Now() == Exec(maxLen, start, before)
      modifies this
      ensures Now() == Exec(maxLen, start, steps)
      ensures |consumers| == old(|consumers|) && log == old(log) && c < |consumers|
      ensures Collected(log, consumers[c], events') && consumers[c].taken == Span(from, |consumers[c].taken|)
      ensures |consumers[c].taken| == old(|consumers[c].taken|) + Min(batchSize, Available(old(Now()), group))
      ensures NextUnread(Now(), group) == from + |consumers[c].taken|
      ensures back ==> Working(Now(), c, group, filter, from) && consumers[c].done == |consumers[c].taken|
      ensures !back ==> Gone(Now(), c, group, filter)
    {
      ghost var st := Now();
      ReadEffect(st, c, group, filter, from, batchSize);
      ReadSteps(maxLen, start, before, st, c, batchSize);
      var batch := ReadGroup(c, batchSize);
      steps := before + [ReadStep(c, batchSize)];
      events', back, steps := Batch(c, group, filter, from, batch, events, acks, resumes, start, steps);
    }

    /** What `consume` does before its loop. */
    method Subscribe(group: string, filter: Filter) returns (c: nat)
      modifies this
      ensures Now() == Next(maxLen, old(Now()), SubscribeStep(group, filter))
      ensures c == old(|consumers|) && |consumers| == c + 1 && log == old(log)
      ensures consumers[c] == Consumer(group, filter, true, [], 0, false, [], {}) && group in groups
      ensures NextUnread(Now(), group) == NextUnread(old(Now()), group)
    {
      c := |consumers|;
      EnsureGroup(group, false);
      consumers := consumers + [Consumer(group, filter, true, [], 0, false, [], {})];
    }

    /**
     The consume loop for the given number of reads.  `acks` says which XACKs go through, `resumes` whether
     the caller comes back after its n-th event; when it does not, the consumer is gone.  Nobody else uses
     the stream meanwhile.
     */
    method Consume(group: string, filter: Filter, batchSize: nat, rounds: nat, acks: nat -> bool, resumes: nat -> bool)
      returns (events: seq<Event>, finished: bool, ghost steps: seq<Step>)
      modifies this
      ensures Now() == Exec(maxLen, old(Now()), steps)
      ensures log == old(log) && |consumers| == old(|consumers|) + 1
      ensures var k := consumers[old(|consumers|)];
              && k.group == group && k.filter == filter && Collected(log, k, events)
              && k.taken == Span(NextUnread(old(Now()), group), |k.taken|)
              && (finished ==> k.done == |k.taken| == Min(Available(old(Now()), group), rounds * batchSize))
              && (!finished ==> !k.live && k.awaiting)
    {
      ghost var start := Now();
      ExecOneMore(maxLen, start, [], SubscribeStep(group, filter));
      steps := [] + [SubscribeStep(group, filter)];
      var c := Subscribe(group, filter);
      ghost var from, available := NextUnread(start, group), Available(start, group);
      events, finished := [], true;
      for round := 0 to rounds
        invariant |consumers| == c + 1 && log == old(log)
        invariant Working(Now(), c, group, filter, from) && Collected(log, consumers[c], events)
        invariant consumers[c].done == |consumers[c].taken| == Min(available, round * batchSize)
        invariant NextUnread(Now(), group) == from + |consumers[c].taken|
        invariant Now() == Exec(maxLen, start, steps)
      {
        OneMoreBatch(available, round, batchSize);
        events, finished, steps := Round(c, group, filter, from, batchSize, events, acks, resumes, start, steps);
        if !finished {
          return;
        }
      }
    }
  }
}
