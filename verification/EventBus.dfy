/**
 The event bus: a Redis stream with consumer groups, and the protocol `consume` runs on top of it.

 The stream is the log of all entries ever added, of which those before `lo` have been trimmed.  A group
 has a cursor and its pending entries; a consumer is one running `consume` call.  Steps are the Redis
 commands and what the loop does between them; producers, groups and consumers interleave freely.
 */
module EventBus {
  import opened Common

  datatype Event = Event(kind: string, chargePoint: string, site: string)

  /** None is an entry that `Event.from_stream` cannot decode. */
  type Entry = Option<Event>

  /** An empty set stands for no filter, as an absent one does. */
  datatype Filter = Filter(types: set<string>, chargePoints: set<string>, sites: set<string>)

  /**
   `pending` is the group's pending entries list.  `start`, `acked` and `owner` (the consumer each entry
   was delivered to) are history.
   */
  datatype Group = Group(start: nat, cursor: nat, pending: set<nat>, acked: set<nat>, owner: map<nat, nat>)

  /**
   `taken[done..]` is the rest of the batch; with `awaiting`, its first entry has been yielded and the caller
   is at work on it.  `yielded` and `failures` (the positions in `taken` whose XACK raised) are history.
   */
  datatype Consumer = Consumer(
    group: string, filter: Filter, live: bool, taken: seq<nat>, done: nat, awaiting: bool,
    yielded: seq<nat>, failures: set<nat>)

  datatype State = State(log: seq<Entry>, lo: nat, groups: map<string, Group>, consumers: seq<Consumer>)

  const EMPTY := State([], 0, map[], [])

  predicate Matches(f: Filter, e: Event) {
    && (f.types == {} || e.kind in f.types)
    && (f.chargePoints == {} || e.chargePoint in f.chargePoints)
    && (f.sites == {} || e.site in f.sites)
  }

  predicate Wanted(log: seq<Entry>, f: Filter, i: nat) {
    i < |log| && log[i].Some? && Matches(f, log[i].value)
  }

  // ---------------------------------------------------------------- steps

  /** Approximate trimming may drop old entries, but never leaves fewer than maxLen. */
  predicate TrimAllowed(maxLen: nat, length: nat, lo: nat, lo': nat) {
    lo <= lo' <= length && (lo' == lo || length - lo' >= maxLen)
  }

  function Publish(maxLen: nat, st: State, entry: Entry, lo': nat): State {
    if TrimAllowed(maxLen, |st.log| + 1, st.lo, lo') then st.(log := st.log + [entry], lo := lo') else st
  }

  /** XGROUP CREATE at "0" or "$"; an existing group keeps its position. */
  function EnsureGroup(st: State, group: string, latest: bool): State {
    if group in st.groups then st
    else
      var at := if latest then |st.log| else 0;
      st.(groups := st.groups[group := Group(at, at, {}, {}, map[])])
  }

  function Subscribe(st: State, group: string, filter: Filter): State {
    EnsureGroup(st, group, false).(consumers := st.consumers + [Consumer(group, filter, true, [], 0, false, [], {})])
  }

  function Span(from: nat, n: nat): (s: seq<nat>)
    ensures |s| == n && forall j :: 0 <= j < n ==> s[j] == from + j
    ensures forall i :: i in s <==> from <= i < from + n
  {
    if n == 0 then [] else Span(from, n - 1) + [from + n - 1]
  }

  function Delivered(g: Group, c: nat, from: nat, n: nat): Group {
    g.(cursor := from + n,
       pending := g.pending + (set i | i in Span(from, n)),
       owner := g.owner + (map i | i in Span(from, n) :: c))
  }

  /** XREADGROUP with ">": only entries after the cursor, at most count of them. */
  function Read(st: State, c: nat, count: nat): State {
    if c >= |st.consumers| then st
    else
      var k := st.consumers[c];
      if !k.live || k.awaiting || k.done != |k.taken| || k.group !in st.groups then st
      else
        var g := st.groups[k.group];
        var from := if g.cursor < st.lo then st.lo else g.cursor;
        var n := if |st.log| <= from then 0 else if |st.log| - from < count then |st.log| - from else count;
        if n == 0 then st
        else
          st.(groups := st.groups[k.group := Delivered(g, c, from, n)],
              consumers := st.consumers[c := k.(taken := k.taken + Span(from, n))])
  }

  function Acked(g: Group, i: nat): Group {
    g.(pending := g.pending - {i}, acked := g.acked + {i})
  }

  /** XACK of the entry at hand, which may raise; either way the loop goes on to the next. */
  function AckNext(st: State, c: nat, ok: bool): State
    requires c < |st.consumers| && st.consumers[c].done < |st.consumers[c].taken|
    requires st.consumers[c].group in st.groups
  {
    var k := st.consumers[c];
    var i := k.taken[k.done];
    if ok then
      st.(groups := st.groups[k.group := Acked(st.groups[k.group], i)],
          consumers := st.consumers[c := k.(done := k.done + 1, awaiting := false)])
    else
      st.(consumers := st.consumers[c := k.(done := k.done + 1, awaiting := false, failures := k.failures + {k.done})])
  }

  /** The consumer still has an entry of its batch in hand. */
  predicate AtWork(st: State, c: nat) {
    && c < |st.consumers| && st.consumers[c].live && st.consumers[c].done < |st.consumers[c].taken|
    && st.consumers[c].group in st.groups && st.consumers[c].taken[st.consumers[c].done] < |st.log|
  }

  /** Decode the next entry, filter it, and yield it or acknowledge it. */
  function Process(st: State, c: nat, ok: bool): State {
    if !AtWork(st, c) || st.consumers[c].awaiting then st
    else
      var k := st.consumers[c];
      var i := k.taken[k.done];
      if st.log[i].None? then st.(consumers := st.consumers[c := k.(done := k.done + 1)])
      else if Matches(k.filter, st.log[i].value) then
        st.(consumers := st.consumers[c := k.(awaiting := true, yielded := k.yielded + [i])])
      else AckNext(st, c, ok)
  }

  /** The caller asks for the next event: the yielded one is acknowledged. */
  function Resume(st: State, c: nat, ok: bool): State {
    if !AtWork(st, c) || !st.consumers[c].awaiting then st else AckNext(st, c, ok)
  }

  /** The consumer is cancelled, or its caller raises and drops it. */
  function Abandon(st: State, c: nat): State {
    if c >= |st.consumers| then st
    else st.(consumers := st.consumers[c := st.consumers[c].(live := false)])
  }

  datatype Step =
    | PublishStep(entry: Entry, lo: nat)
    | EnsureGroupStep(group: string, latest: bool)
    | SubscribeStep(group: string, filter: Filter)
    | ReadStep(c: nat, count: nat)
    | ProcessStep(c: nat, ok: bool)
    | ResumeStep(c: nat, ok: bool)
    | AbandonStep(c: nat)

  function Next(maxLen: nat, st: State, step: Step): State {
    match step
    case PublishStep(entry, lo) => Publish(maxLen, st, entry, lo)
    case EnsureGroupStep(group, latest) => EnsureGroup(st, group, latest)
    case SubscribeStep(group, filter) => Subscribe(st, group, filter)
    case ReadStep(c, count) => Read(st, c, count)
    case ProcessStep(c, ok) => Process(st, c, ok)
    case ResumeStep(c, ok) => Resume(st, c, ok)
    case AbandonStep(c) => Abandon(st, c)
  }

  function Exec(maxLen: nat, st: State, steps: seq<Step>): State {
    if steps == [] then st else Next(maxLen, Exec(maxLen, st, steps[..|steps| - 1]), steps[|steps| - 1])
  }

  // ---------------------------------------------------------------- invariant

  /** The entries a filter lets through, in order. */
  function Yielded(log: seq<Entry>, f: Filter, taken: seq<nat>): seq<nat> {
    if taken == [] then []
    else
      var last := taken[|taken| - 1];
      Yielded(log, f, taken[..|taken| - 1]) + (if Wanted(log, f, last) then [last] else [])
  }

  ghost predicate GroupOk(length: nat, lo: nat, g: Group) {
    && g.start <= g.cursor <= length
    && g.owner.Keys == g.pending + g.acked && g.pending !! g.acked
    && (forall i :: i in g.owner ==> g.start <= i < g.cursor)
    && (forall i: nat :: g.start <= i < g.cursor && i !in g.owner ==> i < lo)
  }

  /** How far the consumer got in its batches, counting the entry it has yielded. */
  function Seen(k: Consumer): nat {
    if k.awaiting then k.done + 1 else k.done
  }

  ghost predicate TakenOk(g: Group, c: nat, k: Consumer) {
    && (forall j :: 0 <= j < |k.taken| ==> k.taken[j] in g.owner && g.owner[k.taken[j]] == c)
    && (forall j, l :: 0 <= j < l < |k.taken| ==> k.taken[j] < k.taken[l])
  }

  /** What has been processed is acknowledged, unless malformed or its XACK raised; the rest is pending. */
  ghost predicate ProgressOk(log: seq<Entry>, g: Group, k: Consumer)
    requires Seen(k) <= |k.taken|
  {
    && (forall j :: 0 <= j < k.done ==>
          k.taken[j] < |log| && (k.taken[j] in g.acked <==> log[k.taken[j]].Some? && j !in k.failures))
    && (forall j :: k.done <= j < |k.taken| ==> k.taken[j] in g.pending)
    && (forall j :: j in k.failures ==> j < k.done)
  }

  ghost predicate YieldedOk(log: seq<Entry>, k: Consumer)
    requires Seen(k) <= |k.taken|
  {
    && (k.awaiting ==> Wanted(log, k.filter, k.taken[k.done]))
    && k.yielded == Yielded(log, k.filter, k.taken[..Seen(k)])
  }

  ghost predicate ConsumerOk(log: seq<Entry>, g: Group, c: nat, k: Consumer) {
    Seen(k) <= |k.taken| && TakenOk(g, c, k) && ProgressOk(log, g, k) && YieldedOk(log, k)
  }

  ghost predicate ConsumersOk(st: State) {
    forall c :: 0 <= c < |st.consumers| ==>
      st.consumers[c].group in st.groups && ConsumerOk(st.log, st.groups[st.consumers[c].group], c, st.consumers[c])
  }

  /** Every delivered entry was taken by the consumer it was delivered to. */
  ghost predicate OwnersOk(st: State) {
    forall name, i :: name in st.groups && i in st.groups[name].owner ==>
      var c := st.groups[name].owner[i];
      c < |st.consumers| && st.consumers[c].group == name && i in st.consumers[c].taken
  }

  ghost predicate Inv(st: State) {
    && st.lo <= |st.log|
    && (forall name :: name in st.groups ==> GroupOk(|st.log|, st.lo, st.groups[name]))
    && ConsumersOk(st)
    && OwnersOk(st)
  }

  lemma {:induction false} YieldedMembers(log: seq<Entry>, f: Filter, taken: seq<nat>)
    ensures forall i :: i in Yielded(log, f, taken) <==> i in taken && Wanted(log, f, i)
  {
    if taken != [] {
      var init, last := taken[..|taken| - 1], taken[|taken| - 1];
      YieldedMembers(log, f, init);
      assert taken == init + [last];
    }
  }

  lemma {:induction false} YieldedKeepsOrder(log: seq<Entry>, f: Filter, taken: seq<nat>)
    requires forall j, l :: 0 <= j < l < |taken| ==> taken[j] < taken[l]
    ensures forall j, l :: 0 <= j < l < |Yielded(log, f, taken)| ==>
              Yielded(log, f, taken)[j] < Yielded(log, f, taken)[l]
  {
    if taken != [] {
      var init := taken[..|taken| - 1];
      YieldedKeepsOrder(log, f, init);
      YieldedMembers(log, f, init);
      assert forall j :: 0 <= j < |Yielded(log, f, init)| ==> Yielded(log, f, init)[j] in Yielded(log, f, init);
    }
  }

  lemma {:induction false} YieldedAfterPublish(log: seq<Entry>, entry: Entry, f: Filter, taken: seq<nat>)
    requires forall j :: 0 <= j < |taken| ==> taken[j] < |log|
    ensures Yielded(log + [entry], f, taken) == Yielded(log, f, taken)
  {
    if taken != [] {
      YieldedAfterPublish(log, entry, f, taken[..|taken| - 1]);
    }
  }

  lemma PublishKeeps(maxLen: nat, st: State, step: Step)
    requires Inv(st) && step.PublishStep?
    ensures Inv(Next(maxLen, st, step))
  {
    var st' := Publish(maxLen, st, step.entry, step.lo);
    if st' != st {
      forall c | 0 <= c < |st.consumers|
        ensures ConsumerOk(st'.log, st'.groups[st.consumers[c].group], c, st.consumers[c])
      {
        var k := st.consumers[c];
        assert ConsumerOk(st.log, st.groups[k.group], c, k);
        assert GroupOk(|st.log|, st.lo, st.groups[k.group]);
        YieldedAfterPublish(st.log, step.entry, k.filter, k.taken[..Seen(k)]);
      }
    }
  }

  lemma EnsureGroupKeeps(st: State, group: string, latest: bool)
    requires Inv(st)
    ensures Inv(EnsureGroup(st, group, latest))
  {
  }

  lemma SubscribeKeeps(maxLen: nat, st: State, step: Step)
    requires Inv(st) && step.SubscribeStep?
    ensures Inv(Next(maxLen, st, step))
  {
    var mid := EnsureGroup(st, step.group, false);
    EnsureGroupKeeps(st, step.group, false);
    var st' := Subscribe(st, step.group, step.filter);
    assert st'.groups == mid.groups && st'.log == mid.log && st'.lo == mid.lo;
    forall c | 0 <= c < |st'.consumers|
      ensures st'.consumers[c].group in st'.groups
      ensures ConsumerOk(st'.log, st'.groups[st'.consumers[c].group], c, st'.consumers[c])
    {
      if c < |mid.consumers| {
        assert ConsumerOk(mid.log, mid.groups[mid.consumers[c].group], c, mid.consumers[c]);
      }
    }
    assert OwnersOk(st') by {
      forall name, i | name in st'.groups && i in st'.groups[name].owner
        ensures var c := st'.groups[name].owner[i];
                c < |st'.consumers| && st'.consumers[c].group == name && i in st'.consumers[c].taken
      {
        assert i in mid.groups[name].owner;
      }
    }
  }

  /** Apart from entries of consumer c, the group is as it was. */
  ghost predicate OnlyMoves(g: Group, g': Group, c: nat) {
    && (forall i :: i in g.owner ==> i in g'.owner && g'.owner[i] == g.owner[i])
    && (forall i :: i in g'.owner && i !in g.owner ==> g'.owner[i] == c)
    && (forall i :: i in g.owner && g.owner[i] != c ==>
          (i in g'.pending <==> i in g.pending) && (i in g'.acked <==> i in g.acked))
  }

  ghost predicate HasTaken(g: Group, c: nat, k: Consumer) {
    forall i :: i in g.owner && g.owner[i] == c ==> i in k.taken
  }

  /** A change of one group and one consumer of it keeps what holds of everyone else. */
  lemma OneConsumerMoves(st: State, c: nat, g': Group, k': Consumer)
    requires Inv(st) && c < |st.consumers| && k'.group == st.consumers[c].group
    requires GroupOk(|st.log|, st.lo, g') && ConsumerOk(st.log, g', c, k')
    requires OnlyMoves(st.groups[k'.group], g', c) && HasTaken(g', c, k')
    ensures Inv(st.(groups := st.groups[k'.group := g'], consumers := st.consumers[c := k']))
  {
    var st' := st.(groups := st.groups[k'.group := g'], consumers := st.consumers[c := k']);
    forall d | 0 <= d < |st'.consumers|
      ensures st'.consumers[d].group in st'.groups
      ensures ConsumerOk(st'.log, st'.groups[st'.consumers[d].group], d, st'.consumers[d])
    {
      if d != c {
        OthersUnmoved(st, c, d, g', k'.group);
      }
    }
    forall name, i | name in st'.groups && i in st'.groups[name].owner
      ensures var d := st'.groups[name].owner[i];
              d < |st'.consumers| && st'.consumers[d].group == name && i in st'.consumers[d].taken
    {
      var d := st'.groups[name].owner[i];
      if name != k'.group {
        assert i in st.groups[name].owner;
      } else if d != c {
        assert i in st.groups[name].owner && st.groups[name].owner[i] == d;
      }
    }
  }

  lemma OthersUnmoved(st: State, c: nat, d: nat, g': Group, name: string)
    requires Inv(st) && d < |st.consumers| && d != c && name in st.groups
    requires OnlyMoves(st.groups[name], g', c)
    ensures var k := st.consumers[d];
            k.group in st.groups && ConsumerOk(st.log, if k.group == name then g' else st.groups[k.group], d, k)
  {
  }

  lemma OwnedIsTaken(st: State, c: nat)
    requires Inv(st) && c < |st.consumers|
    ensures HasTaken(st.groups[st.consumers[c].group], c, st.consumers[c])
  {
  }

  lemma DeliveredOk(length: nat, lo: nat, g: Group, c: nat, from: nat, n: nat)
    requires GroupOk(length, lo, g) && from == (if g.cursor < lo then lo else g.cursor) && from + n <= length
    ensures GroupOk(length, lo, Delivered(g, c, from, n))
  {
  }

  lemma BatchTaken(g: Group, c: nat, k: Consumer, from: nat, n: nat)
    requires TakenOk(g, c, k) && forall i :: i in g.owner ==> i < from
    ensures TakenOk(Delivered(g, c, from, n), c, k.(taken := k.taken + Span(from, n)))
  {
  }

  lemma BatchProgress(log: seq<Entry>, g: Group, c: nat, k: Consumer, from: nat, n: nat)
    requires !k.awaiting && k.done == |k.taken| && ProgressOk(log, g, k) && TakenOk(g, c, k)
    requires forall i :: i in g.owner ==> i < from
    ensures ProgressOk(log, Delivered(g, c, from, n), k.(taken := k.taken + Span(from, n)))
  {
  }

  lemma DeliveredElsewhere(g: Group, c: nat, k: Consumer, from: nat, n: nat)
    requires HasTaken(g, c, k) && forall i :: i in g.owner ==> i < from
    ensures OnlyMoves(g, Delivered(g, c, from, n), c)
    ensures HasTaken(Delivered(g, c, from, n), c, k.(taken := k.taken + Span(from, n)))
  {
  }

  lemma BatchYielded(log: seq<Entry>, k: Consumer, from: nat, n: nat)
    requires !k.awaiting && k.done == |k.taken| && YieldedOk(log, k)
    ensures YieldedOk(log, k.(taken := k.taken + Span(from, n)))
  {
    assert (k.taken + Span(from, n))[..k.done] == k.taken[..k.done];
  }

  lemma BatchMoves(st: State, c: nat, from: nat, n: nat)
    requires Inv(st) && c < |st.consumers|
    requires var k := st.consumers[c];
             !k.awaiting && k.done == |k.taken| && from + n <= |st.log|
             && from == (if st.groups[k.group].cursor < st.lo then st.lo else st.groups[k.group].cursor)
    ensures var k := st.consumers[c];
            Inv(st.(groups := st.groups[k.group := Delivered(st.groups[k.group], c, from, n)],
                    consumers := st.consumers[c := k.(taken := k.taken + Span(from, n))]))
  {
    var k := st.consumers[c];
    var g := st.groups[k.group];
    assert GroupOk(|st.log|, st.lo, g) && ConsumerOk(st.log, g, c, k);
    DeliveredOk(|st.log|, st.lo, g, c, from, n);
    BatchTaken(g, c, k, from, n);
    BatchProgress(st.log, g, c, k, from, n);
    BatchYielded(st.log, k, from, n);
    OwnedIsTaken(st, c);
    DeliveredElsewhere(g, c, k, from, n);
    OneConsumerMoves(st, c, Delivered(g, c, from, n), k.(taken := k.taken + Span(from, n)));
  }

  lemma ReadKeeps(maxLen: nat, st: State, step: Step)
    requires Inv(st) && step.ReadStep?
    ensures Inv(Next(maxLen, st, step))
  {
    var c, st' := step.c, Read(st, step.c, step.count);
    if st' != st {
      var k := st.consumers[c];
      var g := st.groups[k.group];
      var from := if g.cursor < st.lo then st.lo else g.cursor;
      var n := st'.groups[k.group].cursor - from;
      assert Next(maxLen, st, step)
          == st.(groups := st.groups[k.group := Delivered(g, c, from, n)],
                 consumers := st.consumers[c := k.(taken := k.taken + Span(from, n))]);
      BatchMoves(st, c, from, n);
    }
  }

  /** The consumer steps that leave the group alone. */
  lemma ConsumerStepKeeps(st: State, c: nat, k': Consumer)
    requires Inv(st) && c < |st.consumers| && k'.group == st.consumers[c].group && k'.taken == st.consumers[c].taken
    requires ConsumerOk(st.log, st.groups[k'.group], c, k')
    ensures Inv(st.(consumers := st.consumers[c := k']))
  {
    var g := st.groups[k'.group];
    assert GroupOk(|st.log|, st.lo, g);
    assert st.groups[k'.group := g] == st.groups;
    OwnedIsTaken(st, c);
    assert OnlyMoves(g, g, c);
    OneConsumerMoves(st, c, g, k');
  }

  lemma TakeOneMore(log: seq<Entry>, k: Consumer)
    requires k.done < |k.taken| && !k.awaiting
    ensures Yielded(log, k.filter, k.taken[..k.done + 1])
         == Yielded(log, k.filter, k.taken[..k.done])
            + (if Wanted(log, k.filter, k.taken[k.done]) then [k.taken[k.done]] else [])
  {
    assert k.taken[..k.done + 1][..k.done] == k.taken[..k.done];
  }

  /** The entry at hand may be acknowledged: it was yielded, or decoded and filtered out. */
  ghost predicate Settles(log: seq<Entry>, k: Consumer) {
    && k.done < |k.taken| && k.taken[k.done] < |log|
    && (k.awaiting || (log[k.taken[k.done]].Some? && !Wanted(log, k.filter, k.taken[k.done])))
  }

  lemma NextSeen(log: seq<Entry>, k: Consumer)
    requires Settles(log, k) && k.yielded == Yielded(log, k.filter, k.taken[..Seen(k)])
    ensures Yielded(log, k.filter, k.taken[..k.done + 1]) == k.yielded
  {
    if !k.awaiting {
      TakeOneMore(log, k);
    }
  }

  lemma AckedOk(log: seq<Entry>, g: Group, c: nat, k: Consumer)
    requires ConsumerOk(log, g, c, k) && Settles(log, k)
    ensures ConsumerOk(log, Acked(g, k.taken[k.done]), c, k.(done := k.done + 1, awaiting := false))
  {
    NextSeen(log, k);
  }

  lemma AckFailedOk(log: seq<Entry>, g: Group, c: nat, k: Consumer)
    requires ConsumerOk(log, g, c, k) && Settles(log, k) && g.pending !! g.acked
    ensures ConsumerOk(log, g, c, k.(done := k.done + 1, awaiting := false, failures := k.failures + {k.done}))
  {
    NextSeen(log, k);
  }

  /** XACK moves one entry of this consumer, and no other, from pending to acknowledged. */
  lemma AckedElsewhere(length: nat, lo: nat, g: Group, c: nat, i: nat)
    requires GroupOk(length, lo, g) && i in g.owner && g.owner[i] == c
    ensures GroupOk(length, lo, Acked(g, i)) && OnlyMoves(g, Acked(g, i), c)
  {
  }

  lemma AckMoves(st: State, c: nat, g: Group, i: nat, k': Consumer)
    requires Inv(st) && c < |st.consumers| && k'.group == st.consumers[c].group && k'.taken == st.consumers[c].taken
    requires g == st.groups[k'.group] && i in g.owner && g.owner[i] == c
    requires ConsumerOk(st.log, Acked(g, i), c, k')
    ensures Inv(st.(groups := st.groups[k'.group := Acked(g, i)], consumers := st.consumers[c := k']))
  {
    assert GroupOk(|st.log|, st.lo, g);
    AckedElsewhere(|st.log|, st.lo, g, c, i);
    OwnedIsTaken(st, c);
    assert HasTaken(Acked(g, i), c, k');
    OneConsumerMoves(st, c, Acked(g, i), k');
  }

  lemma AckSucceedsMoves(st: State, c: nat)
    requires Inv(st) && c < |st.consumers| && Settles(st.log, st.consumers[c])
    ensures var k := st.consumers[c];
            var k' := k.(done := k.done + 1, awaiting := false);
            Inv(st.(groups := st.groups[k.group := Acked(st.groups[k.group], k.taken[k.done])],
                    consumers := st.consumers[c := k']))
  {
    var k := st.consumers[c];
    var g := st.groups[k.group];
    var i := k.taken[k.done];
    var k' := k.(done := k.done + 1, awaiting := false);
    assert ConsumerOk(st.log, Acked(g, i), c, k') by {
      assert ConsumerOk(st.log, g, c, k);
      AckedOk(st.log, g, c, k);
    }
    assert i in g.owner && g.owner[i] == c by {
      assert ConsumerOk(st.log, g, c, k);
    }
    AckMoves(st, c, g, i, k');
  }

  lemma AckSucceedsKeeps(st: State, c: nat)
    requires Inv(st) && AtWork(st, c) && Settles(st.log, st.consumers[c])
    ensures Inv(AckNext(st, c, true))
  {
    AckSucceedsMoves(st, c);
  }

  lemma AckFailsMoves(st: State, c: nat)
    requires Inv(st) && c < |st.consumers| && Settles(st.log, st.consumers[c])
    ensures var k := st.consumers[c];
            var k' := k.(done := k.done + 1, awaiting := false, failures := k.failures + {k.done});
            Inv(st.(consumers := st.consumers[c := k']))
  {
    var k := st.consumers[c];
    var g := st.groups[k.group];
    var k' := k.(done := k.done + 1, awaiting := false, failures := k.failures + {k.done});
    assert ConsumerOk(st.log, g, c, k') by {
      assert GroupOk(|st.log|, st.lo, g) && ConsumerOk(st.log, g, c, k);
      AckFailedOk(st.log, g, c, k);
    }
    ConsumerStepKeeps(st, c, k');
  }

  lemma AckFailsKeeps(st: State, c: nat)
    requires Inv(st) && AtWork(st, c) && Settles(st.log, st.consumers[c])
    ensures Inv(AckNext(st, c, false))
  {
    AckFailsMoves(st, c);
  }

  lemma AckKeeps(st: State, c: nat, ok: bool)
    requires Inv(st) && AtWork(st, c) && Settles(st.log, st.consumers[c])
    ensures Inv(AckNext(st, c, ok))
  {
    if ok {
      AckSucceedsKeeps(st, c);
    } else {
      AckFailsKeeps(st, c);
    }
  }

  lemma SkippedOk(log: seq<Entry>, g: Group, c: nat, k: Consumer)
    requires ConsumerOk(log, g, c, k) && g.pending !! g.acked
    requires !k.awaiting && k.done < |k.taken| && k.taken[k.done] < |log| && log[k.taken[k.done]].None?
    ensures ConsumerOk(log, g, c, k.(done := k.done + 1))
  {
    TakeOneMore(log, k);
  }

  lemma YieldOk(log: seq<Entry>, g: Group, c: nat, k: Consumer)
    requires ConsumerOk(log, g, c, k) && !k.awaiting && k.done < |k.taken| && Wanted(log, k.filter, k.taken[k.done])
    ensures ConsumerOk(log, g, c, k.(awaiting := true, yielded := k.yielded + [k.taken[k.done]]))
  {
    TakeOneMore(log, k);
  }

  lemma SkipKeeps(st: State, c: nat)
    requires Inv(st) && AtWork(st, c) && !st.consumers[c].awaiting
    requires st.log[st.consumers[c].taken[st.consumers[c].done]].None?
    ensures Inv(st.(consumers := st.consumers[c := st.consumers[c].(done := st.consumers[c].done + 1)]))
  {
    var k := st.consumers[c];
    var g := st.groups[k.group];
    assert GroupOk(|st.log|, st.lo, g);
    SkippedOk(st.log, g, c, k);
    ConsumerStepKeeps(st, c, k.(done := k.done + 1));
  }

  lemma YieldKeeps(st: State, c: nat)
    requires Inv(st) && AtWork(st, c) && !st.consumers[c].awaiting
    requires Wanted(st.log, st.consumers[c].filter, st.consumers[c].taken[st.consumers[c].done])
    ensures var k := st.consumers[c];
            var k' := k.(awaiting := true, yielded := k.yielded + [k.taken[k.done]]);
            Inv(st.(consumers := st.consumers[c := k']))
  {
    var k := st.consumers[c];
    YieldOk(st.log, st.groups[k.group], c, k);
    ConsumerStepKeeps(st, c, k.(awaiting := true, yielded := k.yielded + [k.taken[k.done]]));
  }

  lemma ProcessKeeps(maxLen: nat, st: State, step: Step)
    requires Inv(st) && step.ProcessStep?
    ensures Inv(Next(maxLen, st, step))
  {
    var c := step.c;
    if AtWork(st, c) && !st.consumers[c].awaiting {
      var k := st.consumers[c];
      var i := k.taken[k.done];
      if st.log[i].None? {
        assert Next(maxLen, st, step) == st.(consumers := st.consumers[c := k.(done := k.done + 1)]);
        SkipKeeps(st, c);
      } else if Matches(k.filter, st.log[i].value) {
        assert Next(maxLen, st, step)
            == st.(consumers := st.consumers[c := k.(awaiting := true, yielded := k.yielded + [i])]);
        YieldKeeps(st, c);
      } else {
        assert Next(maxLen, st, step) == AckNext(st, c, step.ok);
        AckKeeps(st, c, step.ok);
      }
    } else {
      assert Next(maxLen, st, step) == st;
    }
  }

  lemma ResumeKeeps(maxLen: nat, st: State, step: Step)
    requires Inv(st) && step.ResumeStep?
    ensures Inv(Next(maxLen, st, step))
  {
    if AtWork(st, step.c) && st.consumers[step.c].awaiting {
      AckKeeps(st, step.c, step.ok);
    }
  }

  lemma AbandonOk(log: seq<Entry>, g: Group, c: nat, k: Consumer)
    requires ConsumerOk(log, g, c, k)
    ensures ConsumerOk(log, g, c, k.(live := false))
  {
  }

  lemma AbandonKeeps(maxLen: nat, st: State, step: Step)
    requires Inv(st) && step.AbandonStep?
    ensures Inv(Next(maxLen, st, step))
  {
    if step.c < |st.consumers| {
      var k := st.consumers[step.c];
      AbandonOk(st.log, st.groups[k.group], step.c, k);
      assert Next(maxLen, st, step) == st.(consumers := st.consumers[step.c := k.(live := false)]);
      ConsumerStepKeeps(st, step.c, k.(live := false));
    }
  }

  lemma NextKeeps(maxLen: nat, st: State, step: Step)
    requires Inv(st)
    ensures Inv(Next(maxLen, st, step))
  {
    match step
    case PublishStep(_, _) => PublishKeeps(maxLen, st, step);
    case EnsureGroupStep(group, latest) => EnsureGroupKeeps(st, group, latest);
    case SubscribeStep(_, _) => SubscribeKeeps(maxLen, st, step);
    case ReadStep(_, _) => ReadKeeps(maxLen, st, step);
    case ProcessStep(_, _) => ProcessKeeps(maxLen, st, step);
    case ResumeStep(_, _) => ResumeKeeps(maxLen, st, step);
    case AbandonStep(_) => AbandonKeeps(maxLen, st, step);
  }

  lemma {:induction false} RunKeeps(maxLen: nat, st: State, steps: seq<Step>)
    requires Inv(st)
    ensures Inv(Exec(maxLen, st, steps))
  {
    if steps != [] {
      RunKeeps(maxLen, st, steps[..|steps| - 1]);
      NextKeeps(maxLen, Exec(maxLen, st, steps[..|steps| - 1]), steps[|steps| - 1]);
    }
  }

  lemma ExecOneMore(maxLen: nat, st: State, steps: seq<Step>, step: Step)
    ensures Exec(maxLen, st, steps + [step]) == Next(maxLen, Exec(maxLen, st, steps), step)
  {
  }

  lemma {:induction false} ExecAppends(maxLen: nat, st: State, first: seq<Step>, second: seq<Step>)
    ensures Exec(maxLen, st, first + second) == Exec(maxLen, Exec(maxLen, st, first), second)
  {
    if second == [] {
      assert first + second == first;
    } else {
      var init := second[..|second| - 1];
      assert (first + second)[..|first + second| - 1] == first + init;
      ExecAppends(maxLen, st, first, init);
    }
  }
}
