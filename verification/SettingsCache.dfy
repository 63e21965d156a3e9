/**
 The in-process settings cache with its 60-second lifetime, in front of a table other processes write too.

 A load reads the row at one moment and fills the cache at a later one; so does a put after its own write.
 Reads, writes and loads of several requests interleave.
 */
module SettingsCache {
  import opened Common
  import opened Settings

  type Table = map<string, Dict>

  /** The table as it became at a time. */
  datatype Snapshot = Snapshot(time: real, table: Table)

  /** `readAt`, when the value was read from or written to the table, is history. */
  datatype Entry = Entry(value: Dict, stamp: real, readAt: real)

  /** A load, or a put, between the table and the cache; a missing row is None and is not cached. */
  datatype Load = Load(key: string, value: Option<Dict>, readAt: real, isPut: bool)

  /** What get_setting returned. */
  datatype Answer = Answer(key: string, value: Dict, time: real, readAt: real)

  datatype State = State(
    now: real, table: Table, cache: map<string, Entry>, loads: map<nat, Load>,
    history: seq<Snapshot>, answers: seq<Answer>)

  const TTL := 60.0

  const START := State(0.0, map[], map[], map[], [Snapshot(0.0, map[])], [])

  /** The row's value, or the empty dictionary. */
  function ValueOf(table: Table, key: string): Dict {
    if key in table then table[key] else map[]
  }

  /** What a load read, as get_setting returns it. */
  function Loaded(l: Load): Dict {
    if l.value.Some? then l.value.value else map[]
  }

  predicate Fresh(st: State, key: string) {
    key in st.cache && st.now - st.cache[key].stamp < TTL
  }

  // ---------------------------------------------------------------- steps

  function Tick(st: State, dt: real): State {
    if dt >= 0.0 then st.(now := st.now + dt) else st
  }

  /** Any process writes the table. */
  function Write(st: State, key: string, value: Dict): State {
    var table := st.table[key := value];
    st.(table := table, history := st.history + [Snapshot(st.now, table)])
  }

  /** get_setting on a fresh entry. */
  function Hit(st: State, key: string): State {
    if Fresh(st, key) then
      var e := st.cache[key];
      st.(answers := st.answers + [Answer(key, e.value, st.now, e.readAt)])
    else st
  }

  /** get_setting on a miss, or get_all_settings: the row is read. */
  function Fetch(st: State, id: nat, key: string): State {
    if id in st.loads then st
    else
      st.(loads := st.loads[id := Load(key, if key in st.table then Some(st.table[key]) else None, st.now, false)])
  }

  /** put_setting: the row is written. */
  function PutRow(st: State, id: nat, key: string, value: Dict): State {
    if id in st.loads then st
    else Write(st, key, value).(loads := st.loads[id := Load(key, Some(value), st.now, true)])
  }

  /** The rest of a load or put: fill the cache, and answer. */
  function Fill(st: State, id: nat): State {
    if id !in st.loads then st
    else
      var l := st.loads[id];
      st.(loads := st.loads - {id},
          cache := if l.value.Some? then st.cache[l.key := Entry(l.value.value, st.now, l.readAt)] else st.cache,
          answers := if l.isPut then st.answers else st.answers + [Answer(l.key, Loaded(l), st.now, l.readAt)])
  }

  function Invalidate(st: State, key: string): State {
    st.(cache := st.cache - {key})
  }

  datatype Step =
    | TickStep(dt: real)
    | WriteStep(key: string, value: Dict)
    | HitStep(key: string)
    | FetchStep(id: nat, key: string)
    | PutStep(id: nat, key: string, value: Dict)
    | FillStep(id: nat)
    | InvalidateStep(key: string)

  function Next(st: State, step: Step): State {
    match step
    case TickStep(dt) => Tick(st, dt)
    case WriteStep(key, value) => Write(st, key, value)
    case HitStep(key) => Hit(st, key)
    case FetchStep(id, key) => Fetch(st, id, key)
    case PutStep(id, key, value) => PutRow(st, id, key, value)
    case FillStep(id) => Fill(st, id)
    case InvalidateStep(key) => Invalidate(st, key)
  }

  function Exec(st: State, steps: seq<Step>): State {
    if steps == [] then st else Next(Exec(st, steps[..|steps| - 1]), steps[|steps| - 1])
  }

  // ---------------------------------------------------------------- how old an answer can be

  /** The i-th state of the table was current at time t. */
  ghost predicate CurrentAt(history: seq<Snapshot>, i: int, t: real) {
    0 <= i < |history| && history[i].time <= t && (i + 1 < |history| ==> t <= history[i + 1].time)
  }

  /** The row had this value at time t. */
  ghost predicate HadValue(history: seq<Snapshot>, key: string, value: Dict, t: real) {
    exists i :: CurrentAt(history, i, t) && ValueOf(history[i].table, key) == value
  }

  ghost predicate LoadOk(st: State, l: Load) {
    l.readAt <= st.now && HadValue(st.history, l.key, Loaded(l), l.readAt)
  }

  ghost predicate EntryOk(st: State, lag: real, key: string, e: Entry) {
    e.readAt <= e.stamp <= st.now && e.stamp - e.readAt <= lag && HadValue(st.history, key, e.value, e.readAt)
  }

  ghost predicate AnswerOk(st: State, lag: real, a: Answer) {
    a.time - a.readAt < TTL + lag && a.readAt <= a.time <= st.now && HadValue(st.history, a.key, a.value, a.readAt)
  }

  ghost predicate Inv(st: State, lag: real) {
    && st.history != [] && st.history[|st.history| - 1].table == st.table && st.history[|st.history| - 1].time <= st.now
    && (forall id :: id in st.loads ==> LoadOk(st, st.loads[id]))
    && (forall key :: key in st.cache ==> EntryOk(st, lag, key, st.cache[key]))
    && (forall i :: 0 <= i < |st.answers| ==> AnswerOk(st, lag, st.answers[i]))
  }

  /** Every load and put fills the cache within `lag` of its read or write. */
  ghost predicate FillsWithin(st: State, steps: seq<Step>, lag: real) {
    steps == [] ||
    var mid, step := Exec(st, steps[..|steps| - 1]), steps[|steps| - 1];
    && FillsWithin(st, steps[..|steps| - 1], lag)
    && (step.FillStep? && step.id in mid.loads ==> mid.now - mid.loads[step.id].readAt <= lag)
  }

  lemma HadValueLater(history: seq<Snapshot>, s: Snapshot, key: string, value: Dict, t: real)
    requires HadValue(history, key, value, t) && t <= s.time
    ensures HadValue(history + [s], key, value, t)
  {
    var i :| CurrentAt(history, i, t) && ValueOf(history[i].table, key) == value;
    assert CurrentAt(history + [s], i, t);
  }

  lemma HasValueNow(st: State, key: string)
    requires st.history != [] && st.history[|st.history| - 1].table == st.table
    requires st.history[|st.history| - 1].time <= st.now
    ensures HadValue(st.history, key, ValueOf(st.table, key), st.now)
  {
  }

  lemma WriteKeeps(st: State, lag: real, key: string, value: Dict)
    requires Inv(st, lag)
    ensures Inv(Write(st, key, value), lag)
  {
    var st' := Write(st, key, value);
    var s := Snapshot(st.now, st'.table);
    forall id | id in st.loads ensures LoadOk(st', st.loads[id]) {
      var l := st.loads[id];
      assert LoadOk(st, l);
      HadValueLater(st.history, s, l.key, Loaded(l), l.readAt);
    }
    forall k | k in st.cache ensures EntryOk(st', lag, k, st.cache[k]) {
      assert EntryOk(st, lag, k, st.cache[k]);
      HadValueLater(st.history, s, k, st.cache[k].value, st.cache[k].readAt);
    }
    forall i | 0 <= i < |st.answers| ensures AnswerOk(st', lag, st.answers[i]) {
      var a := st.answers[i];
      assert AnswerOk(st, lag, a);
      HadValueLater(st.history, s, a.key, a.value, a.readAt);
    }
  }

  /** The steps that leave table and history alone and only add what is in order. */
  lemma SameHistoryKeeps(st: State, st': State, lag: real)
    requires Inv(st, lag) && st'.history == st.history && st'.table == st.table && st.now <= st'.now
    requires forall id :: id in st'.loads ==>
               (id in st.loads && st'.loads[id] == st.loads[id]) || LoadOk(st', st'.loads[id])
    requires forall k :: k in st'.cache ==>
               (k in st.cache && st'.cache[k] == st.cache[k]) || EntryOk(st', lag, k, st'.cache[k])
    requires |st.answers| <= |st'.answers|
    requires forall i :: 0 <= i < |st'.answers| ==>
               (i < |st.answers| && st'.answers[i] == st.answers[i]) || AnswerOk(st', lag, st'.answers[i])
    ensures Inv(st', lag)
  {
  }

  lemma PutKeeps(st: State, lag: real, id: nat, key: string, value: Dict)
    requires Inv(st, lag)
    ensures Inv(PutRow(st, id, key, value), lag)
  {
    if id !in st.loads {
      var mid, st' := Write(st, key, value), PutRow(st, id, key, value);
      WriteKeeps(st, lag, key, value);
      HasValueNow(mid, key);
      assert LoadOk(st', st'.loads[id]);
      SameHistoryKeeps(mid, st', lag);
    }
  }

  lemma FetchKeeps(st: State, lag: real, id: nat, key: string)
    requires Inv(st, lag)
    ensures Inv(Fetch(st, id, key), lag)
  {
  }

  lemma HitKeeps(st: State, lag: real, key: string)
    requires Inv(st, lag)
    ensures Inv(Hit(st, key), lag)
  {
    if Fresh(st, key) {
      assert EntryOk(st, lag, key, st.cache[key]);
      SameHistoryKeeps(st, Hit(st, key), lag);
    }
  }

  lemma FillKeeps(st: State, lag: real, id: nat)
    requires Inv(st, lag) && id in st.loads && st.now - st.loads[id].readAt <= lag
    ensures Inv(Fill(st, id), lag)
  {
    var l, st' := st.loads[id], Fill(st, id);
    assert LoadOk(st, l);
    if l.value.Some? {
      assert EntryOk(st', lag, l.key, st'.cache[l.key]);
    }
    if !l.isPut {
      assert AnswerOk(st', lag, st'.answers[|st.answers|]);
    }
    SameHistoryKeeps(st, st', lag);
  }

  lemma {:induction false} RunKeeps(steps: seq<Step>, lag: real)
    requires lag >= 0.0 && FillsWithin(START, steps, lag)
    ensures Inv(Exec(START, steps), lag)
  {
    if steps != [] {
      var mid, step := Exec(START, steps[..|steps| - 1]), steps[|steps| - 1];
      RunKeeps(steps[..|steps| - 1], lag);
      match step
      case TickStep(dt) => SameHistoryKeeps(mid, Tick(mid, dt), lag);
      case WriteStep(key, value) => WriteKeeps(mid, lag, key, value);
      case HitStep(key) => HitKeeps(mid, lag, key);
      case FetchStep(id, key) => FetchKeeps(mid, lag, id, key);
      case PutStep(id, key, value) => PutKeeps(mid, lag, id, key, value);
      case FillStep(id) =>
        if id in mid.loads {
          FillKeeps(mid, lag, id);
        }
      case InvalidateStep(key) => SameHistoryKeeps(mid, Invalidate(mid, key), lag);
    }
  }

  /**
   Whatever other processes write, every answer of get_setting was the value of the row at some moment less than
   60 seconds plus the longest load time before it; with loads that take no time, less than 60 seconds.
   */
  lemma AnswersAreRecent(steps: seq<Step>, lag: real, i: nat)
    requires lag >= 0.0 && FillsWithin(START, steps, lag) && i < |Exec(START, steps).answers|
    ensures var st := Exec(START, steps);
            var a := st.answers[i];
            exists t :: a.time - (60.0 + lag) < t <= a.time && HadValue(st.history, a.key, a.value, t)
  {
    RunKeeps(steps, lag);
    var st := Exec(START, steps);
    var a := st.answers[i];
    assert AnswerOk(st, lag, a);
    assert HadValue(st.history, a.key, a.value, a.readAt);
  }

  /**
   A put refreshes the cache, but a load that read the row before the put and fills the cache after it can bring
   the old value back.  Whenever an outstanding load fills the cache over a fresh entry, readers go on seeing that
   entry's value exactly when the load had found no row or the same value.
   */
  lemma LateLoadHidesPutIff(st: State, id: nat)
    requires id in st.loads && Fresh(st, st.loads[id].key)
    ensures var l := st.loads[id];
            var st' := Hit(Fill(st, id), l.key);
            && |st'.answers| > |st.answers| && Fresh(Fill(st, id), l.key)
            && var a := st'.answers[|st'.answers| - 1];
               && a.key == l.key && a.time == st.now
               && (a.value == st.cache[l.key].value <==> l.value.None? || l.value.value == st.cache[l.key].value)
  {
  }

  /** Such a load: it reads an old row, another request puts a new value, and the load fills the cache last. */
  lemma OvertakenLoadBringsOldValueBack(key: string, before: Dict, put: Dict)
    requires before != put
    ensures var st := Fill(PutRow(Fetch(Write(START, key, before), 0, key), 1, key, put), 1);
            && Fresh(st, key) && st.cache[key].value == put && st.table[key] == put
            && Fresh(Fill(st, 0), key) && Fill(st, 0).cache[key].value == before
  {
  }

  // ---------------------------------------------------------------- the code

  class Cache {
    var now: real
    var table: Table
    var cache: map<string, Entry>
    ghost var history: seq<Snapshot>
    ghost var answers: seq<Answer>

    constructor ()
      ensures Now() == START
    {
      now, table, cache := 0.0, map[], map[];
      history, answers := [Snapshot(0.0, map[])], [];
    }

    ghost function Now(): State
      reads this
    {
      State(now, table, cache, map[], history, answers)
    }

    method GetSetting(key: string) returns (value: Dict)
      modifies this
      ensures Now() == if Fresh(old(Now()), key) then Hit(old(Now()), key) else Fill(Fetch(old(Now()), 0, key), 0)
      ensures answers == old(answers) + [answers[|old(answers)|]] && answers[|old(answers)|].value == value
      ensures if key in old(cache) && now - old(cache)[key].stamp < 60.0 then value == old(cache)[key].value
              else if key in table then value == table[key]
              else value == map[]
      ensures table == old(table)
    {
      if key in cache && now - cache[key].stamp < TTL {
        value := cache[key].value;
        answers := answers + [Answer(key, value, now, cache[key].readAt)];
        return;
      }
      value := LoadFromDb(key);
    }

    method LoadFromDb(key: string) returns (value: Dict)
      modifies this
      ensures Now() == Fill(Fetch(old(Now()), 0, key), 0)
      ensures value == ValueOf(table, key) && answers == old(answers) + [Answer(key, value, now, now)]
    {
      if key in table {
        value := table[key];
        cache := cache[key := Entry(value, now, now)];
      } else {
        value := map[];
      }
      answers := answers + [Answer(key, value, now, now)];
    }

    method PutSetting(key: string, value: Dict)
      modifies this
      ensures Now() == Fill(PutRow(old(Now()), 0, key, value), 0)
      ensures table == old(table)[key := value] && key in cache && cache[key].value == value && cache[key].stamp == now
      ensures forall k :: k != key ==> (k in cache <==> k in old(cache)) && (k in cache ==> cache[k] == old(cache)[k])
    {
      table := table[key := value];
      history := history + [Snapshot(now, table)];
      cache := cache[key := Entry(value, now, now)];
    }

    method Invalidate(key: string)
      modifies this`cache
      ensures Now() == Next(old(Now()), InvalidateStep(key))
      ensures key !in cache && forall k :: k != key && k in old(cache) ==> k in cache && cache[k] == old(cache)[k]
    {
      cache := cache - {key};
    }

    /** Every row, each refreshing its entry. */
    method GetAllSettings() returns (result: Table)
      modifies this`cache
      ensures result == table
      ensures forall key :: key in table ==> key in cache && cache[key] == Entry(table[key], now, now)
      ensures forall key :: key !in table ==>
                (key in cache <==> key in old(cache)) && (key in cache ==> cache[key] == old(cache)[key])
    {
      result := map[];
      var rows := table.Keys;
      while rows != {}
        invariant rows <= table.Keys && result.Keys == table.Keys - rows
        invariant forall key :: key in result ==>
                    result[key] == table[key] && key in cache && cache[key] == Entry(table[key], now, now)
        invariant forall key :: key !in result ==>
                    (key in cache <==> key in old(cache)) && (key in cache ==> cache[key] == old(cache)[key])
        decreases rows
      {
        var key :| key in rows;
        cache := cache[key := Entry(table[key], now, now)];
        result := result[key := table[key]];
        rows := rows - {key};
      }
    }
  }
}
