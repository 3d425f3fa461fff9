/** When the replay buffer can be trusted although two tasks drain at once. */
module FanoutMemory {
  import opened Tables
  import opened Clients
  import opened EventLog
  import opened Broker
  import opened Fanout
  import opened FanoutProofs
  import opened FanoutTheorems

  // ---- at most two drains at a time -----------------------------------------------

  /** The listener and the reconciler each drain one at a time. */
  predicate TwoTasks(s: System, e: Event) {
    (e.Ask? ==> e.task < 2) && (e.Drain? ==> exists t: nat | t < 2 :: t !in s.tasks)
  }

  predicate TwoTaskRun(s: System, events: seq<Event>) {
    forall i | 0 <= i < |events| :: TwoTasks(Trace(s, events[..i]), events[i])
  }

  lemma TwoTaskPrefix(s: System, events: seq<Event>)
    requires TwoTaskRun(s, events) && events != []
    ensures TwoTaskRun(s, events[..|events| - 1]) && TwoTasks(Trace(s, events[..|events| - 1]), events[|events| - 1])
  {
    var before := events[..|events| - 1];
    forall i | 0 <= i < |before| ensures TwoTasks(Trace(s, before[..i]), before[i]) {
      assert before[..i] == events[..i];
    }
  }

  /** What was published after a row's last publication, below the row. */
  function Low(published: seq<Message>, x: Message): seq<Message> {
    if published == [] then []
    else
      var last := published[|published| - 1];
      if last == x then []
      else Low(published[..|published| - 1], x) + if Id(last) < Id(x) then [last] else []
  }

  lemma {:induction false} LowWithRow(published: seq<Message>, rows: seq<Message>, x: Message)
    requires Sorted(rows) && x in rows
    ensures Low(published + rows, x) == []
  {
    var last := rows[|rows| - 1];
    assert (published + rows)[..|published + rows| - 1] == published + rows[..|rows| - 1];
    if last != x {
      assert x in rows[..|rows| - 1];
      LowWithRow(published, rows[..|rows| - 1], x);
      NewestIsGreatest(rows);
    }
  }

  lemma {:induction false} LowGrows(published: seq<Message>, rows: seq<Message>, x: Message)
    requires x !in rows
    ensures |Low(published + rows, x)| <= |Low(published, x)| + |rows|
    ensures (forall m | m in rows :: Id(m) >= Id(x)) ==> Low(published + rows, x) == Low(published, x)
  {
    if rows == [] {
      assert published + rows == published;
    } else {
      assert (published + rows)[..|published + rows| - 1] == published + rows[..|rows| - 1];
      LowGrows(published, rows[..|rows| - 1], x);
    }
  }

  // ---- the invariant ------------------------------------------------------------------

  /** At most one task can still deliver rows below `x` without `x`; once it has,
      none can. */
  predicate Settled(s: System, x: Message) {
    (forall t, u | t in s.tasks && u in s.tasks && s.tasks[t].after < Id(x) && s.tasks[u].after < Id(x) :: t == u) &&
    |Low(s.published, x)| <= DRAIN_LIMIT &&
    (Low(s.published, x) != [] ==> forall t | t in s.tasks :: Id(x) <= s.tasks[t].after)
  }

  predicate TasksBounded(s: System) {
    forall t | t in s.tasks :: t < 2 && (s.tasks[t].Holding? ==> |s.tasks[t].rows| <= DRAIN_LIMIT)
  }

  predicate MemorySound(s: System) {
    s.buffer == LastPart(s.published) && TasksBounded(s) && forall x | x in s.published :: Settled(s, x)
  }

  /** Publishing the block that one task holds, the other task staying. */
  lemma PublishKeepsSettled(s: System, t: nat, after: nat, rows: seq<Message>, x: Message)
    requires TasksBounded(s) && Sorted(rows) && |rows| <= DRAIN_LIMIT && (forall m | m in rows :: Id(m) > after)
    requires t < 2 && x in s.published + rows && (x in s.published ==> Settled(s, x))
    requires if t in s.tasks then s.tasks[t].after == after else x in s.published ==> Id(x) <= after
    ensures Settled(PublishAll(s.(tasks := s.tasks - {t}), rows), x)
  {
    if x in rows {
      LowWithRow(s.published, rows, x);
    } else {
      LowGrows(s.published, rows, x);
    }
  }

  lemma PublishKeepsMemory(s: System, t: nat, after: nat, rows: seq<Message>)
    requires FanSound(s) && MemorySound(s) && Publishable(s, after, rows) && |rows| <= DRAIN_LIMIT && t < 2
    requires if t in s.tasks then s.tasks[t].after == after else after == s.watermark
    ensures MemorySound(PublishAll(s.(tasks := s.tasks - {t}), rows))
  {
    var next := PublishAll(s.(tasks := s.tasks - {t}), rows);
    MemoryIsLastPart(s.published, rows);
    forall x | x in next.published ensures Settled(next, x) {
      PublishKeepsSettled(s, t, after, rows, x);
    }
  }

  lemma AskedIsSettled(s: System, t: nat, x: Message)
    requires Settled(s, x) && Id(x) <= s.watermark && t !in s.tasks
    ensures Settled(SetTask(s, t, Asked(s.watermark)), x)
  {
  }

  lemma FetchedIsSettled(s: System, t: nat, rows: seq<Message>, x: Message)
    requires Settled(s, x) && t in s.tasks
    ensures Settled(SetTask(s, t, Holding(s.tasks[t].after, rows)), x)
  {
  }

  lemma AskKeepsMemory(s: System, t: nat)
    requires TableSound(s) && MemorySound(s) && t < 2 && t !in s.tasks
    ensures MemorySound(SetTask(s, t, Asked(s.watermark)))
  {
    var next := SetTask(s, t, Asked(s.watermark));
    forall x | x in next.published ensures Settled(next, x) {
      AskedIsSettled(s, t, x);
    }
  }

  lemma FetchKeepsMemory(s: System, t: nat)
    requires MemorySound(s) && t in s.tasks
    ensures MemorySound(SetTask(s, t, Holding(s.tasks[t].after, Query(s.table, s.tasks[t].after, DRAIN_LIMIT))))
  {
    var rows := Query(s.table, s.tasks[t].after, DRAIN_LIMIT);
    var next := SetTask(s, t, Holding(s.tasks[t].after, rows));
    forall x | x in next.published ensures Settled(next, x) {
      FetchedIsSettled(s, t, rows, x);
    }
  }

  lemma AbandonKeepsMemory(s: System, t: nat)
    requires MemorySound(s)
    ensures MemorySound(s.(tasks := s.tasks - {t}))
  {
    forall x | x in s.published ensures Settled(s.(tasks := s.tasks - {t}), x) {
      assert Settled(s, x);
    }
  }

  lemma TaskStepKeepsMemory(s: System, e: Event)
    requires FanSound(s) && MemorySound(s) && TaskEvent(e) && TwoTasks(s, e)
    ensures MemorySound(TaskStep(s, e))
  {
    match e
    case Ask(t) =>
      if t !in s.tasks {
        AskKeepsMemory(s, t);
      }
    case Fetch(t) =>
      if t in s.tasks && s.tasks[t].Asked? {
        FetchKeepsMemory(s, t);
      }
    case Deliver(t) =>
      if t in s.tasks && s.tasks[t].Holding? {
        assert TaskSound(s, s.tasks[t]);
        PublishKeepsMemory(s, t, s.tasks[t].after, s.tasks[t].rows);
      }
    case Abandon(t) => AbandonKeepsMemory(s, t);
  }

  lemma DrainIsPublish(s: System, t: nat)
    requires t !in s.tasks
    ensures Step(s, Drain) == PublishAll(s.(tasks := s.tasks - {t}), Query(s.table, s.watermark, DRAIN_LIMIT))
  {
    assert s.tasks - {t} == s.tasks;
  }

  lemma DrainIsPublishable(s: System)
    requires Sorted(s.table) && s.start <= s.watermark
    ensures Publishable(s, s.watermark, Query(s.table, s.watermark, DRAIN_LIMIT))
    ensures |Query(s.table, s.watermark, DRAIN_LIMIT)| <= DRAIN_LIMIT
  {
    QueryCovers(s.table, s.watermark, DRAIN_LIMIT);
  }

  lemma DrainKeepsMemory(s: System)
    requires FanSound(s) && MemorySound(s) && TwoTasks(s, Drain)
    ensures MemorySound(Step(s, Drain))
  {
    var t: nat :| t < 2 && t !in s.tasks;
    DrainIsPublish(s, t);
    DrainIsPublishable(s);
    PublishKeepsMemory(s, t, s.watermark, Query(s.table, s.watermark, DRAIN_LIMIT));
  }

  lemma QuietStepKeepsMemory(s: System, e: Event)
    requires MemorySound(s) && !TaskEvent(e) && !e.Drain?
    ensures MemorySound(Step(s, e))
  {
    var next := Step(s, e);
    assert next.tasks == s.tasks && next.published == s.published && next.buffer == s.buffer;
    forall x | x in next.published ensures Settled(next, x) {
      assert Settled(s, x);
    }
  }

  lemma StepKeepsMemory(s: System, e: Event)
    requires FanSound(s) && MemorySound(s) && TwoTasks(s, e)
    ensures MemorySound(Step(s, e))
  {
    if TaskEvent(e) {
      TaskStepKeepsMemory(s, e);
    } else if e.Drain? {
      DrainKeepsMemory(s);
    } else {
      QuietStepKeepsMemory(s, e);
    }
  }

  lemma {:induction false} TraceKeepsMemory(table: seq<Message>, events: seq<Event>)
    requires Numbered(table) && TwoTaskRun(Started(table), events)
    ensures MemorySound(Trace(Started(table), events))
  {
    if events != [] {
      var before := events[..|events| - 1];
      TwoTaskPrefix(Started(table), events);
      TraceKeepsMemory(table, before);
      TraceKeepsFanSound(table, before);
      StepKeepsMemory(Trace(Started(table), before), events[|events| - 1]);
    }
  }

  // ---- counting the buffer ---------------------------------------------------------------

  /** What the broker can check of its buffer: no id is in it twice. */
  predicate DistinctIds(buffer: seq<Message>) {
    forall i, j | 0 <= i < j < |buffer| :: Id(buffer[i]) != Id(buffer[j])
  }

  function Beneath(rows: seq<Message>, id: nat): seq<Message> {
    if rows == [] then []
    else Beneath(rows[..|rows| - 1], id) + if Id(rows[|rows| - 1]) < id then [rows[|rows| - 1]] else []
  }

  lemma {:induction false} LowCoversSuffix(published: seq<Message>, part: seq<Message>, x: Message)
    requires Suffixed(part, published) && x !in part
    ensures |Beneath(part, Id(x))| <= |Low(published, x)|
  {
    if part != [] {
      var last := published[|published| - 1];
      assert part[|part| - 1] == last && part[..|part| - 1] == published[..|published| - 1][|published| - |part|..];
      LowCoversSuffix(published[..|published| - 1], part[..|part| - 1], x);
    }
  }

  lemma {:induction false} BeneathOrAbove(rows: seq<Message>, id: nat)
    requires forall m | m in rows :: Id(m) != id
    ensures |rows| == |Beneath(rows, id)| + |Above(rows, id)|
  {
    if rows != [] {
      BeneathOrAbove(rows[..|rows| - 1], id);
      assert rows[|rows| - 1] in rows && forall m | m in rows[..|rows| - 1] :: m in rows;
    }
  }

  lemma LastIdIsNew(rows: seq<Message>, m: Message)
    requires rows != [] && DistinctIds(rows) && m in rows[..|rows| - 1]
    ensures Id(m) != Id(rows[|rows| - 1])
  {
    var i :| 0 <= i < |rows| - 1 && rows[i] == m;
  }

  lemma DistinctAppend(rows: seq<Message>, m: Message)
    requires DistinctIds(rows) && forall x | x in rows :: Id(x) != Id(m)
    ensures DistinctIds(rows + [m])
  {
    assert forall i | 0 <= i < |rows| :: rows[i] in rows;
  }

  lemma {:induction false} AboveStaysDistinct(rows: seq<Message>, id: nat)
    requires DistinctIds(rows)
    ensures DistinctIds(Above(rows, id))
  {
    if rows != [] {
      var before := rows[..|rows| - 1];
      AboveStaysDistinct(before, id);
      forall m | m in Above(before, id) ensures Id(m) != Id(rows[|rows| - 1]) {
        LastIdIsNew(rows, m);
      }
      DistinctAppend(Above(before, id), rows[|rows| - 1]);
    }
  }

  lemma {:induction false} DistinctIdsFit(rows: seq<Message>, low: nat, high: nat)
    requires low <= high && DistinctIds(rows) && forall m | m in rows :: low < Id(m) <= high
    ensures |rows| <= high - low
    decreases high - low
  {
    if rows != [] {
      assert rows[0] in rows;
      if i: nat :| i < |rows| && Id(rows[i]) == high {
        var rest := rows[..i] + rows[i + 1..];
        RemovedStaysDistinct(rows, i);
        assert forall m | m in rest :: m in rows;
        DistinctIdsFit(rest, low, high - 1);
      } else {
        assert forall m | m in rows :: Id(m) != high;
        DistinctIdsFit(rows, low, high - 1);
      }
    }
  }

  lemma RemovedStaysDistinct(rows: seq<Message>, i: nat)
    requires DistinctIds(rows) && i < |rows|
    ensures var rest := rows[..i] + rows[i + 1..];
            DistinctIds(rest) && forall m | m in rest :: Id(m) != Id(rows[i])
  {
    var rest := rows[..i] + rows[i + 1..];
    forall j | 0 <= j < |rest| ensures Id(rest[j]) != Id(rows[i]) {
      assert rest[j] == rows[if j < i then j else j + 1];
    }
    forall j, k | 0 <= j < k < |rest| ensures Id(rest[j]) != Id(rest[k]) {
      assert rest[j] == rows[if j < i then j else j + 1] && rest[k] == rows[if k < i then k else k + 1];
    }
  }

  lemma MissingMeansShort(s: System, x: Message)
    requires TableSound(s) && s.buffer == LastPart(s.published) && DistinctIds(s.buffer)
    requires x in s.published && x !in s.buffer && |Low(s.published, x)| <= DRAIN_LIMIT
    ensures |s.buffer| <= DRAIN_LIMIT + s.watermark - Id(x)
  {
    assert forall m | m in s.buffer :: m in s.published;
    forall m | m in s.buffer ensures Id(m) != Id(x) {
      if Id(m) == Id(x) {
        OneRowPerId(s.table, m, x);
      }
    }
    LowCoversSuffix(s.published, s.buffer, x);
    BeneathOrAbove(s.buffer, Id(x));
    AboveStaysDistinct(s.buffer, Id(x));
    DistinctIdsFit(Above(s.buffer, Id(x)), Id(x), s.watermark);
  }

  lemma MissingMeansFull(published: seq<Message>, x: Message)
    requires x in published && x !in LastPart(published)
    ensures |LastPart(published)| == BUFFER_SIZE
  {
  }

  /** A buffer without a repeated id is trusted: whenever the replay is served
      from it, it holds every row above the last id and up to the watermark. */
  lemma DistinctMemoryHasNoGap(s: System, after: int)
    requires TableSound(s) && MemorySound(s) && s.overtaken == {} && DistinctIds(s.buffer)
    requires ReplaySource(s.watermark, s.buffer, after).Memory?
    ensures Gapless(s, after)
  {
    MemoryStart(s, after);
    forall x | x in s.table && after < Id(x) <= s.watermark ensures x in s.buffer {
      assert x in s.published && Settled(s, x);
      if x !in s.buffer {
        MissingMeansShort(s, x);
        MissingMeansFull(s.published, x);
      }
    }
  }

  // ---- over whole runs -----------------------------------------------------------------------

  /** Whoever reconnects meets a buffer without a repeated id. */
  predicate DistinctJoins(s: System, events: seq<Event>) {
    forall i | 0 <= i < |events| :: events[i].Join? ==> DistinctIds(Trace(s, events[..i]).buffer)
  }

  lemma DistinctPrefix(s: System, events: seq<Event>)
    requires DistinctJoins(s, events) && events != []
    ensures DistinctJoins(s, events[..|events| - 1])
    ensures events[|events| - 1].Join? ==> DistinctIds(Trace(s, events[..|events| - 1]).buffer)
  {
    var before := events[..|events| - 1];
    forall i | 0 <= i < |before| && before[i].Join? ensures DistinctIds(Trace(s, before[..i]).buffer) {
      assert before[..i] == events[..i];
    }
  }

  lemma JoinedFromDistinctMemory(s: System, topics: set<string>, run: Option<string>, last: Option<int>)
    requires TableSound(s) && MemorySound(s) && s.overtaken == {} && DistinctIds(s.buffer)
    ensures Joined(s, topics, run, last).gapless
  {
    if last.Some? && ReplaySource(s.watermark, s.buffer, last.value).Memory? {
      DistinctMemoryHasNoGap(s, last.value);
      HeardAllMembers(Viewer(topics, run, last, Live, false, [], s.watermark, true),
                      ReplaySource(s.watermark, s.buffer, last.value).rows);
    }
  }

  lemma StepKeepsTrust(s: System, e: Event)
    requires FanSound(s) && MemorySound(s) && s.overtaken == {} && NoGaps(s) && (e.Join? ==> DistinctIds(s.buffer))
    ensures NoGaps(Step(s, e))
  {
    var next := Step(s, e);
    forall v | v in next.viewers ensures next.viewers[v].gapless {
      if v !in s.viewers {
        JoinedFromDistinctMemory(s, e.topics, e.run, e.last);
      } else {
        ViewerKeepsGapless(s, e, v);
      }
    }
  }

  lemma ViewerKeepsGapless(s: System, e: Event, v: nat)
    requires v in s.viewers && v in Step(s, e).viewers
    ensures Step(s, e).viewers[v].gapless == s.viewers[v].gapless
  {
    if e.Drain? {
      HeardAllMembers(s.viewers[v], Query(s.table, s.watermark, DRAIN_LIMIT));
    } else if e.Deliver? && e.task in s.tasks && s.tasks[e.task].Holding? {
      HeardAllMembers(s.viewers[v], s.tasks[e.task].rows);
    } else if e.Level? {
      HeardAllMembers(s.viewers[v], [e.m]);
    } else if e.ReplayDeliver? && s.viewers[v].stage.Answered? {
      HeardAllMembers(s.viewers[v].(stage := Live), s.viewers[v].stage.rows);
    }
  }

  /** With ids in order and at most two drains at a time, a viewer that joins while
      no id is twice in the buffer never meets a gap. */
  lemma {:induction false} TwoTaskRunsHaveNoGaps(table: seq<Message>, events: seq<Event>)
    requires Numbered(table) && InOrderRun(Started(table), events)
    requires TwoTaskRun(Started(table), events) && DistinctJoins(Started(table), events)
    ensures NoGaps(Trace(Started(table), events))
  {
    if events != [] {
      var before := events[..|events| - 1];
      InOrderPrefix(Started(table), events);
      TwoTaskPrefix(Started(table), events);
      DistinctPrefix(Started(table), events);
      TwoTaskRunsHaveNoGaps(table, before);
      TraceKeepsFanSound(table, before);
      TraceKeepsMemory(table, before);
      NothingIsOvertaken(table, before);
      StepKeepsTrust(Trace(Started(table), before), events[|events| - 1]);
    }
  }
}
