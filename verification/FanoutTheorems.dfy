/** What the live stream promises, over every interleaving of its tasks. */
module FanoutTheorems {
  import opened Tables
  import opened Clients
  import opened EventLog
  import opened Broker
  import opened Fanout
  import opened FanoutProofs

  // ---- the watermark -----------------------------------------------------------

  lemma {:induction false} WatermarkNeverFalls(s: System, events: seq<Event>)
    requires FanSound(s)
    ensures FanSound(Trace(s, events)) && s.watermark <= Trace(s, events).watermark
  {
    if events != [] {
      var t := Trace(s, events[..|events| - 1]);
      WatermarkNeverFalls(s, events[..|events| - 1]);
      StepKeepsFanSound(t, events[|events| - 1]);
      StepRaises(t, events[|events| - 1]);
    }
  }

  lemma {:induction false} RaisedNeverFalls(watermark: nat, rows: seq<Message>)
    ensures watermark <= Raised(watermark, rows)
  {
    if rows != [] {
      RaisedNeverFalls(watermark, rows[..|rows| - 1]);
    }
  }

  lemma StepRaises(s: System, e: Event)
    ensures s.watermark <= Step(s, e).watermark
  {
    if e.Drain? {
      RaisedNeverFalls(s.watermark, Query(s.table, s.watermark, DRAIN_LIMIT));
    } else if e.Deliver? && e.task in s.tasks && s.tasks[e.task].Holding? {
      RaisedNeverFalls(s.watermark, s.tasks[e.task].rows);
    }
  }

  // ---- ids that become visible in order --------------------------------------------

  predicate InOrder(s: System, e: Event) {
    e.Commit? ==> s.start < Id(e.m) && forall r | r in s.table :: Id(r) < Id(e.m)
  }

  predicate InOrderRun(s: System, events: seq<Event>) {
    forall i | 0 <= i < |events| :: InOrder(Trace(s, events[..i]), events[i])
  }

  lemma InOrderPrefix(s: System, events: seq<Event>)
    requires InOrderRun(s, events) && events != []
    ensures InOrderRun(s, events[..|events| - 1])
    ensures InOrder(Trace(s, events[..|events| - 1]), events[|events| - 1])
  {
    var before := events[..|events| - 1];
    forall i | 0 <= i < |before| ensures InOrder(Trace(s, before[..i]), before[i]) {
      assert before[..i] == events[..i];
    }
  }

  lemma InOrderOvertakesNothing(s: System, m: Message)
    requires FanSound(s) && InOrder(s, Commit(m))
    ensures !Overtakes(s, Id(m))
  {
    forall t | t in s.tasks && s.tasks[t].Holding? ensures Newest(s.tasks[t].rows) < Id(m) {
      assert TaskSound(s, s.tasks[t]);
      var rows := s.tasks[t].rows;
      assert rows != [] ==> rows[|rows| - 1] in rows;
    }
  }

  lemma OthersOvertakeNothing(s: System, e: Event)
    requires !e.Commit?
    ensures Step(s, e).overtaken == s.overtaken
  {
  }

  lemma {:induction false} NothingIsOvertaken(table: seq<Message>, events: seq<Event>)
    requires Numbered(table) && InOrderRun(Started(table), events)
    ensures Trace(Started(table), events).overtaken == {}
  {
    if events != [] {
      var before := events[..|events| - 1];
      var e := events[|events| - 1];
      InOrderPrefix(Started(table), events);
      NothingIsOvertaken(table, before);
      if e.Commit? {
        TraceKeepsFanSound(table, before);
        InOrderOvertakesNothing(Trace(Started(table), before), e.m);
      } else {
        OthersOvertakeNothing(Trace(Started(table), before), e);
      }
    }
  }

  /** Whatever the listener and the reconciler interleave: every visible row
      between the start and the watermark has been published. */
  lemma EveryRowIsPublished(table: seq<Message>, events: seq<Event>, m: Message)
    requires Numbered(table) && InOrderRun(Started(table), events)
    requires var s := Trace(Started(table), events);
             m in s.table && s.start < Id(m) <= s.watermark
    ensures m in Trace(Started(table), events).published
  {
    TraceKeepsFanSound(table, events);
    NothingIsOvertaken(table, events);
  }

  /** A row that was never published although the watermark passed it became
      visible after a drain had read beyond it. */
  lemma OnlyOvertakenRowsAreMissed(table: seq<Message>, events: seq<Event>, m: Message)
    requires Numbered(table)
    requires var s := Trace(Started(table), events);
             m in s.table && s.start < Id(m) <= s.watermark && m !in s.published
    ensures Id(m) in Trace(Started(table), events).overtaken
  {
    TraceKeepsFanSound(table, events);
  }

  // ---- the seam between replay and live ----------------------------------------------

  /** A viewer whose replay has finished, and that was not told to resync, has
      been offered every row it wants above its last id, up to the watermark;
      the row limit of the replay never cuts one off. */
  lemma SeamHasNoGap(table: seq<Message>, events: seq<Event>, v: nat, m: Message)
    requires Numbered(table) && InOrderRun(Started(table), events)
    requires var s := Trace(Started(table), events);
             v in s.viewers && s.viewers[v].last.Some? && s.viewers[v].stage == Live &&
             !s.viewers[v].told && s.viewers[v].gapless &&
             m in s.table && Interested(s.viewers[v], m) && s.viewers[v].last.value < Id(m) <= s.watermark
    ensures m in Trace(Started(table), events).viewers[v].offered
  {
    TraceKeepsFanSound(table, events);
    NothingIsOvertaken(table, events);
    var s := Trace(Started(table), events);
    assert Followed(s, s.viewers[v]) && Repaid(s, s.viewers[v]);
    if Id(m) > s.viewers[v].joined {
      EveryRowIsPublished(table, events, m);
    }
  }

  /** Only a replay from memory can leave a gap; the table never does. */
  lemma OnlyMemoryHasGaps(s: System, topics: set<string>, run: Option<string>, last: Option<int>)
    requires !Joined(s, topics, run, last).gapless
    ensures last.Some? && ReplaySource(s.watermark, s.buffer, last.value).Memory?
    ensures !Gapless(s, last.value) && Joined(s, topics, run, last).stage == Live
  {
    var source := ReplaySource(s.watermark, s.buffer, last.value);
    if source.Memory? {
      HeardAllMembers(Viewer(topics, run, last, Live, false, [], s.watermark, Gapless(s, last.value)), source.rows);
    }
  }

  // ---- drains that run alone -----------------------------------------------------------

  predicate Alone(e: Event) {
    !TaskEvent(e)
  }

  predicate AloneRun(events: seq<Event>) {
    forall e | e in events :: Alone(e)
  }

  function LastPart(rows: seq<Message>): seq<Message> {
    if |rows| > BUFFER_SIZE then rows[|rows| - BUFFER_SIZE..] else rows
  }

  lemma LastPartGrows(published: seq<Message>, m: Message)
    requires m.id.Some?
    ensures Remember(LastPart(published), m) == LastPart(published + [m])
  {
  }

  lemma {:induction false} MemoryIsLastPart(published: seq<Message>, rows: seq<Message>)
    requires forall m | m in rows :: m.id.Some?
    ensures RememberAll(LastPart(published), rows) == LastPart(published + rows)
  {
    if rows == [] {
      assert published + rows == published;
    } else {
      var before := rows[..|rows| - 1];
      MemoryIsLastPart(published, before);
      LastPartGrows(published + before, rows[|rows| - 1]);
      assert rows[|rows| - 1] in rows && published + rows == (published + before) + [rows[|rows| - 1]];
    }
  }

  /** With drains that run alone, publication is exactly the table in id order,
      less what was overtaken, and memory is its last part. */
  predicate AloneSound(s: System) {
    s.tasks == map[] && Sorted(s.published) && s.buffer == LastPart(s.published) &&
    (forall id | id in s.overtaken :: id <= s.watermark) &&
    (forall m | m in s.published :: !Lost(s, m))
  }

  lemma DrainKeepsAlone(s: System)
    requires FanSound(s) && AloneSound(s)
    ensures AloneSound(Step(s, Drain))
  {
    var rows := Query(s.table, s.watermark, DRAIN_LIMIT);
    QueryCovers(s.table, s.watermark, DRAIN_LIMIT);
    RaisedNeverFalls(s.watermark, rows);
    MemoryIsLastPart(s.published, rows);
    forall i, j | 0 <= i < j < |s.published + rows|
      ensures Id((s.published + rows)[i]) < Id((s.published + rows)[j])
    {
      assert i < |s.published| ==> s.published[i] in s.published;
      assert j >= |s.published| ==> rows[j - |s.published|] in rows;
    }
  }

  lemma CommitKeepsAlone(s: System, m: Message)
    requires TableSound(s) && AloneSound(s)
    ensures AloneSound(Committed(s, m))
  {
    if Acceptable(s, m) {
      assert forall p | p in s.published :: p in s.table;
    }
  }

  lemma QuietStepKeepsAlone(s: System, e: Event)
    requires AloneSound(s) && Alone(e) && !e.Commit? && !e.Drain?
    ensures AloneSound(Step(s, e))
  {
  }

  lemma StepKeepsAlone(s: System, e: Event)
    requires FanSound(s) && AloneSound(s) && Alone(e)
    ensures AloneSound(Step(s, e))
  {
    if e.Drain? {
      DrainKeepsAlone(s);
    } else if e.Commit? {
      CommitKeepsAlone(s, e.m);
    } else {
      QuietStepKeepsAlone(s, e);
    }
  }

  lemma {:induction false} TraceKeepsAlone(table: seq<Message>, events: seq<Event>)
    requires Numbered(table) && AloneRun(events)
    ensures AloneSound(Trace(Started(table), events))
  {
    if events != [] {
      var before := events[..|events| - 1];
      assert events[|events| - 1] in events && forall e | e in before :: e in events;
      TraceKeepsAlone(table, before);
      TraceKeepsFanSound(table, before);
      StepKeepsAlone(Trace(Started(table), before), events[|events| - 1]);
    }
  }

  /** Without any assumption on ids: a row at or below the watermark has been
      published exactly when the watermark was below it as it became visible. */
  lemma PublishedIffNotOvertaken(table: seq<Message>, events: seq<Event>, m: Message)
    requires Numbered(table) && AloneRun(events)
    requires var s := Trace(Started(table), events);
             m in s.table && s.start < Id(m) <= s.watermark
    ensures var s := Trace(Started(table), events);
            m in s.published <==> Id(m) !in s.overtaken
  {
    TraceKeepsFanSound(table, events);
    TraceKeepsAlone(table, events);
  }

  /** A row is overtaken exactly when the watermark had reached its id as it
      became visible. */
  lemma OvertakenMeansBelowWatermark(table: seq<Message>, events: seq<Event>, m: Message)
    requires Numbered(table) && AloneRun(events)
    requires Acceptable(Trace(Started(table), events), m)
    ensures var s := Trace(Started(table), events);
            Id(m) in Step(s, Commit(m)).overtaken <==> Id(m) <= s.watermark || Id(m) in s.overtaken
  {
    TraceKeepsAlone(table, events);
  }

  function Numbering(id: nat): Message {
    Message("job.changed", "jobs", Some(id), None, None, "")
  }

  lemma OneMore(s: System, events: seq<Event>, e: Event)
    ensures Trace(s, events + [e]) == Step(Trace(s, events), e)
  {
    assert (events + [e])[..|events|] == events;
  }

  /** A run whose state is known, and one event more. */
  lemma Reaches(events: seq<Event>, e: Event, s: System, t: System)
    requires Trace(Started([]), events) == s && Step(s, e) == t
    ensures Trace(Started([]), events + [e]) == t
  {
    OneMore(Started([]), events, e);
  }

  lemma AboveOneMore(rows: seq<Message>, m: Message, after: int)
    ensures Above(rows + [m], after) == Above(rows, after) + if Id(m) > after then [m] else []
  {
    assert (rows + [m])[..|rows|] == rows;
  }

  function WithRows(table: seq<Message>, watermark: nat, published: seq<Message>, overtaken: set<nat>): System {
    System(table, 0, watermark, published, map[], map[], published, overtaken)
  }

  lemma PublishOne(s: System, m: Message)
    requires s.viewers == map[]
    ensures PublishAll(s, [m]) ==
            s.(watermark := Max(s.watermark, Id(m)), buffer := Remember(s.buffer, m), published := s.published + [m])
  {
    assert [m][..|[m]| - 1] == [];
    assert Raised(s.watermark, [m]) == Max(s.watermark, Id(m));
    assert RememberAll(s.buffer, [m]) == Remember(s.buffer, m);
    assert FanOut(s, [m]) == s.viewers;
  }

  lemma PublishNone(s: System)
    ensures PublishAll(s, []) == s
  {
    assert FanOut(s, []) == s.viewers;
  }

  lemma FirstRow(b: Message)
    requires b.id.Some? && Id(b) > 0
    ensures Step(Started([]), Commit(b)) == WithRows([b], 0, [], {})
  {
    assert Insert([], b) == [b];
  }

  lemma OnlyRow(b: Message, after: nat)
    ensures Query([b], after, DRAIN_LIMIT) == if Id(b) > after then [b] else []
  {
    AboveOneMore([], b, after);
    assert [] + [b] == [b];
    assert Above([], after) == [];
    assert |Above([b], after)| <= 1;
  }

  lemma FirstRemembered(b: Message)
    requires b.id.Some?
    ensures Remember([], b) == [b]
  {
  }

  lemma FirstDrain(b: Message)
    requires b.id.Some? && Id(b) > 0
    ensures Step(WithRows([b], 0, [], {}), Drain) == WithRows([b], Id(b), [b], {})
  {
    OnlyRow(b, 0);
    PublishOne(WithRows([b], 0, [], {}), b);
    FirstRemembered(b);
  }

  lemma LateRow(a: Message, b: Message)
    requires a.id.Some? && b.id.Some? && Id(a) < Id(b)
    ensures Step(WithRows([b], Id(b), [b], {}), Commit(a)) == WithRows([a, b], Id(b), [b], {Id(a)})
  {
    assert [b][..0] == [] && [a] + [b] == [a, b];
    assert Insert([], a) == [a] && Insert([b], a) == [a] + [b];
  }

  lemma NothingAboveLast(a: Message, b: Message)
    requires Id(a) < Id(b)
    ensures Query([a, b], Id(b), DRAIN_LIMIT) == []
  {
    OnlyRow(a, Id(b));
    AboveOneMore([a], b, Id(b));
    assert [a] + [b] == [a, b];
  }

  lemma LateDrain(a: Message, b: Message)
    requires a.id.Some? && b.id.Some? && Id(a) < Id(b)
    ensures var s := WithRows([a, b], Id(b), [b], {Id(a)});
            Step(s, Drain) == s
  {
    NothingAboveLast(a, b);
    PublishNone(WithRows([a, b], Id(b), [b], {Id(a)}));
  }

  /** Any two transactions that commit against the order of their ids lose an
      event: it is in the table, at or below the watermark, and never published. */
  lemma OutOfOrderIsLost(a: Message, b: Message)
    requires a.id.Some? && b.id.Some? && 0 < Id(a) < Id(b)
    ensures var s := Trace(Started([]), [Commit(b), Drain, Commit(a), Drain]);
            s.table == [a, b] && s.watermark == Id(b) && s.published == [b]
  {
    var late := WithRows([a, b], Id(b), [b], {Id(a)});
    var first := FirstPublished(b);
    LateRow(a, b);
    Reaches(first, Commit(a), WithRows([b], Id(b), [b], {}), late);
    LateDrain(a, b);
    Reaches(first + [Commit(a)], Drain, late, late);
    assert first + [Commit(a)] + [Drain] == [Commit(b), Drain, Commit(a), Drain];
  }

  lemma FirstPublished(b: Message) returns (events: seq<Event>)
    requires b.id.Some? && Id(b) > 0
    ensures events == [Commit(b), Drain] && Trace(Started([]), events) == WithRows([b], Id(b), [b], {})
  {
    events := [Commit(b)];
    FirstRow(b);
    Reaches([], Commit(b), Started([]), WithRows([b], 0, [], {}));
    assert [] + [Commit(b)] == events;
    FirstDrain(b);
    Reaches(events, Drain, WithRows([b], 0, [], {}), WithRows([b], Id(b), [b], {}));
    events := events + [Drain];
  }

  // ---- replay from memory ----------------------------------------------------------------

  predicate Suffixed(part: seq<Message>, whole: seq<Message>) {
    |part| <= |whole| && part == whole[|whole| - |part|..]
  }

  lemma SuffixHoldsNewer(part: seq<Message>, whole: seq<Message>, oldest: Message, m: Message)
    requires Sorted(whole) && Suffixed(part, whole) && oldest in part && m in whole && Id(oldest) <= Id(m)
    ensures m in part
  {
    var cut := |whole| - |part|;
    var i :| 0 <= i < |part| && part[i] == oldest;
    var j :| 0 <= j < |whole| && whole[j] == m;
    SortedOrder(whole, cut + i, j);
    assert part[j - cut] == m;
  }

  lemma LastPartIsSuffix(rows: seq<Message>)
    ensures Suffixed(LastPart(rows), rows)
  {
  }

  lemma MemoryHolds(s: System, after: int, m: Message)
    requires Sorted(s.published) && s.buffer == LastPart(s.published) && s.buffer != [] && Oldest(s.buffer) <= after + 1
    requires forall p | p in s.published :: s.start < Id(p)
    requires m in s.published && after < Id(m)
    ensures m in s.buffer && s.start <= after
  {
    MemoryStart(s, after);
    MemoryHoldsNewer(s.published, after, m);
  }

  lemma MemoryHoldsNewer(published: seq<Message>, after: int, m: Message)
    requires Sorted(published) && LastPart(published) != [] && Oldest(LastPart(published)) <= after + 1
    requires m in published && after < Id(m)
    ensures m in LastPart(published)
  {
    LastPartIsSuffix(published);
    SuffixHoldsAll(LastPart(published), published, m);
  }

  lemma SuffixHoldsAll(part: seq<Message>, whole: seq<Message>, m: Message)
    requires Sorted(whole) && Suffixed(part, whole) && part != [] && m in whole && Oldest(part) <= Id(m)
    ensures m in part
  {
    var oldest :| oldest in part && Id(oldest) == Oldest(part);
    SuffixHoldsNewer(part, whole, oldest, m);
  }

  lemma MemoryStart(s: System, after: int)
    requires s.buffer == LastPart(s.published) && s.buffer != [] && Oldest(s.buffer) <= after + 1
    requires forall p | p in s.published :: s.start < Id(p)
    ensures s.start <= after
  {
    var oldest :| oldest in s.buffer && Id(oldest) == Oldest(s.buffer);
    assert oldest in s.published;
  }

  lemma SortedMemory(s: System)
    requires Sorted(s.published) && s.buffer == LastPart(s.published)
    ensures Sorted(s.buffer) && forall m | m in s.buffer :: m in s.published
  {
  }

  lemma MemoryMembers(s: System, after: int)
    requires TableSound(s) && AloneSound(s) && s.overtaken == {} && ReplaySource(s.watermark, s.buffer, after).Memory?
    ensures Sorted(Buffered(s.buffer, after))
    ensures forall m :: m in Buffered(s.buffer, after) <==> m in s.table && after < Id(m) <= s.watermark
  {
    SortedMemory(s);
    MemoryStart(s, after);
    forall m | m in s.table && after < Id(m) <= s.watermark ensures m in s.buffer {
      MemoryHolds(s, after, m);
    }
  }

  function UpTo(rows: seq<Message>, watermark: nat): seq<Message> {
    if rows == [] then []
    else
      var last := rows[|rows| - 1];
      var before := UpTo(rows[..|rows| - 1], watermark);
      if Id(last) <= watermark then before + [last] else before
  }

  lemma {:induction false} UpToMember(rows: seq<Message>, watermark: nat, m: Message)
    ensures m in UpTo(rows, watermark) <==> m in rows && Id(m) <= watermark
  {
    if rows != [] {
      UpToMember(rows[..|rows| - 1], watermark, m);
      assert rows == rows[..|rows| - 1] + [rows[|rows| - 1]];
    }
  }

  lemma {:induction false} UpToIsSorted(rows: seq<Message>, watermark: nat)
    requires Sorted(rows)
    ensures Sorted(UpTo(rows, watermark))
  {
    if rows != [] {
      var before := rows[..|rows| - 1];
      UpToIsSorted(before, watermark);
      forall m | m in UpTo(before, watermark) ensures Id(m) < Id(rows[|rows| - 1]) {
        UpToMember(before, watermark, m);
      }
    }
  }

  /** Replaying from memory offers what the table query would, in the same
      order, up to the watermark. */
  lemma MemoryReplaysTheTable(table: seq<Message>, events: seq<Event>, after: int)
    requires Numbered(table) && AloneRun(events) && InOrderRun(Started(table), events)
    requires var s := Trace(Started(table), events);
             ReplaySource(s.watermark, s.buffer, after).Memory?
    ensures var s := Trace(Started(table), events);
            ReplaySource(s.watermark, s.buffer, after).rows == UpTo(Query(s.table, after, MAX_REPLAY), s.watermark)
  {
    TraceKeepsFanSound(table, events);
    TraceKeepsAlone(table, events);
    NothingIsOvertaken(table, events);
    var s := Trace(Started(table), events);
    MemoryMembers(s, after);
    QueryCovers(s.table, after, MAX_REPLAY);
    forall m | m in s.table && after < Id(m) <= s.watermark ensures m in Query(s.table, after, MAX_REPLAY) {
      LimitIsEnough(s.table, after, MAX_REPLAY, m);
    }
    var asked := Query(s.table, after, MAX_REPLAY);
    UpToIsSorted(asked, s.watermark);
    forall m ensures m in UpTo(asked, s.watermark) <==> m in Buffered(s.buffer, after) {
      UpToMember(asked, s.watermark, m);
    }
    SameMembers(Buffered(s.buffer, after), UpTo(asked, s.watermark));
  }

  predicate NoGaps(s: System) {
    forall v | v in s.viewers :: s.viewers[v].gapless
  }

  lemma StepKeepsNoGaps(s: System, e: Event)
    requires FanSound(s) && AloneSound(s) && s.overtaken == {} && Alone(e) && NoGaps(s)
    ensures NoGaps(Step(s, e))
  {
    var next := Step(s, e);
    forall v | v in next.viewers ensures next.viewers[v].gapless {
      if v !in s.viewers {
        JoinedHasNoGap(s, e.topics, e.run, e.last);
      } else if e.Drain? {
        HeardAllMembers(s.viewers[v], Query(s.table, s.watermark, DRAIN_LIMIT));
      } else if e.Level? {
        HeardAllMembers(s.viewers[v], [e.m]);
      } else if e.ReplayDeliver? && s.viewers[v].stage.Answered? {
        HeardAllMembers(s.viewers[v].(stage := Live), s.viewers[v].stage.rows);
      }
    }
  }

  lemma JoinedHasNoGap(s: System, topics: set<string>, run: Option<string>, last: Option<int>)
    requires FanSound(s) && AloneSound(s) && s.overtaken == {}
    ensures Joined(s, topics, run, last).gapless
  {
    if last.Some? && ReplaySource(s.watermark, s.buffer, last.value).Memory? {
      MemoryMembers(s, last.value);
      HeardAllMembers(Viewer(topics, run, last, Live, false, [], s.watermark, true),
                      ReplaySource(s.watermark, s.buffer, last.value).rows);
    }
  }

  lemma {:induction false} AloneRunsHaveNoGaps(table: seq<Message>, events: seq<Event>)
    requires Numbered(table) && AloneRun(events) && InOrderRun(Started(table), events)
    ensures NoGaps(Trace(Started(table), events))
  {
    if events != [] {
      var before := events[..|events| - 1];
      assert events[|events| - 1] in events && forall e | e in before :: e in events;
      InOrderPrefix(Started(table), events);
      AloneRunsHaveNoGaps(table, before);
      TraceKeepsFanSound(table, before);
      TraceKeepsAlone(table, before);
      NothingIsOvertaken(table, before);
      StepKeepsNoGaps(Trace(Started(table), before), events[|events| - 1]);
    }
  }

  // ---- catching up ---------------------------------------------------------------------------

  function Behind(s: System): nat {
    |Above(s.table, s.watermark)|
  }

  function Drained(s: System, times: nat): System {
    if times == 0 then s else Step(Drained(s, times - 1), Drain)
  }

  lemma BacklogSplits(above: seq<Message>, rows: seq<Message>, rest: seq<Message>, m: Message)
    requires Sorted(above) && above == rows + rest && (rows == [] ==> rest == [])
    ensures m in rest <==> m in above && Id(m) > Newest(rows)
  {
    forall i, j | 0 <= i < j < |rows| ensures Id(rows[i]) < Id(rows[j]) {
      assert above[i] == rows[i] && above[j] == rows[j];
    }
    NewestIsGreatest(rows);
    if m in rest {
      var i :| 0 <= i < |rest| && rest[i] == m;
      assert above[|rows| + i] == m;
      assert above[|rows| - 1] == rows[|rows| - 1];
    }
  }

  lemma BacklogRest(table: seq<Message>, after: nat, rest: seq<Message>)
    requires Sorted(table) && Above(table, after) == Query(table, after, DRAIN_LIMIT) + rest
    requires Query(table, after, DRAIN_LIMIT) == [] ==> rest == []
    ensures Above(table, Max(after, Newest(Query(table, after, DRAIN_LIMIT)))) == rest
  {
    var above := Above(table, after);
    var rows := Query(table, after, DRAIN_LIMIT);
    if rows != [] {
      assert rows[|rows| - 1] in above;
    }
    forall m ensures m in Above(table, Max(after, Newest(rows))) <==> m in rest {
      BacklogSplits(above, rows, rest, m);
    }
    SuffixIsSorted(above, rows, rest);
    SameMembers(Above(table, Max(after, Newest(rows))), rest);
  }

  lemma SuffixIsSorted(whole: seq<Message>, a: seq<Message>, b: seq<Message>)
    requires Sorted(whole) && whole == a + b
    ensures Sorted(b)
  {
    forall i, j | 0 <= i < j < |b| ensures Id(b[i]) < Id(b[j]) {
      assert whole[|a| + i] == b[i] && whole[|a| + j] == b[j];
    }
  }

  lemma BacklogAfterQuery(table: seq<Message>, after: nat)
    requires Sorted(table)
    ensures var above := Above(table, after);
            var rows := Query(table, after, DRAIN_LIMIT);
            |Above(table, Max(after, Newest(rows)))| == if |above| <= DRAIN_LIMIT then 0 else |above| - DRAIN_LIMIT
  {
    var above := Above(table, after);
    var rest := if |above| <= DRAIN_LIMIT then [] else above[DRAIN_LIMIT..];
    assert Query(table, after, DRAIN_LIMIT) + rest == above;
    BacklogRest(table, after, rest);
  }

  /** One drain takes exactly as many rows off the backlog as its limit allows. */
  lemma DrainShrinksBacklog(s: System)
    requires Numbered(s.table)
    ensures Step(s, Drain).table == s.table && Behind(Step(s, Drain)) == Max(0, Behind(s) - DRAIN_LIMIT)
  {
    QueryCovers(s.table, s.watermark, DRAIN_LIMIT);
    RaisedIsMax(s.watermark, Query(s.table, s.watermark, DRAIN_LIMIT));
    BacklogAfterQuery(s.table, s.watermark);
  }

  lemma NothingAbove(s: System)
    ensures Behind(s) == 0 <==> forall m | m in s.table :: Id(m) <= s.watermark
  {
    if Behind(s) != 0 {
      assert Above(s.table, s.watermark)[0] in s.table;
    }
  }

  lemma DrainKeepsTable(s: System)
    ensures Step(s, Drain).table == s.table
  {
  }

  lemma {:induction false} DrainedKeepsTable(s: System, times: nat)
    ensures Drained(s, times).table == s.table
  {
    if times > 0 {
      DrainedKeepsTable(s, times - 1);
      DrainKeepsTable(Drained(s, times - 1));
    }
  }

  function Backlogs(s: System): nat -> nat {
    (times: nat) => Behind(Drained(s, times))
  }

  predicate ShrinksAt(left: nat -> nat, i: nat) {
    left(i + 1) == Max(0, left(i) - DRAIN_LIMIT)
  }

  lemma OneMoreDrain(s: System, times: nat)
    requires Numbered(s.table)
    ensures ShrinksAt(Backlogs(s), times)
  {
    DrainedKeepsTable(s, times);
    DrainShrinksBacklog(Drained(s, times));
  }

  lemma {:induction false} Shrunk(left: nat -> nat, times: nat)
    requires forall i: nat | i < times :: ShrinksAt(left, i)
    ensures left(times) == Max(0, left(0) - DRAIN_LIMIT * times)
  {
    if times > 0 {
      Shrunk(left, times - 1);
      assert ShrinksAt(left, times - 1);
    }
  }

  lemma BacklogAfterDrains(s: System, times: nat)
    requires Numbered(s.table)
    ensures Backlogs(s)(times) == Max(0, Backlogs(s)(0) - DRAIN_LIMIT * times)
  {
    forall i: nat | i < times ensures ShrinksAt(Backlogs(s), i) {
      OneMoreDrain(s, i);
    }
    Shrunk(Backlogs(s), times);
  }

  /** With no new rows, the watermark reaches the newest id after exactly as many
      drains as the backlog needs at 500 rows each. */
  lemma DrainsCatchUp(s: System, times: nat)
    requires Numbered(s.table)
    ensures Behind(s) <= DRAIN_LIMIT * times <==> forall m | m in s.table :: Id(m) <= Drained(s, times).watermark
  {
    BacklogAfterDrains(s, times);
    DrainedKeepsTable(s, times);
    NothingAbove(Drained(s, times));
  }
}
