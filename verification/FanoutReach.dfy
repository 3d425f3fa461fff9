/** Which reads in flight still publish a row that became visible late, with any
    number of drains interleaved. */
module FanoutReach {
  import opened Tables
  import opened Clients
  import opened EventLog
  import opened Broker
  import opened Fanout
  import opened FanoutProofs
  import opened FanoutTheorems

  ghost predicate CanBePublished(s: System, m: Message) {
    exists events: seq<Event> :: m in Trace(s, events).published
  }

  /** A drain that has asked will read the row if it is among the first 500 above
      its mark; one that holds its rows has it or not. */
  predicate Reads(s: System, t: Task, m: Message) {
    match t
    case Asked(after) => m in Query(s.table, after, DRAIN_LIMIT)
    case Holding(_, rows) => m in rows
  }

  predicate InReach(s: System, m: Message) {
    m in s.published || Id(m) > s.watermark || exists t | t in s.tasks :: Reads(s, s.tasks[t], m)
  }

  // ---- out of reach for ever ------------------------------------------------------

  lemma {:induction false} InsertSplits(rows: seq<Message>, m: Message) returns (k: nat)
    requires Sorted(rows) && forall r | r in rows :: Id(r) != Id(m)
    ensures k <= |rows| && Insert(rows, m) == rows[..k] + [m] + rows[k..]
  {
    k := |rows|;
    if rows != [] && Id(rows[|rows| - 1]) > Id(m) {
      var before := rows[..|rows| - 1];
      k := InsertSplits(before, m);
      SplitWithLast(rows, m, k);
    } else {
      assert rows[..k] == rows && rows[k..] == [];
    }
  }

  lemma SplitWithLast(rows: seq<Message>, m: Message, k: nat)
    requires k < |rows|
    ensures var before, last := rows[..|rows| - 1], rows[|rows| - 1];
            before[..k] + [m] + before[k..] + [last] == rows[..k] + [m] + rows[k..]
  {
    assert rows[k..] == rows[..|rows| - 1][k..] + [rows[|rows| - 1]];
  }

  lemma AboveInsert(rows: seq<Message>, m: Message, after: int)
    requires Sorted(rows) && (forall r | r in rows :: Id(r) != Id(m)) && Id(m) > after
    ensures Above(Insert(rows, m), after) == Insert(Above(rows, after), m)
  {
    SameMembers(Above(Insert(rows, m), after), Insert(Above(rows, after), m));
  }

  lemma AboveUnchanged(rows: seq<Message>, m: Message, after: int)
    requires Sorted(rows) && (forall r | r in rows :: Id(r) != Id(m)) && Id(m) <= after
    ensures Above(Insert(rows, m), after) == Above(rows, after)
  {
    SameMembers(Above(Insert(rows, m), after), Above(rows, after));
  }

  lemma FirstOfInserted(above: seq<Message>, k: nat, x: Message, m: Message, limit: nat)
    requires k <= |above| && m != x && limit <= |above| + 1
    requires m in (above[..k] + [x] + above[k..])[..limit]
    ensures exists i | 0 <= i < |above| && i < limit :: above[i] == m
  {
    var more := above[..k] + [x] + above[k..];
    var j :| 0 <= j < limit && more[j] == m;
    if j < k {
      assert above[j] == m;
    } else {
      assert j != k && above[j - 1] == m;
    }
  }

  function First(rows: seq<Message>, limit: nat): seq<Message> {
    if |rows| <= limit then rows else rows[..limit]
  }

  lemma InsertedCrowdsOut(above: seq<Message>, x: Message, m: Message, limit: nat)
    requires Sorted(above) && (forall r | r in above :: Id(r) != Id(x)) && m != x
    requires m in First(Insert(above, x), limit)
    ensures m in First(above, limit)
  {
    var k := InsertSplits(above, x);
    if |above| + 1 > limit {
      FirstOfInserted(above, k, x, m, limit);
      var i :| 0 <= i < |above| && i < limit && above[i] == m;
      assert First(above, limit)[i] == m;
    }
  }

  /** A new row takes a place among the first 500, it never gives one away. */
  lemma CommitCrowdsOut(rows: seq<Message>, x: Message, after: int, m: Message)
    requires Sorted(rows) && (forall r | r in rows :: Id(r) != Id(x)) && m != x
    requires m in Query(Insert(rows, x), after, DRAIN_LIMIT)
    ensures m in Query(rows, after, DRAIN_LIMIT)
  {
    if Id(x) <= after {
      AboveUnchanged(rows, x, after);
    } else {
      AboveInsert(rows, x, after);
      InsertedCrowdsOut(Above(rows, after), x, m, DRAIN_LIMIT);
    }
  }

  lemma QueriedIsAbove(rows: seq<Message>, after: int, m: Message)
    requires m in Query(rows, after, DRAIN_LIMIT)
    ensures m in rows && Id(m) > after
  {
    assert m in Above(rows, after);
  }

  lemma CommitStaysOut(s: System, x: Message, m: Message)
    requires m in s.table && !InReach(s, m)
    ensures !InReach(Committed(s, x), m)
  {
    var next := Committed(s, x);
    if Acceptable(s, x) {
      forall t | t in next.tasks ensures !Reads(next, next.tasks[t], m) {
        assert !Reads(s, s.tasks[t], m);
        if s.tasks[t].Asked? && m in Query(next.table, s.tasks[t].after, DRAIN_LIMIT) {
          CommitCrowdsOut(s.table, x, s.tasks[t].after, m);
        }
      }
    }
  }

  lemma TaskStepStaysOut(s: System, e: Event, m: Message)
    requires m in s.table && !InReach(s, m) && TaskEvent(e)
    ensures !InReach(TaskStep(s, e), m)
  {
    var next := TaskStep(s, e);
    StepRaises(s, e);
    forall t | t in next.tasks ensures !Reads(next, next.tasks[t], m) {
      if e == Ask(t) && t !in s.tasks {
        if m in Query(s.table, s.watermark, DRAIN_LIMIT) {
          QueriedIsAbove(s.table, s.watermark, m);
        }
      } else {
        assert !Reads(s, s.tasks[t], m);
      }
    }
    if e.Deliver? && e.task in s.tasks {
      assert !Reads(s, s.tasks[e.task], m);
    }
  }

  lemma DrainStaysOut(s: System, m: Message)
    requires m in s.table && !InReach(s, m)
    ensures !InReach(Step(s, Drain), m)
  {
    var next := Step(s, Drain);
    StepRaises(s, Drain);
    if m in Query(s.table, s.watermark, DRAIN_LIMIT) {
      QueriedIsAbove(s.table, s.watermark, m);
    }
    forall t | t in next.tasks ensures !Reads(next, next.tasks[t], m) {
      assert !Reads(s, s.tasks[t], m);
    }
  }

  lemma ViewerStepStaysOut(s: System, next: System, m: Message)
    requires !InReach(s, m) && next == s.(viewers := next.viewers)
    ensures !InReach(next, m)
  {
    forall t | t in next.tasks ensures !Reads(next, next.tasks[t], m) {
      assert !Reads(s, s.tasks[t], m);
    }
  }

  lemma ViewersOnly(s: System, e: Event)
    requires !TaskEvent(e) && !e.Commit? && !e.Drain?
    ensures Step(s, e) == s.(viewers := Step(s, e).viewers)
  {
  }

  lemma StepStaysOut(s: System, e: Event, m: Message)
    requires m in s.table && !InReach(s, m)
    ensures !InReach(Step(s, e), m)
  {
    if TaskEvent(e) {
      TaskStepStaysOut(s, e, m);
    } else if e.Commit? {
      CommitStaysOut(s, e.m, m);
    } else if e.Drain? {
      DrainStaysOut(s, m);
    } else {
      ViewersOnly(s, e);
      ViewerStepStaysOut(s, Step(s, e), m);
    }
  }

  lemma StepKeepsRow(s: System, e: Event, m: Message)
    requires m in s.table
    ensures m in Step(s, e).table
  {
  }

  lemma {:induction false} StaysOut(s: System, events: seq<Event>, m: Message)
    requires m in s.table && !InReach(s, m)
    ensures m in Trace(s, events).table && !InReach(Trace(s, events), m)
  {
    if events != [] {
      var before := events[..|events| - 1];
      StaysOut(s, before, m);
      StepKeepsRow(Trace(s, before), events[|events| - 1], m);
      StepStaysOut(Trace(s, before), events[|events| - 1], m);
    }
  }

  // ---- within reach, some continuation publishes it ------------------------------------

  lemma {:induction false} FirstThen(s: System, e: Event, rest: seq<Event>)
    ensures Trace(s, [e] + rest) == Trace(Step(s, e), rest)
  {
    if rest == [] {
      assert [e] + rest == [e] && [e][..0] == [];
    } else {
      var before := rest[..|rest| - 1];
      FirstThen(s, e, before);
      assert ([e] + rest)[..|rest|] == [e] + before;
    }
  }

  lemma DrainPublishesOrRaises(s: System, m: Message)
    requires Numbered(s.table) && m in s.table && Id(m) > s.watermark
    ensures var next := Step(s, Drain);
            next.table == s.table && Behind(next) < Behind(s) && (m in next.published || Id(m) > next.watermark)
  {
    var rows := Query(s.table, s.watermark, DRAIN_LIMIT);
    QueryCovers(s.table, s.watermark, DRAIN_LIMIT);
    RaisedIsMax(s.watermark, rows);
    NothingAbove(s);
    DrainShrinksBacklog(s);
  }

  lemma {:induction false} DrainsPublish(s: System, m: Message) returns (events: seq<Event>)
    requires Numbered(s.table) && m in s.table && Id(m) > s.watermark
    ensures m in Trace(s, events).published
    decreases Behind(s)
  {
    DrainPublishesOrRaises(s, m);
    var rest := [];
    if m !in Step(s, Drain).published {
      rest := DrainsPublish(Step(s, Drain), m);
    }
    FirstThen(s, Drain, rest);
    events := [Drain] + rest;
  }

  lemma HoldingPublishes(s: System, t: nat, m: Message)
    requires t in s.tasks && s.tasks[t].Holding? && m in s.tasks[t].rows
    ensures m in Trace(s, [Deliver(t)] + []).published
  {
    FirstThen(s, Deliver(t), []);
  }

  lemma TaskPublishes(s: System, t: nat, m: Message) returns (events: seq<Event>)
    requires t in s.tasks && Reads(s, s.tasks[t], m)
    ensures m in Trace(s, events).published
  {
    if s.tasks[t].Holding? {
      HoldingPublishes(s, t, m);
      events := [Deliver(t)] + [];
    } else {
      HoldingPublishes(Step(s, Fetch(t)), t, m);
      FirstThen(s, Fetch(t), [Deliver(t)] + []);
      events := [Fetch(t)] + ([Deliver(t)] + []);
    }
  }

  /** In every reachable state, whatever drains overlap: a visible row can still
      be published exactly when it has been, is above the watermark, or is in what
      a drain in flight holds or will read. */
  lemma CanBePublishedIff(s: System, m: Message)
    requires Numbered(s.table) && m in s.table
    ensures CanBePublished(s, m) <==> InReach(s, m)
  {
    if InReach(s, m) {
      if m in s.published {
        assert m in Trace(s, []).published;
      } else if Id(m) > s.watermark {
        var events := DrainsPublish(s, m);
      } else {
        var t :| t in s.tasks && Reads(s, s.tasks[t], m);
        var events := TaskPublishes(s, t, m);
      }
    } else {
      forall events ensures m !in Trace(s, events).published {
        StaysOut(s, events, m);
      }
    }
  }

  /** As a row becomes visible: it can still be published exactly when the
      watermark is below it, or a drain asked below it, has not read yet, and will
      find it among its first 500 rows. */
  lemma VisibleInTimeIff(table: seq<Message>, events: seq<Event>, m: Message)
    requires Numbered(table) && Acceptable(Trace(Started(table), events), m)
    ensures var s := Trace(Started(table), events);
            var visible := Step(s, Commit(m));
            CanBePublished(visible, m) <==>
              Id(m) > s.watermark ||
              exists t | t in s.tasks :: s.tasks[t].Asked? && m in Query(visible.table, s.tasks[t].after, DRAIN_LIMIT)
  {
    TraceKeepsFanSound(table, events);
    var s := Trace(Started(table), events);
    StepKeepsFanSound(s, Commit(m));
    NewRowIsHeldByNone(s, m);
    CanBePublishedIff(Step(s, Commit(m)), m);
  }

  lemma NewRowIsHeldByNone(s: System, m: Message)
    requires FanSound(s) && Acceptable(s, m)
    ensures m !in s.published && forall t | t in s.tasks && s.tasks[t].Holding? :: m !in s.tasks[t].rows
  {
    forall t | t in s.tasks && s.tasks[t].Holding? ensures m !in s.tasks[t].rows {
      assert TaskSound(s, s.tasks[t]);
    }
  }
}
