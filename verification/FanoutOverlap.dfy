/** Overlapping drains can leave a gap in the replay buffer: a reachable state
    from which a reconnecting client silently misses an event. */
module FanoutOverlap {
  import opened Tables
  import opened Clients
  import opened EventLog
  import opened Broker
  import opened Fanout
  import opened FanoutProofs
  import opened FanoutTheorems
  import opened FanoutMemory

  /** The rows numbered `a + 1` to `b`. */
  function Part(a: nat, b: nat): (rows: seq<Message>)
    requires a <= b
    ensures |rows| == b - a && forall i | 0 <= i < |rows| :: rows[i] == Numbering(a + i + 1)
  {
    seq(b - a, (i: nat) => Numbering(a + i + 1))
  }

  function State(n: nat, watermark: nat, published: seq<Message>, tasks: map<nat, Task>): System {
    System(Part(0, n), 0, watermark, LastPart(published), tasks, map[], published, {})
  }

  function Reach(n: nat, after: nat): nat {
    if n <= after + DRAIN_LIMIT then n else after + DRAIN_LIMIT
  }

  lemma QueryPart(n: nat, after: nat)
    requires after <= n
    ensures Query(Part(0, n), after, DRAIN_LIMIT) == Part(after, Reach(n, after))
  {
    AbovePart(n, after);
  }

  lemma {:induction false} AbovePart(n: nat, after: nat)
    requires after <= n
    ensures Above(Part(0, n), after) == Part(after, n)
  {
    var all := Part(0, n);
    forall m ensures m in Above(all, after) <==> m in Part(after, n) {
      if m in all && Id(m) > after {
        var i :| 0 <= i < |all| && all[i] == m;
        assert Part(after, n)[i - after] == m;
      }
      if m in Part(after, n) {
        var i :| 0 <= i < n - after && Part(after, n)[i] == m;
        assert all[after + i] == m;
      }
    }
    SameMembers(Above(all, after), Part(after, n));
  }

  lemma PublishPart(s: System, a: nat, b: nat)
    requires a <= b && s.viewers == map[] && s.buffer == LastPart(s.published)
    ensures PublishAll(s, Part(a, b)) ==
            s.(watermark := if a < b then Max(s.watermark, b) else s.watermark,
               buffer := LastPart(s.published + Part(a, b)), published := s.published + Part(a, b))
  {
    RaisedIsMax(s.watermark, Part(a, b));
    MemoryIsLastPart(s.published, Part(a, b));
    assert FanOut(s, Part(a, b)) == s.viewers;
  }

  lemma CommitNext(n: nat, watermark: nat, published: seq<Message>, tasks: map<nat, Task>)
    requires watermark <= n && !Overtakes(State(n, watermark, published, tasks), n + 1)
    ensures Step(State(n, watermark, published, tasks), Commit(Numbering(n + 1))) ==
            State(n + 1, watermark, published, tasks)
  {
    assert Acceptable(State(n, watermark, published, tasks), Numbering(n + 1));
    assert Part(0, n) + [Numbering(n + 1)] == Part(0, n + 1);
    assert Insert(Part(0, n), Numbering(n + 1)) == Part(0, n + 1);
  }

  lemma DrainNext(n: nat, watermark: nat, published: seq<Message>, tasks: map<nat, Task>)
    requires watermark <= n
    ensures Step(State(n, watermark, published, tasks), Drain) ==
            State(n, Reach(n, watermark), published + Part(watermark, Reach(n, watermark)), tasks)
  {
    QueryPart(n, watermark);
    PublishPart(State(n, watermark, published, tasks), watermark, Reach(n, watermark));
  }

  /** In order, and with at most two drains at a time. */
  predicate Good(events: seq<Event>) {
    InOrderRun(Started([]), events) && TwoTaskRun(Started([]), events)
  }

  lemma Extend(events: seq<Event>, e: Event)
    requires Good(events) && InOrder(Trace(Started([]), events), e) && TwoTasks(Trace(Started([]), events), e)
    ensures Good(events + [e]) && Trace(Started([]), events + [e]) == Step(Trace(Started([]), events), e)
  {
    OneMore(Started([]), events, e);
    var longer := events + [e];
    forall i | 0 <= i < |longer|
      ensures InOrder(Trace(Started([]), longer[..i]), longer[i]) && TwoTasks(Trace(Started([]), longer[..i]), longer[i])
    {
      assert longer[..i] == events[..i];
      if i == |events| {
        assert events[..i] == events;
      }
    }
  }

  /** Only task 0 is ever slow, so the other one may drain. */
  lemma MayDrain(s: System)
    requires s.tasks.Keys <= {0}
    ensures TwoTasks(s, Drain)
  {
    assert 1 !in s.tasks;
  }

  lemma {:induction false} Filled(n: nat) returns (events: seq<Event>)
    ensures Good(events) && Trace(Started([]), events) == State(n, 0, [], map[])
  {
    if n == 0 {
      events := [];
      assert Part(0, 0) == [];
    } else {
      var before := Filled(n - 1);
      CommitNext(n - 1, 0, [], map[]);
      events := before + [Commit(Numbering(n))];
      Extend(before, Commit(Numbering(n)));
    }
  }

  function Waiting(after: nat, n: nat): map<nat, Task>
    requires after <= n
  {
    map[0 := Holding(after, Part(after, Reach(n, after)))]
  }

  /** The slow task reads before another drain, and publishes after it. */
  lemma AskAndFetch(n: nat, watermark: nat, published: seq<Message>)
    requires watermark <= n
    ensures Step(Step(State(n, watermark, published, map[]), Ask(0)), Fetch(0)) ==
            State(n, watermark, published, Waiting(watermark, n))
  {
    var asked := Step(State(n, watermark, published, map[]), Ask(0));
    assert asked == State(n, watermark, published, map[0 := Asked(watermark)]);
    QueryPart(n, watermark);
    assert map[0 := Asked(watermark)][0 := Holding(watermark, Part(watermark, Reach(n, watermark)))] == Waiting(watermark, n);
  }

  lemma DeliverLate(n: nat, watermark: nat, published: seq<Message>, after: nat, seen: nat)
    requires after <= seen && Reach(seen, after) <= watermark
    ensures Step(State(n, watermark, published, Waiting(after, seen)), Deliver(0)) ==
            State(n, watermark, published + Part(after, Reach(seen, after)), map[])
  {
    var s := State(n, watermark, published, Waiting(after, seen));
    assert s.tasks - {0} == map[];
    PublishPart(s.(tasks := map[]), after, Reach(seen, after));
  }

  /** Rows 1 to 1000, row 1001, and rows 501 to 1000 again; then every further
      row twice. */
  function Doubled(k: nat): (p: seq<Message>)
    ensures |p| == 1501 + 2 * k
    ensures forall i | 0 <= i < |p| :: p[i] == Numbering(1001) <==> i == 1000
    ensures p[1001] == Numbering(501) && (k > 0 ==> p[|p| - 1] == Numbering(1001 + k))
  {
    if k == 0 then Part(0, 500) + Part(500, 1000) + Part(1000, 1001) + Part(500, 1000)
    else Doubled(k - 1) + Part(1000 + k, 1001 + k) + Part(1000 + k, 1001 + k)
  }

  lemma {:induction false} Overlapped(k: nat) returns (events: seq<Event>)
    ensures Good(events) && Trace(Started([]), events) == State(1001 + k, 1001 + k, Doubled(k), map[])
  {
    if k == 0 {
      events := FirstOverlap();
    } else {
      var before := Overlapped(k - 1);
      events := NextOverlap(before, k);
    }
  }

  lemma NextOverlap(before: seq<Event>, k: nat) returns (events: seq<Event>)
    requires k > 0 && Good(before) && Trace(Started([]), before) == State(1000 + k, 1000 + k, Doubled(k - 1), map[])
    ensures Good(events) && Trace(Started([]), events) == State(1001 + k, 1001 + k, Doubled(k), map[])
  {
    events := Round(before, 1000 + k, Doubled(k - 1));
    DoubledMore(k);
  }

  lemma DoubledMore(k: nat)
    requires k > 0
    ensures Doubled(k) == Doubled(k - 1) + Part(1000 + k, 1000 + k + 1) + Part(1000 + k, 1000 + k + 1)
  {
  }

  lemma FirstOverlap() returns (events: seq<Event>)
    ensures Good(events) && Trace(Started([]), events) == State(1001, 1001, Doubled(0), map[])
  {
    var filled := Filled(1000);
    DrainNext(1000, 0, [], map[]);
    assert [] + Part(0, 500) == Part(0, 500);
    MayDrain(State(1000, 0, [], map[]));
    Extend(filled, Drain);
    var a := filled + [Drain];
    AskAndFetch(1000, 500, Part(0, 500));
    Extend(a, Ask(0));
    Extend(a + [Ask(0)], Fetch(0));
    var b := a + [Ask(0)] + [Fetch(0)];
    assert Trace(Started([]), b) == State(1000, 500, Part(0, 500), Waiting(500, 1000));
    events := SecondOverlap(b);
  }

  lemma SecondOverlap(b: seq<Event>) returns (events: seq<Event>)
    requires Good(b) && Trace(Started([]), b) == State(1000, 500, Part(0, 500), Waiting(500, 1000))
    ensures Good(events) && Trace(Started([]), events) == State(1001, 1001, Doubled(0), map[])
  {
    DrainNext(1000, 500, Part(0, 500), Waiting(500, 1000));
    MayDrain(Trace(Started([]), b));
    Extend(b, Drain);
    events := ThirdOverlap(b + [Drain], Part(0, 500) + Part(500, 1000));
  }

  lemma ThirdOverlap(c: seq<Event>, p: seq<Message>) returns (events: seq<Event>)
    requires Good(c) && Trace(Started([]), c) == State(1000, 1000, p, Waiting(500, 1000))
    ensures Good(events)
    ensures Trace(Started([]), events) == State(1001, 1001, p + Part(1000, 1001) + Part(500, 1000), map[])
  {
    CommitNext(1000, 1000, p, Waiting(500, 1000));
    Extend(c, Commit(Numbering(1001)));
    var d := c + [Commit(Numbering(1001))];
    DrainNext(1001, 1000, p, Waiting(500, 1000));
    MayDrain(Trace(Started([]), d));
    Extend(d, Drain);
    var e := d + [Drain];
    DeliverLate(1001, 1001, p + Part(1000, 1001), 500, 1000);
    Extend(e, Deliver(0));
    events := e + [Deliver(0)];
  }

  lemma Round(before: seq<Event>, n: nat, p: seq<Message>) returns (events: seq<Event>)
    requires Good(before) && Trace(Started([]), before) == State(n, n, p, map[])
    ensures Good(events) && Trace(Started([]), events) == State(n + 1, n + 1, p + Part(n, n + 1) + Part(n, n + 1), map[])
  {
    CommitNext(n, n, p, map[]);
    Extend(before, Commit(Numbering(n + 1)));
    var a := before + [Commit(Numbering(n + 1))];
    AskAndFetch(n + 1, n, p);
    Extend(a, Ask(0));
    Extend(a + [Ask(0)], Fetch(0));
    var b := a + [Ask(0)] + [Fetch(0)];
    DrainNext(n + 1, n, p, Waiting(n, n + 1));
    MayDrain(Trace(Started([]), b));
    Extend(b, Drain);
    var c := b + [Drain];
    DeliverLate(n + 1, n + 1, p + Part(n, n + 1), n, n + 1);
    Extend(c, Deliver(0));
    events := c + [Deliver(0)];
  }

  lemma OverlapMemory()
    ensures var memory := LastPart(Doubled(250));
            Numbering(501) in memory && Numbering(1251) in memory && Numbering(1001) !in memory
  {
    var p := Doubled(250);
    var memory := p[1001..];
    assert memory[0] == p[1001] && memory[999] == p[2000];
    assert forall i | 0 <= i < |memory| :: memory[i] == p[1001 + i];
  }

  lemma MemoryIsChosen(s: System, after: int, oldest: Message, newest: Message)
    requires oldest in s.buffer && Id(oldest) <= after + 1 && newest in s.buffer && after < Id(newest)
    requires s.watermark - after <= MAX_REPLAY
    ensures ReplaySource(s.watermark, s.buffer, after) == Memory(Buffered(s.buffer, after))
  {
    assert newest in Buffered(s.buffer, after);
  }

  lemma ForgottenIsMissed(s: System, topics: set<string>, run: Option<string>, last: int, m: Message)
    requires ReplaySource(s.watermark, s.buffer, last) == Memory(Buffered(s.buffer, last)) && m !in s.buffer
    ensures var v := Joined(s, topics, run, Some(last));
            v.stage == Live && !v.told && v.topics == topics && v.run == run && m !in v.offered
  {
    HeardAllMembers(Viewer(topics, run, Some(last), Live, false, [], s.watermark, Gapless(s, last)),
                    Buffered(s.buffer, last));
  }

  lemma Overlapping(n: nat, p: seq<Message>, oldest: Message, newest: Message, m: Message)
    requires 1000 <= n <= 1500 && oldest in LastPart(p) && newest in LastPart(p) && m !in LastPart(p)
    requires Id(oldest) <= 1001 && 1000 < Id(newest)
    ensures var v := Joined(State(n, n, p, map[]), {"jobs"}, None, Some(1000));
            v.stage == Live && !v.told && v.topics == {"jobs"} && v.run == None && m !in v.offered
  {
    var s := State(n, n, p, map[]);
    MemoryIsChosen(s, 1000, oldest, newest);
    ForgottenIsMissed(s, {"jobs"}, None, 1000, m);
  }

  /** In this state a client that reconnects with 1000 is served from memory,
      is not told to resync, and is never offered row 1001. */
  lemma OverlapLeavesGap() returns (events: seq<Event>, s: System)
    ensures Good(events) && s == Trace(Started([]), events) && s.watermark == 1251 && s.table == Part(0, 1251)
    ensures var v := Joined(s, {"jobs"}, None, Some(1000));
            v.stage == Live && !v.told && Interested(v, Numbering(1001)) && Numbering(1001) !in v.offered
  {
    events := Overlapped(250);
    s := State(1251, 1251, Doubled(250), map[]);
    OverlapMemory();
    Overlapping(1251, Doubled(250), Numbering(501), Numbering(1251), Numbering(1001));
  }
}
