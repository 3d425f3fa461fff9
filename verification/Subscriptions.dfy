/** What a client that watches a run is given: of its own run, its own topics, in
    order, and nothing else. */
module Subscriptions {
  import opened Tables
  import opened Clients
  import opened EventLog
  import opened Broker
  import opened Fanout
  import opened FanoutProofs

  /** The messages that concern a subscription, in order. */
  function Selected(topics: set<string>, run: Option<string>, messages: seq<Message>): seq<Message> {
    if messages == [] then []
    else
      var m := messages[|messages| - 1];
      Selected(topics, run, messages[..|messages| - 1]) + if Concerns(topics, run, m) then [m] else []
  }

  lemma {:induction false} SelectedAppend(topics: set<string>, run: Option<string>, a: seq<Message>, b: seq<Message>)
    ensures Selected(topics, run, a + b) == Selected(topics, run, a) + Selected(topics, run, b)
  {
    if b == [] {
      assert a + b == a;
    } else {
      assert (a + b)[..|a + b| - 1] == a + b[..|b| - 1];
      SelectedAppend(topics, run, a, b[..|b| - 1]);
    }
  }

  lemma {:induction false} SelectedMembers(topics: set<string>, run: Option<string>, messages: seq<Message>, m: Message)
    ensures m in Selected(topics, run, messages) <==> m in messages && Concerns(topics, run, m)
  {
    if messages != [] {
      SelectedMembers(topics, run, messages[..|messages| - 1], m);
      assert messages == messages[..|messages| - 1] + [messages[|messages| - 1]];
    }
  }

  // ---- the fan-out -------------------------------------------------------------------

  /** What a step hands to the live fan-out. */
  function Put(s: System, e: Event): seq<Message> {
    match e
    case Drain => Query(s.table, s.watermark, DRAIN_LIMIT)
    case Deliver(t) => if t in s.tasks && s.tasks[t].Holding? then s.tasks[t].rows else []
    case Level(m) => if m.id == None then [m] else []
    case _ => []
  }

  function PutAll(s: System, events: seq<Event>): seq<Message> {
    if events == [] then []
    else PutAll(s, events[..|events| - 1]) + Put(Trace(s, events[..|events| - 1]), events[|events| - 1])
  }

  lemma {:induction false} HeardIsSelected(v: Viewer, messages: seq<Message>)
    ensures HeardAll(v, messages) == v.(offered := v.offered + Selected(v.topics, v.run, messages))
  {
    if messages != [] {
      HeardIsSelected(v, messages[..|messages| - 1]);
    } else {
      assert v.offered + [] == v.offered;
    }
  }

  predicate Listening(s: System, v: nat) {
    v in s.viewers && s.viewers[v].stage == Live
  }

  /** The viewer after it was offered what concerns it of these messages. */
  predicate Heard(before: Viewer, after: Viewer, messages: seq<Message>) {
    after == before.(offered := before.offered + Selected(before.topics, before.run, messages))
  }

  lemma StepIsHeard(s: System, e: Event, v: nat)
    requires Listening(s, v) && e != Leave(v)
    ensures v in Step(s, e).viewers && Heard(s.viewers[v], Step(s, e).viewers[v], Put(s, e))
  {
    HeardIsSelected(s.viewers[v], Put(s, e));
    assert s.viewers[v].offered + [] == s.viewers[v].offered;
  }

  lemma HeardTwice(a: Viewer, b: Viewer, c: Viewer, first: seq<Message>, later: seq<Message>)
    requires Heard(a, b, first) && Heard(b, c, later)
    ensures Heard(a, c, first + later)
  {
    SelectedAppend(a.topics, a.run, first, later);
  }

  lemma HearsMore(a: Viewer, s: System, e: Event, v: nat, messages: seq<Message>)
    requires v in s.viewers && Heard(a, s.viewers[v], messages) && a.stage == Live && e != Leave(v)
    ensures v in Step(s, e).viewers && Heard(a, Step(s, e).viewers[v], messages + Put(s, e))
  {
    StepIsHeard(s, e, v);
    HeardTwice(a, s.viewers[v], Step(s, e).viewers[v], messages, Put(s, e));
  }

  /** Over any run a live viewer is offered exactly what concerns its subscription
      of all that is put into the fan-out, in the order it is put there. */
  lemma {:induction false} ListensExactly(s: System, events: seq<Event>, v: nat)
    requires Listening(s, v) && Leave(v) !in events
    ensures v in Trace(s, events).viewers && Heard(s.viewers[v], Trace(s, events).viewers[v], PutAll(s, events))
  {
    if events == [] {
      assert s.viewers[v].offered + [] == s.viewers[v].offered;
    } else {
      var before := events[..|events| - 1];
      var e := events[|events| - 1];
      assert e in events && forall x | x in before :: x in events;
      ListensExactly(s, before, v);
      HearsMore(s.viewers[v], Trace(s, before), e, v, PutAll(s, before));
    }
  }

  /** Of the jobs and readings that are put there a viewer of a run is offered those
      of its run, on its topics; of other topics those it asked for, whatever the
      run; a viewer of no run all of its topics; and nobody another topic. */
  lemma OfferedConcerns(s: System, events: seq<Event>, v: nat, m: Message)
    requires Listening(s, v) && Leave(v) !in events && s.viewers[v].offered == []
    ensures v in Trace(s, events).viewers
    ensures var viewer := s.viewers[v];
            m in Trace(s, events).viewers[v].offered <==>
              m in PutAll(s, events) && m.topic in viewer.topics &&
              (viewer.run.Some? && m.topic in {"jobs", "progress"} ==> m.run == viewer.run)
  {
    ListensExactly(s, events, v);
    SelectedMembers(s.viewers[v].topics, s.viewers[v].run, PutAll(s, events), m);
  }

  // ---- joining ---------------------------------------------------------------------------

  /** A viewer that comes back is told to start over exactly when more than 500 ids
      went by; otherwise it is served from memory if memory reaches back to its last
      id and holds anything newer, and from the table if not. */
  lemma JoinedIff(s: System, topics: set<string>, run: Option<string>, last: Option<int>)
    ensures var v := Joined(s, topics, run, last);
            v.topics == topics && v.run == run && v.last == last && v.joined == s.watermark &&
            (v.told <==> last.Some? && s.watermark > last.value + 500) &&
            (v.told ==> v.offered == [GAP_TOO_LARGE] && v.stage == Live) &&
            (last.None? ==> v.offered == [] && v.stage == Live) &&
            (last.Some? && !v.told ==>
               if Remembers(s.buffer, last.value)
               then v.stage == Live && v.offered == Selected(topics, run, Above(s.buffer, last.value))
               else v.stage == Asking && v.offered == [])
  {
    if last.Some? {
      MemoryIff(s.buffer, last.value);
      HeardIsSelected(Viewer(topics, run, last, Live, false, [], s.watermark, Gapless(s, last.value)),
                      Above(s.buffer, last.value));
    }
  }

  /** Memory holds something newer, and reaches back to the row after the last. */
  predicate Remembers(buffer: seq<Message>, last: int) {
    (exists m | m in buffer :: Id(m) > last) && exists m | m in buffer :: Id(m) <= last + 1
  }

  lemma MemoryIff(buffer: seq<Message>, last: int)
    ensures Remembers(buffer, last) <==> Buffered(buffer, last) != [] && Oldest(buffer) <= last + 1
  {
    var above := Above(buffer, last);
    if above != [] {
      assert above[0] in above;
    }
  }

  /** The answer from the table is given to the viewer that asked, after what it
      heard meanwhile. */
  lemma AnswerIsSelected(s: System, v: nat)
    requires v in s.viewers && s.viewers[v].stage.Answered?
    ensures var viewer := s.viewers[v];
            var next := Step(s, ReplayDeliver(v));
            v in next.viewers &&
            next.viewers[v] == viewer.(stage := Live,
                                       offered := viewer.offered + Selected(viewer.topics, viewer.run, viewer.stage.rows))
  {
    HeardIsSelected(s.viewers[v].(stage := Live), s.viewers[v].stage.rows);
  }

  /** A viewer whose table query fails is told so and goes on live. */
  lemma FailureIsTold(s: System, v: nat)
    requires v in s.viewers && s.viewers[v].stage == Asking
    ensures var viewer := s.viewers[v];
            var notice := Message("resync", "control", None, None, None, "replay failed");
            Step(s, ReplayFail(v)) ==
            s.(viewers := s.viewers[v := viewer.(stage := Live, told := true, offered := viewer.offered + [notice])])
  {
  }

  // ---- the queue -----------------------------------------------------------------------------

  function Edges(messages: seq<Message>): seq<Message> {
    if messages == [] then []
    else
      var m := messages[|messages| - 1];
      Edges(messages[..|messages| - 1]) + if m.topic != "progress" then [m] else []
  }

  /** The progress readings that name a job. */
  function Readings(messages: seq<Message>): seq<Message> {
    if messages == [] then []
    else
      var m := messages[|messages| - 1];
      Readings(messages[..|messages| - 1]) +
      if m.topic == "progress" && m.job.Some? && m.job.value != "" then [m] else []
  }

  lemma CoalesceMore(readings: seq<Message>, m: Message)
    ensures CoalesceAll(readings + [m]) == Coalesce(CoalesceAll(readings), m)
  {
    assert (readings + [m])[..|readings|] == readings;
  }

  /** The client after it took these messages with room to spare. */
  predicate Took(before: Client, after: Client, mine: seq<Message>) {
    after == before.(queue := before.queue + Items(Edges(mine)), pending := CoalesceAll(Readings(mine)))
  }

  lemma OneMoreMine(mine: seq<Message>, m: Message)
    ensures Edges(mine + [m]) == Edges(mine) + if m.topic != "progress" then [m] else []
    ensures Readings(mine + [m]) ==
            Readings(mine) + if m.topic == "progress" && m.job.Some? && m.job.value != "" then [m] else []
  {
    assert (mine + [m])[..|mine|] == mine;
  }

  lemma TakesEdge(before: Client, edges: seq<Message>, pending: seq<Message>, m: Message)
    requires m.topic != "progress" && |before.queue| + |edges| < 256
    ensures Offered(before.(queue := before.queue + Items(edges), pending := pending), m) ==
            before.(queue := before.queue + Items(edges + [m]), pending := pending)
  {
    assert Items(edges + [m]) == Items(edges) + [Queued(m)];
  }

  lemma TakesReading(before: Client, queue: seq<Item>, readings: seq<Message>, m: Message)
    requires m.topic == "progress"
    ensures Offered(before.(queue := queue, pending := CoalesceAll(readings)), m) ==
            before.(queue := queue,
                    pending := CoalesceAll(readings + if m.job.Some? && m.job.value != "" then [m] else []))
  {
    CoalesceMore(readings, m);
    assert readings + [] == readings;
  }

  lemma TakesOne(before: Client, after: Client, mine: seq<Message>, m: Message)
    requires Took(before, after, mine) && |before.queue| + |Edges(mine + [m])| <= 256
    ensures Took(before, Offered(after, m), mine + [m])
  {
    OneMoreMine(mine, m);
    if m.topic == "progress" {
      TakesReading(before, before.queue + Items(Edges(mine)), Readings(mine), m);
      assert Edges(mine) + [] == Edges(mine);
    } else {
      TakesEdge(before, Edges(mine), CoalesceAll(Readings(mine)), m);
      assert Readings(mine) + [] == Readings(mine);
    }
  }

  lemma OfferedOneMore(c: Client, messages: seq<Message>)
    requires messages != []
    ensures var before := messages[..|messages| - 1];
            var m := messages[|messages| - 1];
            OfferedAll(c, messages) ==
            if Concerns(c.topics, c.run, m) then Offered(OfferedAll(c, before), m) else OfferedAll(c, before)
  {
  }

  /** While there is room, publishing appends exactly what concerns the client and
      is not a reading, and keeps the readings for the next flush. */
  lemma {:induction false} QueueTakesSelected(c: Client, messages: seq<Message>)
    requires c.pending == [] && |c.queue| + |Edges(Selected(c.topics, c.run, messages))| <= 256
    ensures Took(c, OfferedAll(c, messages), Selected(c.topics, c.run, messages))
  {
    if messages == [] {
      assert c.queue + Items([]) == c.queue;
    } else {
      var before := messages[..|messages| - 1];
      var m := messages[|messages| - 1];
      var mine := Selected(c.topics, c.run, before);
      OfferedOneMore(c, messages);
      OneMoreMine(mine, m);
      assert mine + [] == mine;
      QueueTakesSelected(c, before);
      if Concerns(c.topics, c.run, m) {
        TakesOne(c, OfferedAll(c, before), mine, m);
      }
    }
  }

  /** A flush that has room queues, behind the rest, the last reading of every job
      that reported since the one before, once each, in the order in which they
      first did. */
  lemma FlushQueuesLatest(c: Client, messages: seq<Message>) returns (last: seq<Message>)
    requires c.pending == []
    requires var after := OfferedAll(c, messages);
             |c.queue| + |Edges(Selected(c.topics, c.run, messages))| <= 256 && |after.queue| + |after.pending| <= 256
    ensures var mine := Selected(c.topics, c.run, messages);
            var flushed := Flushed(OfferedAll(c, messages));
            flushed == c.(queue := c.queue + Items(Edges(mine)) + Items(last)) &&
            DistinctJobs(last) && (forall m :: m in last <==> Latest(Readings(mine), m)) &&
            JobsOf(last) == FirstSeen(Readings(mine))
  {
    var mine := Selected(c.topics, c.run, messages);
    last := CoalesceAll(Readings(mine));
    QueueTakesSelected(c, messages);
    PendingIsLatest(Readings(mine));
    PendingKeepsPlaces(Readings(mine));
    assert last[..|last|] == last;
  }
}
