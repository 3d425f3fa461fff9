/** The consumer side of a subscriber's queue: what one client is sent. */
module Stream {
  import opened Tables
  import opened Clients

  /** Between two messages the body waits on its queue; while a message is being
      sent anything may be offered. */
  datatype Phase = Waiting | Sending | Closed

  /** The fields from `offered` on are history that no step reads: the durable
      messages offered, those of them offered before the first drop, all messages
      sent, the queued entries that precede the drop, and how many messages had
      been sent at the drop. */
  datatype Session = Session(
    client: Client,
    phase: Phase,
    offered: seq<Message>,
    kept: seq<Message>,
    delivered: seq<Message>,
    clean: seq<Item>,
    drop: Option<nat>)

  datatype Event = Publish(m: Message) | FlushTick | Farewell | Take | Resume | Hangup

  predicate Overflows(c: Client, m: Message) {
    !Progress(m) && |c.queue| >= QUEUE_LIMIT
  }

  function Arrive(s: Session, c: Client): Session {
    s.(client := c, clean := if s.drop.None? then c.queue else s.clean)
  }

  function Published(s: Session, m: Message): Session {
    var next := s.(client := Offered(s.client, m), offered := if Progress(m) then s.offered else s.offered + [m]);
    if s.drop.Some? then next
    else if Overflows(s.client, m) then next.(drop := Some(|s.delivered|))
    else next.(clean := next.client.queue, kept := next.offered)
  }

  /** `queue.get`, and the check of the farewell that follows it. */
  function Received(s: Session): Session {
    if s.phase != Waiting || s.client.queue == [] then s
    else
      var rest := s.(client := s.client.(queue := s.client.queue[1..]), clean := if s.clean == [] then [] else s.clean[1..]);
      match s.client.queue[0]
      case Stop => rest.(phase := Closed)
      case Queued(m) => rest.(phase := Sending, delivered := s.delivered + [m])
  }

  function Step(s: Session, e: Event): Session {
    match e
    case Publish(m) => Published(s, m)
    case FlushTick => Arrive(s, Flushed(s.client))
    case Farewell => Arrive(s, s.client.(queue := PutNowait(s.client.queue, Stop)))
    case Take => Received(s)
    case Resume => if s.phase == Sending then s.(phase := if s.client.resync then Closed else Waiting) else s
    case Hangup => s.(phase := Closed)
  }

  function Trace(s: Session, events: seq<Event>): Session {
    if events == [] then s else Step(Trace(s, events[..|events| - 1]), events[|events| - 1])
  }

  function Connected(topics: set<string>, run: Option<string>): Session {
    Session(Client(topics, run, [], [], false), Waiting, [], [], [], [], None)
  }

  // ---- the messages that must not be lost --------------------------------------

  function Durable(messages: seq<Message>): (d: seq<Message>)
    ensures |d| <= |messages|
  {
    if messages == [] then []
    else
      var m := messages[|messages| - 1];
      Durable(messages[..|messages| - 1]) + if Progress(m) then [] else [m]
  }

  function Messages(items: seq<Item>): seq<Message> {
    if items == [] then []
    else
      Messages(items[..|items| - 1]) +
      match items[|items| - 1]
      case Stop => []
      case Queued(m) => [m]
  }

  function DurableItems(items: seq<Item>): seq<Message> {
    Durable(Messages(items))
  }

  lemma {:induction false} DurableAppend(a: seq<Message>, b: seq<Message>)
    ensures Durable(a + b) == Durable(a) + Durable(b)
  {
    if b == [] {
      assert a + b == a;
    } else {
      assert (a + b)[..|a + b| - 1] == a + b[..|b| - 1];
      DurableAppend(a, b[..|b| - 1]);
    }
  }

  lemma {:induction false} MessagesAppend(a: seq<Item>, b: seq<Item>)
    ensures Messages(a + b) == Messages(a) + Messages(b)
  {
    if b == [] {
      assert a + b == a;
    } else {
      assert (a + b)[..|a + b| - 1] == a + b[..|b| - 1];
      MessagesAppend(a, b[..|b| - 1]);
    }
  }

  lemma ItemsAppend(a: seq<Item>, b: seq<Item>)
    ensures DurableItems(a + b) == DurableItems(a) + DurableItems(b)
  {
    MessagesAppend(a, b);
    DurableAppend(Messages(a), Messages(b));
  }

  lemma OneItem(i: Item)
    ensures DurableItems([i]) == if i.Queued? && !Progress(i.message) then [i.message] else []
  {
    assert Messages([i][..0]) == [];
    assert Messages([i]) == if i.Queued? then [i.message] else [];
    if i.Queued? {
      assert Durable([i.message][..0]) == [];
    }
  }

  lemma {:induction false} LevelsAreNotDurable(messages: seq<Message>)
    requires forall m | m in messages :: Progress(m)
    ensures DurableItems(Items(messages)) == []
  {
    if messages != [] {
      var last := |messages| - 1;
      assert Items(messages)[..last] == Items(messages[..last]);
      LevelsAreNotDurable(messages[..last]);
      assert Items(messages) == Items(messages[..last]) + [Queued(messages[last])];
      ItemsAppend(Items(messages[..last]), [Queued(messages[last])]);
      OneItem(Queued(messages[last]));
    }
  }

  // ---- the invariant ---------------------------------------------------------------

  predicate DropSound(s: Session) {
    s.clean <= s.client.queue && s.kept <= s.offered &&
    (if s.drop.None? then s.clean == s.client.queue && s.kept == s.offered
     else
       s.drop.value <= |s.delivered| <= s.drop.value + 1 &&
       (s.phase == Waiting ==> |s.delivered| == s.drop.value && s.clean != []))
  }

  predicate SessionSound(s: Session) {
    s.client.resync == s.drop.Some? && |s.client.queue| <= QUEUE_LIMIT &&
    (forall m | m in s.client.pending :: Progress(m)) &&
    DropSound(s) && Durable(s.delivered) + DurableItems(s.clean) == s.kept
  }

  /** A queue that only grows at its end, by levels or a farewell. */
  lemma GrowthKeepsSound(s: Session, c: Client, more: seq<Item>)
    requires SessionSound(s) && c.queue == s.client.queue + more && |c.queue| <= QUEUE_LIMIT
    requires c.resync == s.client.resync && DurableItems(more) == []
    requires forall m | m in c.pending :: Progress(m)
    ensures SessionSound(Arrive(s, c))
  {
    ItemsAppend(s.client.queue, more);
  }

  lemma {:induction false} CoalesceKeepsLevels(pending: seq<Message>, m: Message)
    requires Progress(m) && forall x | x in pending :: Progress(x)
    ensures forall x | x in Coalesce(pending, m) :: Progress(x)
  {
    if pending != [] {
      CoalesceKeepsLevels(pending[1..], m);
    }
  }

  lemma QueuedItem(delivered: seq<Message>, clean: seq<Item>, m: Message)
    requires !Progress(m)
    ensures Durable(delivered) + DurableItems(clean + [Queued(m)]) == Durable(delivered) + DurableItems(clean) + [m]
  {
    ItemsAppend(clean, [Queued(m)]);
    OneItem(Queued(m));
  }

  lemma QueueingKeepsSound(s: Session, m: Message)
    requires SessionSound(s) && !Progress(m) && !Overflows(s.client, m)
    ensures SessionSound(Published(s, m))
  {
    if s.drop.None? {
      QueuedItem(s.delivered, s.clean, m);
    }
  }

  lemma OverflowKeepsSound(s: Session, m: Message)
    requires SessionSound(s) && Overflows(s.client, m)
    ensures SessionSound(Published(s, m))
  {
    assert s.kept <= s.offered + [m];
  }

  lemma PublishKeepsSound(s: Session, m: Message)
    requires SessionSound(s)
    ensures SessionSound(Published(s, m))
  {
    if Progress(m) {
      CoalesceKeepsLevels(s.client.pending, m);
    } else if Overflows(s.client, m) {
      OverflowKeepsSound(s, m);
    } else {
      QueueingKeepsSound(s, m);
    }
  }

  lemma FlushKeepsSound(s: Session)
    requires SessionSound(s)
    ensures SessionSound(Step(s, FlushTick))
  {
    var fits := if |s.client.pending| <= Room(s.client) then |s.client.pending| else Room(s.client);
    LevelsAreNotDurable(s.client.pending[..fits]);
    GrowthKeepsSound(s, Flushed(s.client), Items(s.client.pending[..fits]));
  }

  lemma FarewellKeepsSound(s: Session)
    requires SessionSound(s)
    ensures SessionSound(Step(s, Farewell))
  {
    var c := s.client.(queue := PutNowait(s.client.queue, Stop));
    if |s.client.queue| < QUEUE_LIMIT {
      OneItem(Stop);
      GrowthKeepsSound(s, c, [Stop]);
    } else {
      assert s.client.queue == s.client.queue + [];
      GrowthKeepsSound(s, c, []);
    }
  }

  lemma OneMessage(m: Message)
    ensures Durable([m]) == DurableItems([Queued(m)])
  {
    assert [m][..0] == [] && [Queued(m)][..0] == [];
    assert Messages([Queued(m)]) == [m];
  }

  lemma Regroup(a: seq<Message>, b: seq<Message>, c: seq<Message>)
    ensures a + (b + c) == a + b + c
  {
  }

  lemma TakenMessage(delivered: seq<Message>, m: Message, rest: seq<Item>)
    ensures Durable(delivered) + DurableItems([Queued(m)] + rest) == Durable(delivered + [m]) + DurableItems(rest)
  {
    ItemsAppend([Queued(m)], rest);
    DurableAppend(delivered, [m]);
    OneMessage(m);
    Regroup(Durable(delivered), Durable([m]), DurableItems(rest));
  }

  lemma TakenStop(rest: seq<Item>)
    ensures DurableItems([Stop] + rest) == DurableItems(rest)
  {
    ItemsAppend([Stop], rest);
    OneItem(Stop);
  }

  lemma TakenItem(delivered: seq<Message>, clean: seq<Item>)
    requires clean != []
    ensures var i := clean[0];
            Durable(delivered) + DurableItems(clean) ==
            Durable(if i.Queued? then delivered + [i.message] else delivered) + DurableItems(clean[1..])
  {
    assert clean == [clean[0]] + clean[1..];
    if clean[0].Queued? {
      TakenMessage(delivered, clean[0].message, clean[1..]);
    } else {
      TakenStop(clean[1..]);
    }
  }

  lemma TakeKeepsSound(s: Session)
    requires SessionSound(s)
    ensures SessionSound(Received(s))
  {
    if s.phase == Waiting && s.client.queue != [] {
      assert s.clean[0] == s.client.queue[0];
      TakenItem(s.delivered, s.clean);
    }
  }

  lemma StepKeepsSessionSound(s: Session, e: Event)
    requires SessionSound(s)
    ensures SessionSound(Step(s, e))
  {
    match e
    case Publish(m) => PublishKeepsSound(s, m);
    case FlushTick => FlushKeepsSound(s);
    case Farewell => FarewellKeepsSound(s);
    case Take => TakeKeepsSound(s);
    case _ =>
  }

  lemma {:induction false} TraceKeepsSessionSound(topics: set<string>, run: Option<string>, events: seq<Event>)
    ensures SessionSound(Trace(Connected(topics, run), events))
  {
    if events != [] {
      TraceKeepsSessionSound(topics, run, events[..|events| - 1]);
      StepKeepsSessionSound(Trace(Connected(topics, run), events[..|events| - 1]), events[|events| - 1]);
    }
  }

  // ---- what a client receives ------------------------------------------------------

  /** The durable messages a client is sent are a prefix of those it was offered;
      without a drop only the queued ones are outstanding. */
  lemma DeliveredIsPrefix(topics: set<string>, run: Option<string>, events: seq<Event>)
    ensures var s := Trace(Connected(topics, run), events);
            Durable(s.delivered) <= s.offered &&
            (!s.client.resync ==> s.offered == Durable(s.delivered) + DurableItems(s.client.queue))
  {
    TraceKeepsSessionSound(topics, run, events);
  }

  /** After the first drop at most one more message is sent, and what is sent in
      all had been offered before the drop. */
  lemma AtMostOneAfterDrop(topics: set<string>, run: Option<string>, before: seq<Event>, m: Message, after: seq<Event>)
    requires var s := Trace(Connected(topics, run), before);
             s.drop.None? && Overflows(s.client, m)
    ensures var s := Trace(Connected(topics, run), before);
            var t := Trace(s, [Publish(m)] + after);
            s.delivered <= t.delivered && |t.delivered| <= |s.delivered| + 1 && Durable(t.delivered) <= s.offered
  {
    TraceKeepsSessionSound(topics, run, before);
    var s := Trace(Connected(topics, run), before);
    AfterDrop(s, m, after);
  }

  lemma DropStays(s: Session, e: Event)
    requires s.drop.Some?
    ensures var t := Step(s, e);
            s.delivered <= t.delivered && t.drop == s.drop && t.kept == s.kept
  {
  }

  lemma {:induction false} AfterDrop(s: Session, m: Message, after: seq<Event>)
    requires SessionSound(s) && s.drop.None? && Overflows(s.client, m)
    ensures var t := Trace(s, [Publish(m)] + after);
            SessionSound(t) && s.delivered <= t.delivered && t.drop == Some(|s.delivered|) && t.kept == s.offered
  {
    var all := [Publish(m)] + after;
    if after == [] {
      assert all[..0] == [];
      PublishKeepsSound(s, m);
    } else {
      var last := |after| - 1;
      AfterDrop(s, m, after[..last]);
      assert all[..|all| - 1] == [Publish(m)] + after[..last] && all[|all| - 1] == after[last];
      var t := Trace(s, [Publish(m)] + after[..last]);
      StepKeepsSessionSound(t, after[last]);
      DropStays(t, after[last]);
    }
  }

  // ---- the notice that never comes ----------------------------------------------------

  predicate Unnoticed(s: Session) {
    Queued(OVERFLOW) !in s.client.queue && OVERFLOW !in s.client.pending && OVERFLOW !in s.delivered
  }

  /** A client whose events overflow is never told so: no run delivers the
      overflow notice unless that very message was published. */
  lemma {:induction false} NoticeIsNeverSent(topics: set<string>, run: Option<string>, events: seq<Event>)
    requires forall e | e in events :: e != Publish(OVERFLOW)
    ensures Unnoticed(Trace(Connected(topics, run), events))
  {
    if events != [] {
      var before := events[..|events| - 1];
      assert events[|events| - 1] in events && forall e | e in before :: e in events;
      NoticeIsNeverSent(topics, run, before);
      TraceKeepsSessionSound(topics, run, before);
      StepStaysUnnoticed(Trace(Connected(topics, run), before), events[|events| - 1]);
    }
  }

  lemma StepStaysUnnoticed(s: Session, e: Event)
    requires SessionSound(s) && Unnoticed(s) && e != Publish(OVERFLOW)
    ensures Unnoticed(Step(s, e))
  {
    if e.Publish? && Progress(e.m) {
      CoalesceKeepsLevels(s.client.pending, e.m);
    }
  }

  function Flood(n: nat): seq<Event> {
    seq(n, _ => Publish(Message("job.changed", "jobs", Some(1), None, None, "")))
  }

  lemma {:induction false} FloodFills(n: nat)
    requires n <= QUEUE_LIMIT
    ensures var s := Trace(Connected({"jobs"}, None), Flood(n));
            |s.client.queue| == n && s.phase == Waiting && s.delivered == [] && !s.client.resync &&
            (n > 0 ==> s.client.queue[0] == Queued(Flood(n)[0].m))
  {
    if n > 0 {
      assert Flood(n)[..n - 1] == Flood(n - 1);
      FloodFills(n - 1);
    }
  }

  /** The documented `resync` message is not sent: a client that reads nothing
      while one event more than its queue holds is published gets one event, and
      then the end of its stream. */
  lemma OverflowClosesSilently()
    ensures var s := Trace(Connected({"jobs"}, None), Flood(QUEUE_LIMIT + 1) + [Take, Resume]);
            s.phase == Closed && |s.offered| == QUEUE_LIMIT + 1 && s.delivered == [Flood(1)[0].m]
  {
    FloodFills(QUEUE_LIMIT);
    var full := Flood(QUEUE_LIMIT + 1);
    assert full[..QUEUE_LIMIT] == Flood(QUEUE_LIMIT);
    var all := full + [Take, Resume];
    assert all[..|all| - 1] == full + [Take];
    assert (full + [Take])[..|full|] == full;
    FloodOffers(QUEUE_LIMIT + 1);
  }

  lemma {:induction false} FloodOffers(n: nat)
    ensures |Trace(Connected({"jobs"}, None), Flood(n)).offered| == n
  {
    if n > 0 {
      assert Flood(n)[..n - 1] == Flood(n - 1);
      FloodOffers(n - 1);
    }
  }

  // ---- the streaming body --------------------------------------------------------------

  lemma {:induction false} TraceAppend(s: Session, a: seq<Event>, b: seq<Event>)
    ensures Trace(s, a + b) == Trace(Trace(s, a), b)
  {
    if b == [] {
      assert a + b == a;
    } else {
      assert (a + b)[..|a + b| - 1] == a + b[..|b| - 1];
      TraceAppend(s, a, b[..|b| - 1]);
    }
  }

  /** What other tasks do while the body awaits. */
  predicate Arrival(e: Event) {
    e.Publish? || e.FlushTick? || e.Farewell?
  }

  class Body {
    const subscriber: Subscriber
    var phase: Phase
    var sent: seq<Message>
    ghost var session: Session

    ghost predicate Tracks()
      reads this, subscriber
    {
      session.client == subscriber.State() && session.phase == phase && session.delivered == sent
    }

    constructor (topics: set<string>, run: Option<string>)
      ensures Tracks() && session == Connected(topics, run) && fresh(subscriber)
    {
      subscriber := new Subscriber(topics, run);
      phase, sent, session := Waiting, [], Connected(topics, run);
    }

    method Others(arrivals: seq<Event>)
      requires Tracks() && forall e | e in arrivals :: Arrival(e)
      modifies this`session, subscriber
      ensures Tracks() && session == Trace(old(session), arrivals)
    {
      var i := 0;
      assert arrivals[..0] == [];
      while i < |arrivals|
        invariant i <= |arrivals| && Tracks() && session == Trace(old(session), arrivals[..i])
      {
        assert arrivals[..i + 1][..i] == arrivals[..i] && arrivals[i] in arrivals;
        match arrivals[i] {
          case Publish(m) => subscriber.Offer(m);
          case FlushTick => subscriber.FlushProgress();
          case Farewell => subscriber.queue := PutNowait(subscriber.queue, Stop);
          case _ =>
        }
        session := Step(session, arrivals[i]);
        i := i + 1;
      }
      assert arrivals[..i] == arrivals;
    }

    /** One turn: what arrives while waiting, one message if there is any (a
        keepalive otherwise), what arrives while it is being sent, and the checks
        that end the stream. */
    method Turn(waiting: seq<Event>, sending: seq<Event>) returns (ghost history: seq<Event>)
      requires Tracks() && phase == Waiting
      requires forall e | e in waiting || e in sending :: Arrival(e)
      modifies this`phase, this`sent, this`session, subscriber
      ensures Tracks() && phase != Sending && old(sent) <= sent
      ensures session == Trace(old(session), history)
    {
      Others(waiting);
      history := waiting;
      if subscriber.queue == [] {
        return;
      }
      var item := subscriber.queue[0];
      subscriber.queue := subscriber.queue[1..];
      session := Step(session, Take);
      history := history + [Take];
      if item.Stop? {
        phase := Closed;
        return;
      }
      phase, sent := Sending, sent + [item.message];
      Others(sending);
      TraceAppend(old(session), history, sending);
      history := history + sending;
      session := Step(session, Resume);
      history := history + [Resume];
      phase := if subscriber.resync then Closed else Waiting;
    }

    /** Sends queued messages until the farewell or the resync mark. `waiting`
        and `sending` are what arrives at the two awaits of each turn. Every run
        of the loop is a run of the session machine. */
    method Serve(waiting: seq<seq<Event>>, sending: seq<seq<Event>>) returns (ghost history: seq<Event>)
      requires Tracks() && phase == Waiting && |waiting| == |sending|
      requires forall i, e | 0 <= i < |waiting| && e in waiting[i] :: Arrival(e)
      requires forall i, e | 0 <= i < |sending| && e in sending[i] :: Arrival(e)
      modifies this`phase, this`sent, this`session, subscriber
      ensures Tracks() && phase != Sending && old(sent) <= sent
      ensures session == Trace(old(session), history)
    {
      history := [];
      var turn := 0;
      while turn < |waiting| && phase == Waiting
        invariant turn <= |waiting| && Tracks() && phase != Sending && old(sent) <= sent
        invariant session == Trace(old(session), history)
      {
        ghost var more := Turn(waiting[turn], sending[turn]);
        TraceAppend(old(session), history, more);
        history := history + more;
        turn := turn + 1;
      }
    }
  }
}
