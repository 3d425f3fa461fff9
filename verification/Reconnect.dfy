/** From what a reconnecting client is offered to what it is sent: the replay
    meets a bounded queue before the client reads anything. */
module Reconnect {
  import opened Tables
  import opened Clients
  import opened EventLog
  import opened Broker
  import Stream
  import Fanout
  import FanoutProofs
  import FanoutTheorems

  function WantedRows(topics: set<string>, run: Option<string>, rows: seq<Message>): seq<Message> {
    if rows == [] then []
    else
      WantedRows(topics, run, rows[..|rows| - 1]) +
      if Wants(topics, run, rows[|rows| - 1]) then [rows[|rows| - 1]] else []
  }

  predicate NoProgress(rows: seq<Message>) {
    forall m | m in rows :: !Progress(m)
  }

  function Fitting(rows: seq<Message>): seq<Message> {
    if |rows| <= QUEUE_LIMIT then rows else rows[..QUEUE_LIMIT]
  }

  /** A replay into an empty queue keeps the first 256 wanted rows, and marks the
      client exactly when there are more. */
  lemma {:induction false} ReplayOverflowsIff(c: Client, rows: seq<Message>)
    requires c.queue == [] && !c.resync && NoProgress(rows)
    ensures var after := OfferedAll(c, rows);
            var wanted := WantedRows(c.topics, c.run, rows);
            after.queue == Items(Fitting(wanted)) && after.topics == c.topics && after.run == c.run &&
            (after.resync <==> |wanted| > QUEUE_LIMIT)
  {
    if rows != [] {
      var before := rows[..|rows| - 1];
      var m := rows[|rows| - 1];
      assert m in rows && forall x | x in before :: x in rows;
      ReplayOverflowsIff(c, before);
      if Wants(c.topics, c.run, m) {
        OneMoreOffered(OfferedAll(c, before), WantedRows(c.topics, c.run, before), m);
      }
    }
  }

  lemma OneMoreOffered(c: Client, wanted: seq<Message>, m: Message)
    requires !Progress(m) && c.queue == Items(Fitting(wanted)) && (c.resync <==> |wanted| > QUEUE_LIMIT)
    ensures var after := Offered(c, m);
            after.queue == Items(Fitting(wanted + [m])) && (after.resync <==> |wanted + [m]| > QUEUE_LIMIT)
  {
    if |wanted| < QUEUE_LIMIT {
      assert Items(wanted + [m]) == Items(wanted) + [Queued(m)];
    } else {
      assert (wanted + [m])[..QUEUE_LIMIT] == wanted[..QUEUE_LIMIT];
    }
  }

  // ---- the session of a client that reads nothing yet --------------------------------

  function Publishes(messages: seq<Message>): seq<Stream.Event> {
    seq(|messages|, i requires 0 <= i < |messages| => Stream.Publish(messages[i]))
  }

  function Replayed(topics: set<string>, run: Option<string>, messages: seq<Message>): Stream.Session {
    Stream.Trace(Stream.Connected(topics, run), Publishes(messages))
  }

  predicate Unread(s: Stream.Session, messages: seq<Message>) {
    s.phase == Stream.Waiting && s.delivered == [] && s.client.queue == Items(Fitting(messages)) &&
    s.client.resync == s.drop.Some? && (s.drop.Some? <==> |messages| > QUEUE_LIMIT) &&
    (s.drop.Some? ==> s.drop.value == 0)
  }

  lemma OneMoreUnread(s: Stream.Session, before: seq<Message>, m: Message)
    requires Unread(s, before) && !Progress(m)
    ensures Unread(Stream.Published(s, m), before + [m])
  {
    OneMoreOffered(s.client, before, m);
  }

  lemma {:induction false} ReplayedSession(topics: set<string>, run: Option<string>, messages: seq<Message>)
    requires NoProgress(messages)
    ensures Unread(Replayed(topics, run, messages), messages)
  {
    if messages != [] {
      var before := messages[..|messages| - 1];
      var m := messages[|messages| - 1];
      assert m in messages && forall x | x in before :: x in messages;
      ReplayedSession(topics, run, before);
      assert Publishes(messages)[..|messages| - 1] == Publishes(before);
      OneMoreUnread(Replayed(topics, run, before), before, m);
      assert before + [m] == messages;
    }
  }

  function Turns(n: nat): seq<Stream.Event> {
    if n == 0 then [] else Turns(n - 1) + [Stream.Take] + [Stream.Resume]
  }

  predicate Sending(t: Stream.Session, messages: seq<Message>, n: nat)
    requires n <= |messages|
  {
    t.phase == Stream.Waiting && t.delivered == messages[..n] && !t.client.resync &&
    t.client.queue == Items(messages[n..])
  }

  lemma OneMoreTurn(s: Stream.Session, n: nat)
    requires n > 0
    ensures Stream.Trace(s, Turns(n)) ==
            Stream.Step(Stream.Step(Stream.Trace(s, Turns(n - 1)), Stream.Take), Stream.Resume)
  {
    var taken := Turns(n - 1) + [Stream.Take];
    assert taken[..|taken| - 1] == Turns(n - 1) && Turns(n)[..|Turns(n)| - 1] == taken;
  }

  lemma SendingNext(t: Stream.Session, messages: seq<Message>, n: nat)
    requires 0 < n <= |messages| && Sending(t, messages, n - 1)
    ensures Sending(Stream.Step(Stream.Step(t, Stream.Take), Stream.Resume), messages, n)
  {
    TakeFirst(t, messages[n - 1..]);
    assert messages[..n] == messages[..n - 1] + [messages[n - 1]] && messages[n - 1..][1..] == messages[n..];
  }

  lemma {:induction false} TurnsDeliver(s: Stream.Session, messages: seq<Message>, n: nat)
    requires n <= |messages| && Sending(s, messages, 0)
    ensures Sending(Stream.Trace(s, Turns(n)), messages, n)
  {
    if n > 0 {
      TurnsDeliver(s, messages, n - 1);
      OneMoreTurn(s, n);
      SendingNext(Stream.Trace(s, Turns(n - 1)), messages, n);
    }
  }

  lemma TakeFirst(s: Stream.Session, messages: seq<Message>)
    requires s.phase == Stream.Waiting && !s.client.resync && messages != [] && s.client.queue == Items(messages)
    ensures var t := Stream.Step(Stream.Step(s, Stream.Take), Stream.Resume);
            t.phase == Stream.Waiting && t.delivered == s.delivered + [messages[0]] && !t.client.resync &&
            t.client.queue == Items(messages[1..])
  {
    assert Items(messages)[1..] == Items(messages[1..]);
  }

  lemma {:induction false} DroppedSendsOne(s: Stream.Session, events: seq<Stream.Event>)
    requires Stream.SessionSound(s) && s.drop == Some(0)
    ensures Stream.SessionSound(Stream.Trace(s, events)) && Stream.Trace(s, events).drop == Some(0)
    ensures |Stream.Trace(s, events).delivered| <= 1
  {
    if events != [] {
      var before := events[..|events| - 1];
      DroppedSendsOne(s, before);
      Stream.StepKeepsSessionSound(Stream.Trace(s, before), events[|events| - 1]);
      Stream.DropStays(Stream.Trace(s, before), events[|events| - 1]);
    }
  }

  /** What is offered before the first read can all be sent exactly when it is at
      most 256 messages; otherwise, whatever happens, at most one is. */
  lemma OfferIsSentIff(topics: set<string>, run: Option<string>, messages: seq<Message>)
    requires NoProgress(messages)
    ensures var s := Replayed(topics, run, messages);
            (|messages| <= QUEUE_LIMIT ==> exists events :: Stream.Trace(s, events).delivered == messages) &&
            (|messages| > QUEUE_LIMIT ==> forall events :: |Stream.Trace(s, events).delivered| <= 1)
  {
    var s := Replayed(topics, run, messages);
    ReplayedSession(topics, run, messages);
    if |messages| <= QUEUE_LIMIT {
      TurnsDeliver(s, messages, |messages|);
      assert messages[..|messages|] == messages;
      assert Stream.Trace(s, Turns(|messages|)).delivered == messages;
    } else {
      Stream.TraceKeepsSessionSound(topics, run, Publishes(messages));
      forall events ensures |Stream.Trace(s, events).delivered| <= 1 {
        DroppedSendsOne(s, events);
      }
    }
  }

  // ---- joined to the fan-out ---------------------------------------------------------------

  lemma {:induction false} HeardIsWanted(v: Fanout.Viewer, rows: seq<Message>)
    ensures Fanout.HeardAll(v, rows).offered == v.offered + WantedRows(v.topics, v.run, rows)
    ensures Fanout.HeardAll(v, rows).topics == v.topics && Fanout.HeardAll(v, rows).run == v.run
  {
    if rows != [] {
      HeardIsWanted(v, rows[..|rows| - 1]);
    }
  }

  /** A client that reconnects and reads nothing before its replay is offered: it
      has been offered every row it wants above its last id and up to the
      watermark, and it can be sent them all exactly when no more than 256
      messages were offered; otherwise it gets one and the end of its stream. */
  lemma ReconnectIsServedIff(table: seq<Message>, events: seq<Fanout.Event>, v: nat)
    requires Fanout.Numbered(table) && FanoutTheorems.InOrderRun(Fanout.Started(table), events)
    requires var s := Fanout.Trace(Fanout.Started(table), events);
             v in s.viewers && s.viewers[v].last.Some? && s.viewers[v].stage == Fanout.Live &&
             !s.viewers[v].told && s.viewers[v].gapless && NoProgress(s.viewers[v].offered)
    ensures var s := Fanout.Trace(Fanout.Started(table), events);
            var viewer := s.viewers[v];
            var session := Replayed(viewer.topics, viewer.run, viewer.offered);
            if |viewer.offered| <= QUEUE_LIMIT
            then exists turns ::
                   forall m | m in s.table && Fanout.Interested(viewer, m) && viewer.last.value < Id(m) <= s.watermark ::
                     m in Stream.Trace(session, turns).delivered
            else forall turns :: |Stream.Trace(session, turns).delivered| <= 1
  {
    var s := Fanout.Trace(Fanout.Started(table), events);
    var viewer := s.viewers[v];
    var session := Replayed(viewer.topics, viewer.run, viewer.offered);
    OfferIsSentIff(viewer.topics, viewer.run, viewer.offered);
    forall m | m in s.table && Fanout.Interested(viewer, m) && viewer.last.value < Id(m) <= s.watermark
      ensures m in viewer.offered
    {
      FanoutTheorems.SeamHasNoGap(table, events, v, m);
    }
    if |viewer.offered| <= QUEUE_LIMIT {
      var turns :| Stream.Trace(session, turns).delivered == viewer.offered;
    }
  }
}
