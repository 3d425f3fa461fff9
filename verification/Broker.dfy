/** The broker: a watermark over the event table, a bounded replay buffer, and
    the fan-out to the connected clients. */
module Broker {
  import opened Tables
  import opened Clients
  import opened EventLog

  const BUFFER_SIZE: nat := 1000

  const GAP_TOO_LARGE: Message := Message("resync", "control", None, None, None, "gap too large")
  const REPLAY_FAILED: Message := Message("resync", "control", None, None, None, "replay failed")

  /** `deque(maxlen=BUFFER_SIZE)` */
  function Remember(buffer: seq<Message>, m: Message): seq<Message> {
    if m.id.None? then buffer
    else
      var longer := buffer + [m];
      if |longer| > BUFFER_SIZE then longer[|longer| - BUFFER_SIZE..] else longer
  }

  function RememberAll(buffer: seq<Message>, rows: seq<Message>): seq<Message> {
    if rows == [] then buffer else Remember(RememberAll(buffer, rows[..|rows| - 1]), rows[|rows| - 1])
  }

  /** Every wanted message, offered in turn. */
  function OfferedAll(c: Client, messages: seq<Message>): Client {
    if messages == [] then c
    else
      var m := messages[|messages| - 1];
      var before := OfferedAll(c, messages[..|messages| - 1]);
      if Wants(c.topics, c.run, m) then Offered(before, m) else before
  }

  lemma {:induction false} OfferingKeepsInterest(c: Client, messages: seq<Message>)
    ensures OfferedAll(c, messages).topics == c.topics && OfferedAll(c, messages).run == c.run
  {
    if messages != [] {
      OfferingKeepsInterest(c, messages[..|messages| - 1]);
    }
  }

  lemma OfferOneMore(c: Client, rows: seq<Message>, k: nat)
    requires k < |rows|
    ensures OfferedAll(c, rows[..k + 1]) == OfferedAll(OfferedAll(c, rows[..k]), [rows[k]])
  {
    OfferingKeepsInterest(c, rows[..k]);
    assert rows[..k + 1][..k] == rows[..k];
    assert [rows[k]][..0] == [];
  }

  function Raised(watermark: nat, rows: seq<Message>): nat {
    if rows == [] then watermark
    else
      var before := Raised(watermark, rows[..|rows| - 1]);
      if Id(rows[|rows| - 1]) > before then Id(rows[|rows| - 1]) else before
  }

  function Oldest(buffer: seq<Message>): (oldest: nat)
    ensures buffer != [] ==> (exists m | m in buffer :: Id(m) == oldest) && forall m | m in buffer :: oldest <= Id(m)
  {
    if buffer == [] then 0
    else if |buffer| == 1 then Id(buffer[0])
    else
      var rest := Oldest(buffer[..|buffer| - 1]);
      if Id(buffer[|buffer| - 1]) < rest then Id(buffer[|buffer| - 1]) else rest
  }

  function Buffered(buffer: seq<Message>, after: int): seq<Message> {
    Above(buffer, after)
  }

  /** What a reconnecting client is served from. */
  datatype Source = TooFar | Memory(rows: seq<Message>) | Table

  function ReplaySource(watermark: nat, buffer: seq<Message>, after: int): Source {
    if watermark - after > MAX_REPLAY then TooFar
    else if Buffered(buffer, after) != [] && Oldest(buffer) <= after + 1 then Memory(Buffered(buffer, after))
    else Table
  }

  class Broker {
    var subscribers: seq<Subscriber>
    var buffer: seq<Message>
    var watermark: nat

    predicate Distinct()
      reads this
    {
      forall i, j | 0 <= i < j < |subscribers| :: subscribers[i] != subscribers[j]
    }

    constructor (newest: nat)
      ensures subscribers == [] && buffer == [] && watermark == newest
    {
      subscribers, buffer, watermark := [], [], newest;
    }

    method Publish(m: Message)
      requires Distinct()
      modifies this`buffer, subscribers
      ensures buffer == Remember(old(buffer), m)
      ensures forall i | 0 <= i < |subscribers| ::
                subscribers[i].State() == OfferedAll(old(subscribers[i].State()), [m])
      ensures forall i | 0 <= i < |subscribers| ::
                var before := old(subscribers[i].State());
                if !Concerns(before.topics, before.run, m) then subscribers[i].State() == before
                else m.topic != "progress" && |before.queue| < 256 ==>
                       subscribers[i].State() == before.(queue := before.queue + [Queued(m)])
    {
      if m.id.Some? {
        buffer := buffer + [m];
        if |buffer| > BUFFER_SIZE {
          buffer := buffer[|buffer| - BUFFER_SIZE..];
        }
      }
      assert [m][..0] == [];
      var i := 0;
      while i < |subscribers|
        invariant i <= |subscribers| && buffer == Remember(old(buffer), m)
        invariant forall j | 0 <= j < i :: subscribers[j].State() == OfferedAll(old(subscribers[j].State()), [m])
        invariant forall j | i <= j < |subscribers| :: subscribers[j].State() == old(subscribers[j].State())
      {
        var subscriber := subscribers[i];
        if Wants(subscriber.topics, subscriber.run, m) {
          subscriber.Offer(m);
        }
        i := i + 1;
      }
    }

    /** The loop over the rows that one drain read. */
    method PublishRows(rows: seq<Message>)
      requires Distinct()
      modifies this`buffer, this`watermark, subscribers
      ensures watermark == Raised(old(watermark), rows) && buffer == RememberAll(old(buffer), rows)
      ensures forall i | 0 <= i < |subscribers| ::
                subscribers[i].State() == OfferedAll(old(subscribers[i].State()), rows)
    {
      var k := 0;
      while k < |rows|
        invariant k <= |rows| && watermark == Raised(old(watermark), rows[..k])
        invariant buffer == RememberAll(old(buffer), rows[..k])
        invariant forall i | 0 <= i < |subscribers| ::
                    subscribers[i].State() == OfferedAll(old(subscribers[i].State()), rows[..k])
      {
        assert rows[..k + 1][..k] == rows[..k];
        if Id(rows[k]) > watermark {
          watermark := Id(rows[k]);
        }
        Publish(rows[k]);
        forall i | 0 <= i < |subscribers|
          ensures subscribers[i].State() == OfferedAll(old(subscribers[i].State()), rows[..k + 1])
        {
          OfferOneMore(old(subscribers[i].State()), rows, k);
        }
        k := k + 1;
      }
      assert rows[..k] == rows;
    }

    method DrainEvents(table: seq<Message>)
      requires Distinct()
      modifies this`buffer, this`watermark, subscribers
      ensures var rows := Query(table, old(watermark), DRAIN_LIMIT);
              watermark == Raised(old(watermark), rows) && buffer == RememberAll(old(buffer), rows) &&
              forall i | 0 <= i < |subscribers| ::
                subscribers[i].State() == OfferedAll(old(subscribers[i].State()), rows)
    {
      PublishRows(Query(table, watermark, DRAIN_LIMIT));
    }

    /** `answer` is what the table query returns, or nothing if it fails. */
    method Replay(subscriber: Subscriber, after: int, answer: Option<seq<Message>>)
      modifies subscriber
      ensures subscriber.State() ==
              match ReplaySource(watermark, buffer, after)
              case TooFar => Offered(old(subscriber.State()), GAP_TOO_LARGE)
              case Memory(rows) => OfferedAll(old(subscriber.State()), rows)
              case Table =>
                if answer.None? then Offered(old(subscriber.State()), REPLAY_FAILED)
                else OfferedAll(old(subscriber.State()), answer.value)
    {
      if watermark - after > MAX_REPLAY {
        subscriber.Offer(GAP_TOO_LARGE);
        return;
      }
      var buffered := Above(buffer, after);
      var oldest := if buffer == [] then 0 else Oldest(buffer);
      if buffered != [] && oldest <= after + 1 {
        OfferRows(subscriber, buffered);
        return;
      }
      if answer.None? {
        subscriber.Offer(REPLAY_FAILED);
        return;
      }
      OfferRows(subscriber, answer.value);
    }

    method OfferRows(subscriber: Subscriber, rows: seq<Message>)
      modifies subscriber
      ensures subscriber.State() == OfferedAll(old(subscriber.State()), rows)
    {
      var k := 0;
      while k < |rows|
        invariant k <= |rows| && subscriber.State() == OfferedAll(old(subscriber.State()), rows[..k])
      {
        assert rows[..k + 1][..k] == rows[..k];
        OfferingKeepsInterest(old(subscriber.State()), rows[..k]);
        if Wants(subscriber.topics, subscriber.run, rows[k]) {
          subscriber.Offer(rows[k]);
        }
        k := k + 1;
      }
      assert rows[..k] == rows;
    }
  }
}
