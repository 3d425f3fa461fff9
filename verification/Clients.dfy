/** One connected client of the live stream: a bounded queue, coalesced progress
    and the overflow rule. */
module Clients {
  import opened Tables

  const QUEUE_LIMIT: nat := 256

  /** `id` is absent for levels, which are never replayed. */
  datatype Message = Message(
    event: string,
    topic: string,
    id: Option<nat>,
    run: Option<string>,
    job: Option<string>,
    data: string)

  const OVERFLOW: Message := Message("resync", "control", None, None, None, "subscriber fell behind")

  /** A queued entry; `Stop` is the broker's farewell. */
  datatype Item = Queued(message: Message) | Stop

  datatype Client = Client(
    topics: set<string>,
    run: Option<string>,
    queue: seq<Item>,
    pending: seq<Message>,
    resync: bool)

  predicate Progress(m: Message) {
    m.topic == "progress"
  }

  predicate Wants(topics: set<string>, run: Option<string>, m: Message) {
    m.topic in topics && (run.Some? && (m.topic == "jobs" || m.topic == "progress") ==> m.run == run)
  }

  /** A job message or a progress reading concerns the watchers of its run and those
      who watch no run; every other message concerns all who asked for its topic. */
  predicate Concerns(topics: set<string>, run: Option<string>, m: Message) {
    m.topic in topics &&
    (run == None || run == m.run || (m.topic != "jobs" && m.topic != "progress"))
  }

  // ---- offering ------------------------------------------------------------

  function PutNowait(queue: seq<Item>, item: Item): seq<Item> {
    if |queue| < QUEUE_LIMIT then queue + [item] else queue
  }

  /** Latest wins, in the place the job first took. */
  function Coalesce(pending: seq<Message>, m: Message): (next: seq<Message>)
    ensures |next| <= |pending| + 1
  {
    if pending == [] then [m]
    else if pending[0].job == m.job then [m] + pending[1..]
    else [pending[0]] + Coalesce(pending[1..], m)
  }

  lemma PassedOver(pending: seq<Message>, m: Message, i: nat)
    requires i < |pending| && pending[i].job != m.job
    ensures pending[..i] + Coalesce(pending[i..], m) == pending[..i + 1] + Coalesce(pending[i + 1..], m)
  {
    var rest := Coalesce(pending[i + 1..], m);
    assert pending[i..][0] == pending[i] && pending[i..][1..] == pending[i + 1..];
    assert Coalesce(pending[i..], m) == [pending[i]] + rest;
    assert pending[..i + 1] == pending[..i] + [pending[i]];
    Regrouped(pending[..i], pending[i], rest);
  }

  lemma Regrouped(a: seq<Message>, x: Message, b: seq<Message>)
    ensures a + ([x] + b) == a + [x] + b
  {
  }

  function Offered(c: Client, m: Message): Client {
    if Progress(m) then
      if m.job.Some? && m.job.value != "" then c.(pending := Coalesce(c.pending, m)) else c
    else if |c.queue| < QUEUE_LIMIT then c.(queue := c.queue + [Queued(m)])
    else c.(resync := true, queue := PutNowait(c.queue, Queued(OVERFLOW)))
  }

  function Items(messages: seq<Message>): seq<Item> {
    seq(|messages|, i requires 0 <= i < |messages| => Queued(messages[i]))
  }

  function Room(c: Client): nat {
    if |c.queue| < QUEUE_LIMIT then QUEUE_LIMIT - |c.queue| else 0
  }

  /** The pending readings that still fit, in order; the others are dropped. */
  function Flushed(c: Client): Client {
    var fits := if |c.pending| <= Room(c) then |c.pending| else Room(c);
    c.(queue := c.queue + Items(c.pending[..fits]), pending := [])
  }

  class Subscriber {
    var topics: set<string>
    var run: Option<string>
    var queue: seq<Item>
    var pending: seq<Message>
    var resync: bool

    function State(): Client
      reads this
    {
      Client(topics, run, queue, pending, resync)
    }

    constructor (topics: set<string>, run: Option<string>)
      ensures State() == Client(topics, run, [], [], false)
    {
      this.topics, this.run := topics, run;
      queue, pending, resync := [], [], false;
    }

    method Offer(m: Message)
      modifies this`queue, this`pending, this`resync
      ensures State() == Offered(old(State()), m)
    {
      if m.topic == "progress" {
        if m.job.Some? && m.job.value != "" {
          Remember(m);
        }
        return;
      }
      if |queue| < QUEUE_LIMIT {
        queue := queue + [Queued(m)];
      } else {
        resync := true;
        queue := PutNowait(queue, Queued(OVERFLOW));
      }
    }

    /** The dictionary write keyed on the job. */
    method Remember(m: Message)
      modifies this`pending
      ensures pending == Coalesce(old(pending), m)
    {
      var i := 0;
      while i < |pending| && pending[i].job != m.job
        invariant i <= |pending| && pending == old(pending)
        invariant Coalesce(pending, m) == pending[..i] + Coalesce(pending[i..], m)
      {
        PassedOver(pending, m, i);
        i := i + 1;
      }
      if i < |pending| {
        assert pending[i..][1..] == pending[i + 1..];
        assert pending[i := m] == pending[..i] + ([m] + pending[i + 1..]);
        pending := pending[i := m];
      } else {
        assert pending[..i] == pending;
        pending := pending + [m];
      }
    }

    method FlushProgress()
      modifies this`queue, this`pending
      ensures State() == Flushed(old(State()))
    {
      var i := 0;
      ghost var before := State();
      while i < |pending|
        invariant i <= |pending| && pending == before.pending
        invariant queue == before.queue + Items(pending[..if i <= Room(before) then i else Room(before)])
      {
        if |queue| < QUEUE_LIMIT {
          assert pending[..i + 1] == pending[..i] + [pending[i]];
          queue := queue + [Queued(pending[i])];
        }
        i := i + 1;
      }
      pending := [];
    }
  }

  // ---- coalescing keeps the latest reading of each job ------------------------

  function CoalesceAll(readings: seq<Message>): seq<Message> {
    if readings == [] then [] else Coalesce(CoalesceAll(readings[..|readings| - 1]), readings[|readings| - 1])
  }

  predicate Latest(readings: seq<Message>, m: Message) {
    exists i | 0 <= i < |readings| ::
      readings[i] == m && forall j | i < j < |readings| :: readings[j].job != m.job
  }

  predicate DistinctJobs(pending: seq<Message>) {
    forall i, j | 0 <= i < j < |pending| :: pending[i].job != pending[j].job
  }

  lemma {:induction false} CoalesceMembers(pending: seq<Message>, m: Message)
    requires DistinctJobs(pending)
    ensures DistinctJobs(Coalesce(pending, m))
    ensures forall x :: x in Coalesce(pending, m) <==> x == m || (x in pending && x.job != m.job)
  {
    if pending != [] && pending[0].job != m.job {
      CoalesceMembers(pending[1..], m);
      assert forall x | x in pending :: x == pending[0] || x in pending[1..];
    }
  }

  lemma LatestAfter(readings: seq<Message>, m: Message, x: Message)
    ensures Latest(readings + [m], x) <==> x == m || (Latest(readings, x) && x.job != m.job)
  {
    var all := readings + [m];
    if Latest(all, x) {
      var i :| 0 <= i < |all| && all[i] == x && forall j | i < j < |all| :: all[j].job != x.job;
      assert i < |readings| ==> all[|readings|].job != x.job && readings[i] == x;
      assert forall j | i < j < |readings| :: readings[j] == all[j];
    }
    if x == m {
      assert all[|readings|] == x;
    } else if Latest(readings, x) && x.job != m.job {
      var i :| 0 <= i < |readings| && readings[i] == x && forall j | i < j < |readings| :: readings[j].job != x.job;
      assert all[i] == x;
    }
  }

  /** What waits for the next flush is exactly the last reading of every job. */
  lemma {:induction false} PendingIsLatest(readings: seq<Message>)
    ensures DistinctJobs(CoalesceAll(readings))
    ensures forall x :: x in CoalesceAll(readings) <==> Latest(readings, x)
  {
    if readings != [] {
      var before := readings[..|readings| - 1];
      var m := readings[|readings| - 1];
      PendingIsLatest(before);
      CoalesceMembers(CoalesceAll(before), m);
      forall x ensures x in CoalesceAll(readings) <==> Latest(readings, x) {
        LatestAfter(before, m, x);
        assert before + [m] == readings;
      }
    }
  }

  function JobsOf(messages: seq<Message>): seq<Option<string>> {
    seq(|messages|, i requires 0 <= i < |messages| => messages[i].job)
  }

  /** The jobs that reported, in the order of their first reading. */
  function FirstSeen(readings: seq<Message>): seq<Option<string>> {
    if readings == [] then []
    else
      var before := FirstSeen(readings[..|readings| - 1]);
      var job := readings[|readings| - 1].job;
      if job in before then before else before + [job]
  }

  lemma {:induction false} CoalesceKeepsPlaces(pending: seq<Message>, m: Message)
    ensures JobsOf(Coalesce(pending, m)) ==
            if m.job in JobsOf(pending) then JobsOf(pending) else JobsOf(pending) + [m.job]
  {
    if pending != [] {
      assert JobsOf(pending)[0] == pending[0].job && JobsOf(pending)[1..] == JobsOf(pending[1..]);
      if pending[0].job != m.job {
        CoalesceKeepsPlaces(pending[1..], m);
        assert JobsOf(Coalesce(pending, m)) == [pending[0].job] + JobsOf(Coalesce(pending[1..], m));
      }
    }
  }

  /** A job keeps the place of its first reading, however often it reports. */
  lemma {:induction false} PendingKeepsPlaces(readings: seq<Message>)
    ensures JobsOf(CoalesceAll(readings)) == FirstSeen(readings)
  {
    if readings != [] {
      PendingKeepsPlaces(readings[..|readings| - 1]);
      CoalesceKeepsPlaces(CoalesceAll(readings[..|readings| - 1]), readings[|readings| - 1]);
    }
  }
}
