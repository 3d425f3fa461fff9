/** Attempts of a crawl job: what spends them, what resets them, what they allow. */
module JobAttempts {
  import opened Tables
  import opened JobControl
  import opened JobProofs
  import opened JobTheorems
  import opened JobEnvelopes
  import JobCommands

  // ---- an attempt is a start ---------------------------------------------------------

  /** The job newly runs. */
  predicate Starts(j: Job, k: Job) {
    j.state != Running && k.state == Running
  }

  /** A start is free if the job was sent back without having failed. */
  predicate Pays(j: Job, k: Job) {
    Starts(j, k) && !j.resumeFree
  }

  predicate Retries(e: Event, id: nat) {
    e.RetryJob? && e.id == id
  }

  lemma ControlledAttempt(j: Job, c: RowControl)
    requires c.Stop? ==> Terminal(c.ended)
    ensures var k := Controlled(j, c);
            k.maxAttempts == j.maxAttempts && !Starts(j, k) &&
            k.attempt == if c.Retry? && Terminal(j.state) then 0 else j.attempt
  {
    match c
    case Leave =>
    case Pause(_) =>
    case Stop(_) =>
    case Resume(_) =>
    case Wake(_) =>
    case Retry(_) =>
  }

  lemma WorkedAttempt(j: Job, w: RowWork)
    ensures var k := Worked(j, w);
            k.maxAttempts == j.maxAttempts && k.attempt == j.attempt + if Pays(j, k) then 1 else 0
  {
    match w
    case Done(action) => ActedAttempt(j, action);
    case _ =>
  }

  lemma ActedAttempt(j: Job, action: RowAction)
    ensures var k := Acted(j, action); k.maxAttempts == j.maxAttempts && k.attempt == j.attempt && !Starts(j, k)
  {
    match action
    case Renew(_, _, _) =>
    case Release(_, _, _) =>
    case Expire(_) =>
    case Park(_) =>
    case Finish(_, _) =>
  }

  /** What one step does to the attempt count: a retry of an ended job clears it, a
      paid start adds one, and nothing else touches it. */
  lemma AttemptStep(s: System, e: Event, id: nat)
    requires id < |s.jobs|
    ensures id < |Step(s, e).jobs|
    ensures var j, k := s.jobs[id], Step(s, e).jobs[id];
            k.maxAttempts == j.maxAttempts &&
            k.attempt == if Retries(e, id) && Terminal(j.state) then 0 else j.attempt + if Pays(j, k) then 1 else 0
  {
    if ControlEvent(e) {
      ControlsOneRow(s, e, id);
      ControlledAttempt(s.jobs[id], ControlOf(s, e, id));
    } else {
      WorksOneRow(s, e, id);
      WorkedAttempt(s.jobs[id], WorkOf(s, e, id));
    }
  }

  function PaidStarts(s: System, events: seq<Event>, id: nat): nat {
    if events == [] then 0
    else
      var t := Trace(s, events[..|events| - 1]);
      var u := Step(t, events[|events| - 1]);
      PaidStarts(s, events[..|events| - 1], id) +
      if id < |t.jobs| && id < |u.jobs| && Pays(t.jobs[id], u.jobs[id]) then 1 else 0
  }

  /** Between two retries a job's attempts are its paid starts, in every run. */
  lemma {:induction false} AttemptsArePaidStarts(s: System, events: seq<Event>, id: nat)
    requires id < |s.jobs| && forall e | e in events :: !Retries(e, id)
    ensures id < |Trace(s, events).jobs|
    ensures Trace(s, events).jobs[id].attempt == s.jobs[id].attempt + PaidStarts(s, events, id)
    ensures Trace(s, events).jobs[id].maxAttempts == s.jobs[id].maxAttempts
  {
    if events != [] {
      var before := events[..|events| - 1];
      assert events[|events| - 1] in events && forall e | e in before :: e in events;
      AttemptsArePaidStarts(s, before, id);
      AttemptStep(Trace(s, before), events[|events| - 1], id);
    }
  }

  // ---- the budget ---------------------------------------------------------------------

  /** A lease is given only while there is an attempt left, or for a free start. */
  predicate InBudget(j: Job) {
    j.attempt <= j.maxAttempts &&
    (j.state == Leased ==> !j.pauseRequested && (j.attempt < j.maxAttempts || j.resumeFree))
  }

  lemma ControlledInBudget(j: Job, c: RowControl)
    requires InBudget(j) && (c.Stop? ==> Terminal(c.ended))
    ensures InBudget(Controlled(j, c))
  {
    match c
    case Leave =>
    case Pause(_) =>
    case Stop(_) =>
    case Resume(_) =>
    case Wake(_) =>
    case Retry(_) =>
  }

  lemma ActedInBudget(j: Job, action: RowAction)
    requires InBudget(j)
    ensures InBudget(Acted(j, action))
  {
  }

  lemma WorkedInBudget(j: Job, w: RowWork)
    requires InBudget(j)
    ensures InBudget(Worked(j, w))
  {
    match w
    case Done(action) => ActedInBudget(j, action);
    case _ =>
  }

  lemma AddedInBudget(s: System, e: Event, id: nat)
    requires id >= |s.jobs| && id < |Step(s, e).jobs|
    ensures InBudget(Step(s, e).jobs[id])
  {
  }

  lemma StepKeepsBudget(s: System, e: Event, id: nat)
    requires id < |s.jobs| && InBudget(s.jobs[id])
    ensures id < |Step(s, e).jobs| && InBudget(Step(s, e).jobs[id])
  {
    if ControlEvent(e) {
      ControlsOneRow(s, e, id);
      ControlledInBudget(s.jobs[id], ControlOf(s, e, id));
    } else {
      WorksOneRow(s, e, id);
      WorkedInBudget(s.jobs[id], WorkOf(s, e, id));
    }
  }

  /** In every run a job has started for pay at most as often as it may. */
  lemma {:induction false} AttemptsStayInBudget(events: seq<Event>, id: nat)
    requires id < |Trace(EMPTY, events).jobs|
    ensures InBudget(Trace(EMPTY, events).jobs[id])
  {
    var s := Trace(EMPTY, events[..|events| - 1]);
    var e := events[|events| - 1];
    if id < |s.jobs| {
      AttemptsStayInBudget(events[..|events| - 1], id);
      StepKeepsBudget(s, e, id);
    } else {
      AddedInBudget(s, e, id);
    }
  }

  lemma {:induction false} RunKeepsBudget(s: System, events: seq<Event>, id: nat)
    requires id < |s.jobs| && InBudget(s.jobs[id])
    ensures id < |Trace(s, events).jobs| && InBudget(Trace(s, events).jobs[id])
  {
    if events != [] {
      RunKeepsBudget(s, events[..|events| - 1], id);
      StepKeepsBudget(Trace(s, events[..|events| - 1]), events[|events| - 1], id);
    }
  }

  /** Without a retry a job never starts for pay more often than it has attempts
      left. */
  lemma StartsStayInBudget(s: System, events: seq<Event>, id: nat)
    requires id < |s.jobs| && InBudget(s.jobs[id]) && forall e | e in events :: !Retries(e, id)
    ensures PaidStarts(s, events, id) <= s.jobs[id].maxAttempts - s.jobs[id].attempt
  {
    RunKeepsBudget(s, events, id);
    AttemptsArePaidStarts(s, events, id);
  }

  // ---- a delivery -----------------------------------------------------------------------

  /** The delivered generation is the job's, and neither the job nor its source is
      stopped, paused, early or at work. */
  predicate Deliverable(s: System, e: Envelope, now: int) {
    e in s.flying && e.job < |s.jobs| &&
    RowDeliverable(s.jobs[e.job], e.generation, SourceOf(s, s.jobs[e.job].source), now)
  }

  /** Of a deliverable job a delivery ends the one whose attempts are spent, and
      leases any other to a worker that fits; it leases nothing else. */
  lemma DeliveryIff(s: System, e: Envelope, now: int, fit: Fit, worker: nat)
    requires e.job < |s.jobs|
    ensures var next := Step(s, Deliver(e, now, fit, worker));
            e.job < |next.jobs| &&
            var j, k := s.jobs[e.job], next.jobs[e.job];
            var spent := j.attempt >= j.maxAttempts && !j.resumeFree;
            (Deliverable(s, e, now) && spent ==>
               k == j.(state := Failed, finished := true, owner := None, expires := None, token := None) &&
               e !in next.flying) &&
            (Deliverable(s, e, now) && !spent && fit == Fits ==>
               k == j.(state := Leased, owner := Some(worker), token := Some(s.issued),
                       expires := Some(now + 300_000_000)) && e in next.flying) &&
            (k.token.Some? && k.token != j.token ==> Deliverable(s, e, now) && !spent && fit == Fits) &&
            (k.state == Failed && j.state != Failed ==> Deliverable(s, e, now) && spent)
  {
    var source := SourceOf(s, s.jobs[e.job].source);
    ReservationIff(s.jobs[e.job], e.generation, source, now, fit, worker, s.issued);
    DeliveredAnswer(s, e, now, fit, worker);
  }

  lemma DeliveredAnswer(s: System, e: Envelope, now: int, fit: Fit, worker: nat)
    requires e.job < |s.jobs|
    ensures var next := Step(s, Deliver(e, now, fit, worker));
            var source := SourceOf(s, s.jobs[e.job].source);
            var (k, answer) := Reserved(s.jobs[e.job], e.generation, source.enabled, source.paused, now, fit, worker, s.issued);
            e.job < |next.jobs| && next.jobs[e.job] == (if e in s.flying then k else s.jobs[e.job]) &&
            (e in s.flying && answer == Ack && k.generation == s.jobs[e.job].generation ==> e !in next.flying) &&
            (e in s.flying && answer != Ack ==> e in next.flying)
  {
  }

  predicate RowDeliverable(j: Job, generation: nat, source: Settings, now: int) {
    j.generation == generation && j.state in {Queued, Leased, Running} && !j.cancelRequested && !j.pauseRequested &&
    source.enabled && !source.paused && j.scheduled <= now &&
    !(j.state in {Leased, Running} && j.expires.Some? && j.expires.value > now)
  }

  lemma ReservationIff(j: Job, generation: nat, source: Settings, now: int, fit: Fit, worker: nat, token: nat)
    ensures var (k, answer) := Reserved(j, generation, source.enabled, source.paused, now, fit, worker, token);
            var due := RowDeliverable(j, generation, source, now);
            var spent := j.attempt >= j.maxAttempts && !j.resumeFree;
            (due && spent ==>
               answer == Ack && k == j.(state := Failed, finished := true, owner := None, expires := None, token := None)) &&
            (due && !spent && fit == Fits ==>
               answer == Run && k == j.(state := Leased, owner := Some(worker), token := Some(token),
                                        expires := Some(now + 300_000_000))) &&
            (k.token.Some? && k.token != j.token ==> due && !spent && fit == Fits) &&
            (k.state == Failed && j.state != Failed ==> due && spent)
  {
  }

  // ---- a retry ------------------------------------------------------------------------------

  /** Nothing controls jobs, names that envelope, or finishes the job unfenced. */
  predicate LeavesAlone(e: Event, envelope: Envelope) {
    match e
    case Deliver(x, _, _, _) => x != envelope
    case Launch(x, _, _, _) => x != envelope
    case Acknowledge(x) => x != envelope
    case Redrive(x) => x != envelope
    case OnRow(id, action) => id == envelope.job ==> !(action.Finish? && action.fence == None)
    case _ => !ControlEvent(e)
  }

  /** The job waits for its envelope, which can still be delivered. */
  predicate Awaits(s: System, j: Job, envelope: Envelope) {
    envelope.job < |s.jobs| && s.jobs[envelope.job] == j && j.state == Queued && j.token == None &&
    j.generation == envelope.generation && envelope in s.flying
  }

  lemma WaitingRowStays(j: Job, w: RowWork)
    requires j.state == Queued && j.token == None
    requires !w.Redone? && (w.Received? ==> w.generation != j.generation)
    requires w.Done? ==> !(w.action.Finish? && w.action.fence == None)
    ensures Worked(j, w) == j
  {
  }

  lemma EnvelopeStays(s: System, e: Event, envelope: Envelope)
    requires envelope in s.flying && LeavesAlone(e, envelope)
    ensures envelope in Step(s, e).flying && Step(s, e).sources == s.sources
  {
  }

  lemma AwaitingStays(s: System, e: Event, j: Job, envelope: Envelope)
    requires Awaits(s, j, envelope) && LeavesAlone(e, envelope)
    ensures Awaits(Step(s, e), j, envelope) && Step(s, e).sources == s.sources
  {
    EnvelopeStays(s, e, envelope);
    WorksOneRow(s, e, envelope.job);
    WaitingRowStays(j, WorkOf(s, e, envelope.job));
  }

  lemma {:induction false} AwaitingRun(s: System, events: seq<Event>, j: Job, envelope: Envelope)
    requires Awaits(s, j, envelope) && forall e | e in events :: LeavesAlone(e, envelope)
    ensures Awaits(Trace(s, events), j, envelope) && Trace(s, events).sources == s.sources
  {
    if events != [] {
      var before := events[..|events| - 1];
      assert events[|events| - 1] in events && forall e | e in before :: e in events;
      AwaitingRun(s, before, j, envelope);
      AwaitingStays(Trace(s, before), events[|events| - 1], j, envelope);
    }
  }

  /** What a retry of an ended job leaves: its attempts unspent, under a generation
      whose envelope was just enqueued. */
  lemma RetriedAwaits(s: System, id: nat, at: int)
    requires JobsSound(s) && id < |s.jobs| && Terminal(s.jobs[id].state)
    ensures var next := Step(s, RetryJob(id, at));
            var j := s.jobs[id];
            id < |next.jobs| && Awaits(next, next.jobs[id], Envelope(id, j.generation + 1)) &&
            next.jobs[id] == j.(state := Queued, cancelRequested := false, pauseRequested := false, attempt := 0,
                                owner := None, expires := None, token := None, generation := j.generation + 1,
                                finished := false, scheduled := at) &&
            next.sources == s.sources
  {
    assert Envelope(id, s.jobs[id].generation + 1) !in s.outbox;
  }

  /** The first delivery of a retried job's envelope, to a fitting worker of an
      enabled and unpaused source, runs it, whatever else went on before. */
  lemma RetriedRuns(s: System, id: nat, at: int, events: seq<Event>, now: int, worker: nat)
    requires JobsSound(s) && id < |s.jobs| && Terminal(s.jobs[id].state) && s.jobs[id].maxAttempts > 0 && at <= now
    requires SourceOf(s, s.jobs[id].source) == Settings(true, false)
    requires forall e | e in events :: LeavesAlone(e, Envelope(id, s.jobs[id].generation + 1))
    ensures var envelope := Envelope(id, s.jobs[id].generation + 1);
            var t := Trace(Step(s, RetryJob(id, at)), events);
            var leased := Step(t, Deliver(envelope, now, Fits, worker));
            id < |leased.jobs| && leased.jobs[id].state == Leased && leased.jobs[id].token == Some(t.issued) &&
            leased.jobs[id].attempt == 0 && leased.jobs[id].owner == Some(worker)
  {
    var envelope := Envelope(id, s.jobs[id].generation + 1);
    var retried := Step(s, RetryJob(id, at));
    RetriedAwaits(s, id, at);
    AwaitingRun(retried, events, retried.jobs[id], envelope);
    DeliveryIff(Trace(retried, events), envelope, now, Fits, worker);
  }

  // ---- as many starts as the budget says -----------------------------------------------------

  /** Queued and due, and its envelope can be delivered. */
  predicate Ready(s: System, envelope: Envelope, now: int) {
    Deliverable(s, envelope, now) && s.jobs[envelope.job].state == Queued && !s.jobs[envelope.job].resumeFree
  }

  lemma RoundLeases(s: System, envelope: Envelope, now: int, worker: nat)
    requires Ready(s, envelope, now) && s.jobs[envelope.job].attempt < s.jobs[envelope.job].maxAttempts
    ensures var t := Step(s, Deliver(envelope, now, Fits, worker));
            envelope.job < |t.jobs| && t.sources == s.sources && envelope in t.flying &&
            t.jobs[envelope.job] == s.jobs[envelope.job].(state := Leased, owner := Some(worker), token := Some(s.issued),
                                                          expires := Some(now + 300_000_000))
  {
    DeliveryIff(s, envelope, now, Fits, worker);
  }

  lemma RoundStarts(t: System, envelope: Envelope, now: int, worker: nat, token: nat)
    requires envelope.job < |t.jobs| && envelope in t.flying
    requires var j := t.jobs[envelope.job];
             j.state == Leased && j.owner == Some(worker) && j.token == Some(token) && j.expires == Some(now + 300_000_000) &&
             j.generation == envelope.generation && !j.cancelRequested && !j.pauseRequested && !j.resumeFree
    ensures var u := Step(t, Launch(envelope, worker, token, now));
            envelope.job < |u.jobs| && u.sources == t.sources && envelope in u.flying &&
            u.jobs[envelope.job] == t.jobs[envelope.job].(state := Running, attempt := t.jobs[envelope.job].attempt + 1,
                                                          expires := Some(now + 300_000_000))
  {
  }

  lemma RoundReturns(u: System, envelope: Envelope, now: int, worker: nat, token: nat)
    requires envelope.job < |u.jobs| && envelope in u.flying
    requires u.jobs[envelope.job].owner == Some(worker) && u.jobs[envelope.job].token == Some(token)
    ensures var v := Step(u, OnRow(envelope.job, Release(worker, token, now)));
            envelope.job < |v.jobs| && v.sources == u.sources && envelope in v.flying &&
            v.jobs[envelope.job] == u.jobs[envelope.job].(state := Queued, owner := None, expires := None, token := None,
                                                          scheduled := now)
  {
  }

  lemma RoundPays(s: System, envelope: Envelope, now: int, worker: nat)
    requires Ready(s, envelope, now) && s.jobs[envelope.job].attempt < s.jobs[envelope.job].maxAttempts
    ensures var t := Step(s, Deliver(envelope, now, Fits, worker));
            var u := Step(t, Launch(envelope, worker, s.issued, now));
            var v := Step(u, OnRow(envelope.job, Release(worker, s.issued, now)));
            Ready(v, envelope, now) && v.jobs[envelope.job].attempt == s.jobs[envelope.job].attempt + 1 &&
            v.jobs[envelope.job].maxAttempts == s.jobs[envelope.job].maxAttempts
  {
    var t := Step(s, Deliver(envelope, now, Fits, worker));
    var u := Step(t, Launch(envelope, worker, s.issued, now));
    RoundLeases(s, envelope, now, worker);
    RoundStarts(t, envelope, now, worker, s.issued);
    RoundReturns(u, envelope, now, worker, s.issued);
  }

  lemma ThreeMore(s: System, events: seq<Event>, a: Event, b: Event, c: Event)
    ensures Trace(s, events + [a] + [b] + [c]) == Step(Step(Step(Trace(s, events), a), b), c)
  {
    OneMore(s, events, a);
    OneMore(s, events + [a], b);
    OneMore(s, events + [a] + [b], c);
  }

  /** From a job that waits with its envelope, some run starts it as often as its
      budget allows, and the next delivery then ends it for spent attempts. */
  lemma BudgetCanBeSpent(s: System, envelope: Envelope, now: int, worker: nat) returns (events: seq<Event>)
    requires Ready(s, envelope, now) && s.jobs[envelope.job].attempt <= s.jobs[envelope.job].maxAttempts
    ensures forall e | e in events :: !Retries(e, envelope.job)
    ensures Ready(Trace(s, events), envelope, now)
    ensures PaidStarts(s, events, envelope.job) == s.jobs[envelope.job].maxAttempts - s.jobs[envelope.job].attempt
    ensures Step(Trace(s, events), Deliver(envelope, now, Fits, worker)).jobs[envelope.job].state == Failed
  {
    events := SpendAttempts(s, envelope, now, worker, s.jobs[envelope.job].maxAttempts - s.jobs[envelope.job].attempt);
    AttemptsArePaidStarts(s, events, envelope.job);
    DeliveryIff(Trace(s, events), envelope, now, Fits, worker);
  }

  lemma {:induction false} SpendAttempts(s: System, envelope: Envelope, now: int, worker: nat, n: nat)
    returns (events: seq<Event>)
    requires Ready(s, envelope, now) && s.jobs[envelope.job].attempt + n <= s.jobs[envelope.job].maxAttempts
    ensures forall e | e in events :: !Retries(e, envelope.job)
    ensures Ready(Trace(s, events), envelope, now)
    ensures Trace(s, events).jobs[envelope.job].attempt == s.jobs[envelope.job].attempt + n
    ensures Trace(s, events).jobs[envelope.job].maxAttempts == s.jobs[envelope.job].maxAttempts
  {
    events := [];
    if n > 0 {
      var before := SpendAttempts(s, envelope, now, worker, n - 1);
      var t := Trace(s, before);
      var a, b := Deliver(envelope, now, Fits, worker), Launch(envelope, worker, t.issued, now);
      var c := OnRow(envelope.job, Release(worker, t.issued, now));
      ThreeMore(s, before, a, b, c);
      RoundPays(t, envelope, now, worker);
      events := before + [a] + [b] + [c];
    }
  }

  // ---- a free start ----------------------------------------------------------------------------

  /** Neither started, finished by a worker, nor resumed or retried again. */
  predicate Untouched(s: System, e: Event, id: nat) {
    id < |s.jobs| && id < |Step(s, e).jobs| && !Starts(s.jobs[id], Step(s, e).jobs[id]) &&
    !(e.OnRow? && e.id == id && e.action.Finish?) && !((e.ResumeJob? || e.RetryJob?) && e.id == id)
  }

  predicate UntouchedRun(s: System, events: seq<Event>, id: nat) {
    forall i | 0 <= i < |events| :: Untouched(Trace(s, events[..i]), events[i], id)
  }

  lemma ControlledFree(j: Job, c: RowControl)
    requires j.resumeFree && !c.Resume?
    ensures Controlled(j, c).resumeFree
  {
    match c
    case Leave =>
    case Pause(_) =>
    case Stop(_) =>
    case Wake(_) =>
    case Retry(_) =>
  }

  lemma WorkedFree(j: Job, w: RowWork)
    requires j.resumeFree && !Starts(j, Worked(j, w)) && !(w.Done? && w.action.Finish?)
    ensures Worked(j, w).resumeFree
  {
  }

  lemma FreeStays(s: System, e: Event, id: nat)
    requires id < |s.jobs| && s.jobs[id].resumeFree && Untouched(s, e, id)
    ensures Step(s, e).jobs[id].resumeFree && Step(s, e).jobs[id].attempt == s.jobs[id].attempt
  {
    AttemptStep(s, e, id);
    if ControlEvent(e) {
      ControlsOneRow(s, e, id);
      ControlledFree(s.jobs[id], ControlOf(s, e, id));
    } else {
      WorksOneRow(s, e, id);
      WorkedFree(s.jobs[id], WorkOf(s, e, id));
    }
  }

  lemma {:induction false} FreeRun(s: System, events: seq<Event>, id: nat)
    requires id < |s.jobs| && s.jobs[id].resumeFree && UntouchedRun(s, events, id)
    ensures id < |Trace(s, events).jobs|
    ensures Trace(s, events).jobs[id].resumeFree && Trace(s, events).jobs[id].attempt == s.jobs[id].attempt
  {
    if events != [] {
      var before := events[..|events| - 1];
      forall i | 0 <= i < |before| ensures Untouched(Trace(s, before[..i]), before[i], id) {
        assert before[..i] == events[..i];
      }
      FreeRun(s, before, id);
      assert Untouched(Trace(s, events[..|before|]), events[|before|], id);
      FreeStays(Trace(s, before), events[|events| - 1], id);
    }
  }

  /** Pausing is a matter of timing: however long a parked job waits after it was
      resumed, and however often it is leased and lost again, its next start spends
      no attempt. */
  lemma ParkedSpendsNothing(s: System, id: nat, now: int, events: seq<Event>, e: Event)
    requires id < |s.jobs| && s.jobs[id].state == Paused && id < |Step(s, ResumeJob(id, now)).jobs|
    requires UntouchedRun(Step(s, ResumeJob(id, now)), events, id) && !Retries(e, id)
    ensures var t := Trace(Step(s, ResumeJob(id, now)), events);
            id < |t.jobs| && id < |Step(t, e).jobs| && t.jobs[id].attempt == s.jobs[id].attempt &&
            (Starts(t.jobs[id], Step(t, e).jobs[id]) ==> Step(t, e).jobs[id].attempt == s.jobs[id].attempt)
  {
    var resumed := Step(s, ResumeJob(id, now));
    ControlsOneRow(s, ResumeJob(id, now), id);
    FreeRun(resumed, events, id);
    AttemptStep(Trace(resumed, events), e, id);
  }

  // ---- cancelling ---------------------------------------------------------------------------------

  predicate Doomed(j: Job) {
    j.cancelRequested || Terminal(j.state)
  }

  /** Whatever stops a job, of its own, of its run or of its source, dooms it. */
  lemma CancelDooms(s: System, e: Event, id: nat)
    requires id < |s.jobs| && JobCommands.Stops(s, e, id)
    ensures id < |Step(s, e).jobs| && Doomed(Step(s, e).jobs[id])
  {
    JobCommands.CommandReaches(s, e, id);
  }

  lemma DoomedStays(s: System, e: Event, id: nat)
    requires id < |s.jobs| && TokenSound(s.jobs[id], s.issued) && Doomed(s.jobs[id]) && !Retries(e, id)
    ensures id < |Step(s, e).jobs| && Doomed(Step(s, e).jobs[id]) && !Starts(s.jobs[id], Step(s, e).jobs[id])
  {
    if ControlEvent(e) {
      ControlsOneRow(s, e, id);
      ControlledDoomed(s.jobs[id], ControlOf(s, e, id));
    } else {
      WorksOneRow(s, e, id);
      WorkedDoomed(s.jobs[id], WorkOf(s, e, id), s.issued);
    }
  }

  lemma ControlledDoomed(j: Job, c: RowControl)
    requires Doomed(j) && !c.Retry? && (c.Stop? ==> Terminal(c.ended))
    ensures Doomed(Controlled(j, c)) && !Starts(j, Controlled(j, c))
  {
    match c
    case Leave =>
    case Pause(_) =>
    case Stop(_) =>
    case Resume(_) =>
    case Wake(_) =>
    case Retry(_) =>
  }

  lemma WorkedDoomed(j: Job, w: RowWork, issued: nat)
    requires TokenSound(j, issued) && Doomed(j)
    ensures Doomed(Worked(j, w)) && !Starts(j, Worked(j, w))
  {
  }

  /** A cancelled job never starts again unless it is retried. */
  lemma {:induction false} CancelledNeverStarts(s: System, events: seq<Event>, id: nat)
    requires JobsSound(s) && id < |s.jobs| && Doomed(s.jobs[id]) && forall e | e in events :: !Retries(e, id)
    ensures id < |Trace(s, events).jobs| && Doomed(Trace(s, events).jobs[id]) && PaidStarts(s, events, id) == 0
  {
    if events != [] {
      var before := events[..|events| - 1];
      assert events[|events| - 1] in events && forall e | e in before :: e in events;
      CancelledNeverStarts(s, before, id);
      TraceKeepsJobsSound(s, before);
      assert RowSound(Trace(s, before), id);
      DoomedStays(Trace(s, before), events[|events| - 1], id);
    }
  }

  // ---- a lost worker ---------------------------------------------------------------------------------

  /** The sweep takes back exactly the leases that have run out: the job is queued
      again while it has an attempt or a free start left, and fails otherwise. */
  lemma ExpiryIff(s: System, id: nat, now: int)
    requires id < |s.jobs|
    ensures var next := Step(s, OnRow(id, Expire(now)));
            var j := s.jobs[id];
            var lost := j.state in {Leased, Running} && j.expires.Some? && j.expires.value < now;
            id < |next.jobs| && next.flying == s.flying &&
            next.jobs[id] ==
              if !lost then j
              else if j.attempt < j.maxAttempts || j.resumeFree
              then j.(state := Queued, owner := None, expires := None, token := None)
              else j.(state := Failed, finished := true, owner := None, expires := None, token := None)
  {
  }

  /** A worker's statements write the row whose lease it holds, and none other. */
  lemma HolderWrites(j: Job, owner: nat, token: nat, now: int)
    ensures var held := j.owner == Some(owner) && j.token == Some(token);
            Acted(j, Renew(owner, token, now)) ==
              (if held && j.state in {Leased, Running} then j.(expires := Some(now + 300_000_000)) else j) &&
            Acted(j, Release(owner, token, now)) ==
              (if held then j.(state := Queued, owner := None, expires := None, token := None, scheduled := now) else j)
  {
  }

  lemma TokenWrites(j: Job, token: nat, fence: Option<nat>, ended: JobState)
    ensures var free := j.(owner := None, expires := None, token := None);
            Acted(j, Park(token)) ==
              (if j.token == Some(token) then free.(state := Paused, pauseRequested := false) else j) &&
            Acted(j, Finish(fence, ended)) ==
              (if (fence == None || j.token == fence) && ended in {Succeeded, Degraded, Failed, Cancelled, Skipped}
               then free.(state := ended, finished := true, pauseRequested := false, resumeFree := false) else j)
  {
  }


  /** The browser fallback sends the job back for free, under a new generation. */
  lemma RequireWrites(s: System, id: nat, owner: nat, token: nat)
    requires JobsSound(s) && id < |s.jobs|
    ensures var j := s.jobs[id];
            var next := Step(s, Require(id, owner, token));
            if j.owner == Some(owner) && j.token == Some(token) then
              next.jobs == s.jobs[id := j.(state := Queued, resumeFree := true, owner := None, expires := None, token := None,
                                           generation := j.generation + 1)] &&
              next.flying == s.flying + {Envelope(id, j.generation + 1)}
            else next == s
  {
    assert Envelope(id, s.jobs[id].generation + 1) !in s.outbox;
  }
}
