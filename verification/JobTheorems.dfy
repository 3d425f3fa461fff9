/** What the operator controls promise, and where they fall short. */
module JobTheorems {
  import opened Tables
  import opened JobControl
  import opened JobProofs

  const EMPTY: System := System([], {}, {}, map[], 0)

  // ---- delivery generations ------------------------------------------------------

  datatype RowControl = Leave | Pause(bySource: bool) | Stop(ended: JobState) | Resume(now: int) | Wake(now: int) | Retry(now: int)

  function Controlled(j: Job, c: RowControl): Job {
    match c
    case Leave => j
    case Pause(bySource) => PauseRow(j, bySource)
    case Stop(ended) => StopRow(j, ended)
    case Resume(now) => ResumeRow(j, now)
    case Wake(now) => ResumeSourceRow(j, now)
    case Retry(now) => RetryRow(j, now)
  }

  /** Which update, if any, a control event applies to a job's row. */
  function ControlOf(s: System, e: Event, id: nat): RowControl
    requires id < |s.jobs|
  {
    var j := s.jobs[id];
    match e
    case PauseJob(i) => if i == id then Pause(false) else Leave
    case ResumeJob(i, now) => if i == id then Resume(now) else Leave
    case CancelJob(i) => if i == id then Stop(Cancelled) else Leave
    case RetryJob(i, now) => if i == id then Retry(now) else Leave
    case CancelRun(run) => if j.run == run then Stop(Cancelled) else Leave
    case UpdateSource(name, enabled, paused, now) =>
      if j.source != name then Leave
      else if !enabled then Stop(Skipped)
      else if paused then Pause(true)
      else if SourceOf(s, name).paused then Wake(now)
      else Leave
    case _ => Leave
  }

  lemma ControlsOneRow(s: System, e: Event, id: nat)
    requires ControlEvent(e) && id < |s.jobs|
    ensures id < |Control(s, e).jobs| && Control(s, e).jobs[id] == Controlled(s.jobs[id], ControlOf(s, e, id))
  {
  }

  datatype RowWork =
    | Untouched
    | Received(generation: nat, source: Settings, at: int, fit: Fit, worker: nat, issuing: nat)
    | Begun(owner: nat, token: nat, generation: nat, at: int)
    | Done(action: RowAction)
    | Fallback(owner: nat, token: nat)
    | Redone

  function Worked(j: Job, w: RowWork): Job {
    match w
    case Untouched => j
    case Received(generation, source, now, fit, worker, issuing) =>
      Reserved(j, generation, source.enabled, source.paused, now, fit, worker, issuing).0
    case Begun(owner, token, generation, now) => StartRow(j, owner, token, generation, now)
    case Done(action) => Acted(j, action)
    case Fallback(owner, token) => RequireRow(j, owner, token)
    case Redone => j.(generation := j.generation + 1)
  }

  /** Which update, if any, a worker-side event applies to a job's row. */
  function WorkOf(s: System, e: Event, id: nat): RowWork
    requires id < |s.jobs|
  {
    match e
    case Deliver(envelope, now, fit, worker) =>
      if envelope in s.flying && envelope.job == id
      then Received(envelope.generation, SourceOf(s, s.jobs[id].source), now, fit, worker, s.issued) else Untouched
    case Launch(envelope, owner, token, now) =>
      if envelope.job == id then Begun(owner, token, envelope.generation, now) else Untouched
    case OnRow(i, action) => if i == id then Done(action) else Untouched
    case Require(i, owner, token) => if i == id then Fallback(owner, token) else Untouched
    case Redrive(envelope) => if envelope.job == id && Redrivable(s, envelope) then Redone else Untouched
    case _ => Untouched
  }

  lemma DeliveryWorksOneRow(s: System, e: Envelope, now: int, fit: Fit, worker: nat, id: nat)
    requires id < |s.jobs|
    ensures var next := Delivered(s, e, now, fit, worker);
            id < |next.jobs| && next.sources == s.sources &&
            next.jobs[id] == Worked(s.jobs[id], WorkOf(s, Deliver(e, now, fit, worker), id))
  {
  }

  lemma WorksOneRow(s: System, e: Event, id: nat)
    requires !ControlEvent(e) && id < |s.jobs|
    ensures id < |Work(s, e).jobs| && Work(s, e).jobs[id] == Worked(s.jobs[id], WorkOf(s, e, id))
    ensures Work(s, e).sources == s.sources
  {
    if e.Deliver? {
      DeliveryWorksOneRow(s, e.envelope, e.now, e.fit, e.worker, id);
    }
  }

  lemma ControlledGeneration(j: Job, c: RowControl)
    requires c.Stop? ==> Terminal(c.ended)
    ensures var k := Controlled(j, c);
            k.generation == j.generation + if k.state != j.state then 1 else 0
  {
    match c
    case Leave =>
    case Pause(_) =>
    case Stop(_) =>
    case Resume(_) =>
    case Wake(_) =>
    case Retry(_) =>
  }

  lemma ControlledToken(j: Job, c: RowControl, issued: nat)
    requires TokenSound(j, issued) && Controlled(j, c).state != j.state
    ensures Controlled(j, c).token.None?
  {
  }

  /** A control raises a job's delivery generation by one exactly when it changes
      the job's state, and a job in flight keeps its envelope. */
  lemma ControlRaisesGeneration(s: System, e: Event, id: nat)
    requires JobsSound(s) && ControlEvent(e) && id < |s.jobs|
    ensures var j := s.jobs[id];
            var next := Step(s, e);
            id < |next.jobs| &&
            next.jobs[id].generation == j.generation + (if next.jobs[id].state != j.state then 1 else 0) &&
            (InFlight(next.jobs[id].state) ==> Envelope(id, next.jobs[id].generation) in next.outbox)
  {
    ControlsOneRow(s, e, id);
    ControlledGeneration(s.jobs[id], ControlOf(s, e, id));
    StepKeepsJobsSound(s, e);
    assert RowSound(Step(s, e), id);
  }

  predicate EntersQueue(s: System, e: Event, id: nat) {
    ControlEvent(e) && id < |s.jobs| && id < |Step(s, e).jobs| && s.jobs[id].state != Queued &&
    Step(s, e).jobs[id].state == Queued
  }

  /** No two control-made queue entries of a job share a delivery generation. */
  lemma QueueEntriesDiffer(s: System, first: Event, between: seq<Event>, second: Event, id: nat)
    requires JobsSound(s) && EntersQueue(s, first, id)
    requires EntersQueue(Trace(Step(s, first), between), second, id)
    ensures Step(s, first).jobs[id].generation
            < Step(Trace(Step(s, first), between), second).jobs[id].generation
  {
    StepKeepsJobsSound(s, first);
    TraceKeepsJobsSound(Step(s, first), between);
    ControlRaisesGeneration(Trace(Step(s, first), between), second, id);
  }

  /** In every run each generation in flight has been enqueued, and no envelope
      is ahead of its job. */
  lemma GenerationsAreEnqueued(events: seq<Event>, id: nat)
    requires id < |Trace(EMPTY, events).jobs|
    ensures var s := Trace(EMPTY, events);
            (InFlight(s.jobs[id].state) ==> Envelope(id, s.jobs[id].generation) in s.outbox) &&
            forall e | e in s.flying && e.job == id :: e.generation <= s.jobs[id].generation
  {
    TraceKeepsJobsSound(EMPTY, events);
    assert RowSound(Trace(EMPTY, events), id);
  }

  // ---- paused on purpose -------------------------------------------------------------

  predicate PausedByHand(j: Job) {
    j.state == Paused && !j.pausedBySource
  }

  predicate SourceToggle(e: Event) {
    e.UpdateSource? && e.enabled
  }

  /** However often sources are paused and resumed, a job that an operator paused
      keeps its whole row. */
  lemma {:induction false} TogglesKeepPausedJob(s: System, events: seq<Event>, id: nat)
    requires id < |s.jobs| && PausedByHand(s.jobs[id]) && forall e | e in events :: SourceToggle(e)
    ensures id < |Trace(s, events).jobs| && Trace(s, events).jobs[id] == s.jobs[id]
  {
    if events != [] {
      var before := events[..|events| - 1];
      assert events[|events| - 1] in events && forall e | e in before :: e in events;
      TogglesKeepPausedJob(s, before, id);
      ToggleKeepsPausedRow(Trace(s, before), events[|events| - 1], id);
    }
  }

  lemma ToggleKeepsPausedRow(s: System, e: Event, id: nat)
    requires id < |s.jobs| && PausedByHand(s.jobs[id]) && SourceToggle(e)
    ensures id < |Step(s, e).jobs| && Step(s, e).jobs[id] == s.jobs[id]
  {
  }

  predicate Revives(e: Event, id: nat) {
    (e.ResumeJob? || e.RetryJob?) && e.id == id
  }

  predicate Stopped(j: Job) {
    j.token.None? && (PausedByHand(j) || Terminal(j.state))
  }

  lemma ControlledStaysStopped(j: Job, c: RowControl)
    requires Stopped(j) && !c.Resume? && !c.Retry? && (c.Stop? ==> Terminal(c.ended))
    ensures Stopped(Controlled(j, c))
  {
  }

  lemma ControlKeepsStopped(s: System, e: Event, id: nat)
    requires id < |s.jobs| && Stopped(s.jobs[id]) && ControlEvent(e) && !Revives(e, id)
    ensures id < |Control(s, e).jobs| && Stopped(Control(s, e).jobs[id])
  {
    ControlsOneRow(s, e, id);
    ControlledStaysStopped(s.jobs[id], ControlOf(s, e, id));
  }

  lemma WorkKeepsStopped(s: System, e: Event, id: nat)
    requires id < |s.jobs| && Stopped(s.jobs[id]) && !ControlEvent(e)
    ensures id < |Work(s, e).jobs| && Stopped(Work(s, e).jobs[id])
  {
  }

  /** Nothing but its own resume or retry puts a job back to work that an
      operator paused or that ended: no toggle, delivery, worker or redrive. */
  lemma {:induction false} StoppedUntilAsked(s: System, events: seq<Event>, id: nat)
    requires JobsSound(s) && id < |s.jobs| && (PausedByHand(s.jobs[id]) || Terminal(s.jobs[id].state))
    requires forall e | e in events :: !Revives(e, id)
    ensures id < |Trace(s, events).jobs| && Stopped(Trace(s, events).jobs[id])
  {
    if events == [] {
      assert RowSound(s, id);
    } else {
      var before := events[..|events| - 1];
      var e := events[|events| - 1];
      assert e in events && forall x | x in before :: x in events;
      StoppedUntilAsked(s, before, id);
      if ControlEvent(e) {
        ControlKeepsStopped(Trace(s, before), e, id);
      } else {
        WorkKeepsStopped(Trace(s, before), e, id);
      }
    }
  }

  // ---- a resume without an envelope ----------------------------------------------------

  /** A resume enqueues a new envelope exactly when the job had parked. */
  lemma ResumeEnqueuesIff(s: System, id: nat, now: int)
    requires JobsSound(s) && id < |s.jobs|
    ensures var next := Resumed(s, id, now);
            next.flying == (if s.jobs[id].state == Paused
                            then s.flying + {Envelope(id, s.jobs[id].generation + 1)} else s.flying) &&
            (s.jobs[id].state == Paused ==>
               next.jobs[id].state == Queued && Envelope(id, s.jobs[id].generation + 1) !in s.outbox)
  {
    assert RowSound(s, id);
  }

  /** A queued job whose pause request is withdrawn and whose envelope was
      consumed in the meantime. */
  predicate Stranded(s: System, id: nat) {
    id < |s.jobs| && s.jobs[id].state == Queued && !s.jobs[id].pauseRequested && !s.jobs[id].cancelRequested &&
    forall e | e in s.flying :: e.job != id
  }

  lemma OneMore(s: System, events: seq<Event>, e: Event)
    ensures Trace(s, events + [e]) == Step(Trace(s, events), e)
  {
    assert (events + [e])[..|events|] == events;
  }

  function Sample(state: JobState, pause: bool, token: Option<nat>): Job {
    Job("source", 0, state, pause, false, false, false, 1, if state == Leased then 0 else 1, 3, 0,
        if token.Some? then Some(7) else None, if token.Some? then Some(1 + LEASE) else None, token, false)
  }

  function Single(j: Job, flying: bool, issued: nat): System {
    System([j], {Envelope(0, 1)}, if flying then {Envelope(0, 1)} else {}, map[], issued)
  }

  lemma StartedSample() returns (events: seq<Event>)
    ensures Trace(EMPTY, events) == Single(Sample(Running, false, Some(0)), true, 1)
  {
    var add, deliver := AddJob("source", 0, 3, 0), Deliver(Envelope(0, 1), 1, Fits, 7);
    var start := Launch(Envelope(0, 1), 7, 0, 1);
    OneMore(EMPTY, [], add);
    var a := Step(EMPTY, add);
    assert a.jobs == [Job("source", 0, Queued, false, false, false, false, 1, 0, 3, 0, None, None, None, false)];
    assert a == Single(a.jobs[0], true, 0);
    OneMore(EMPTY, [] + [add], deliver);
    var b := Step(a, deliver);
    assert b == Single(Sample(Leased, false, Some(0)), true, 1);
    OneMore(EMPTY, [] + [add] + [deliver], start);
    events := [] + [add] + [deliver] + [start];
  }

  /** The operator pauses a running job, its worker dies, the expired lease puts
      it back in the queue, the redelivery is acknowledged because of the pause,
      and the resume finds its generation already in the outbox. */
  lemma ResumeCanStrand() returns (events: seq<Event>)
    ensures Stranded(Step(Trace(EMPTY, events), ResumeJob(0, 5)), 0)
    ensures var s := Trace(EMPTY, events);
            |s.jobs| == 1 && s.jobs[0].state == Queued && s.jobs[0].pauseRequested
  {
    var before := StartedSample();
    var expire, redeliver := OnRow(0, Expire(2 + LEASE)), Deliver(Envelope(0, 1), 3 + LEASE, Fits, 8);
    OneMore(EMPTY, before, PauseJob(0));
    var paused := Sample(Running, true, Some(0));
    assert Trace(EMPTY, before + [PauseJob(0)]) == Single(paused, true, 1);
    OneMore(EMPTY, before + [PauseJob(0)], expire);
    var queued := ExpireRow(paused, 2 + LEASE);
    assert Trace(EMPTY, before + [PauseJob(0)] + [expire]) == Single(queued, true, 1);
    OneMore(EMPTY, before + [PauseJob(0)] + [expire], redeliver);
    events := before + [PauseJob(0)] + [expire] + [redeliver];
    assert Trace(EMPTY, events) == Single(queued, false, 2);
  }

  // ---- fences -----------------------------------------------------------------------------

  /** A token that a job no longer carries never fits it again. */
  lemma {:induction false} FencedTokenIsDead(s: System, events: seq<Event>, id: nat, token: nat)
    requires JobsSound(s) && id < |s.jobs| && token < s.issued && s.jobs[id].token != Some(token)
    ensures id < |Trace(s, events).jobs| && Trace(s, events).jobs[id].token != Some(token)
  {
    if events != [] {
      var before := events[..|events| - 1];
      FencedTokenIsDead(s, before, id, token);
      TraceKeepsJobsSound(s, before);
      StepKeepsJobsSound(Trace(s, before), events[|events| - 1]);
      assert RowStep(Trace(s, before).jobs[id], Trace(s, events).jobs[id], Trace(s, before).issued);
    }
  }

  /** The statements that carry an execution token. */
  predicate Carries(action: RowAction, token: nat) {
    match action
    case Renew(_, t, _) => t == token
    case Release(_, t, _) => t == token
    case Park(t) => t == token
    case Finish(fence, _) => fence == Some(token)
    case Expire(_) => false
  }

  lemma DeadTokenDoesNothing(j: Job, action: RowAction, token: nat)
    requires Carries(action, token) && j.token != Some(token)
    ensures Acted(j, action) == j
  {
  }

  lemma DeadTokenWritesNothing(t: System, id: nat, token: nat, owner: nat, generation: nat, now: int, action: RowAction)
    requires Carries(action, token) && (id < |t.jobs| ==> t.jobs[id].token != Some(token))
    ensures Step(t, OnRow(id, action)) == t && Step(t, Require(id, owner, token)) == t
    ensures Step(t, Launch(Envelope(id, generation), owner, token, now)).jobs == t.jobs
  {
    if id < |t.jobs| {
      DeadTokenDoesNothing(t.jobs[id], action, token);
      assert t.jobs[id := t.jobs[id]] == t.jobs;
    }
  }

  lemma ControlTakesToken(s: System, e: Event, id: nat)
    requires JobsSound(s) && ControlEvent(e) && id < |s.jobs| && id < |Step(s, e).jobs|
    requires Step(s, e).jobs[id].state != s.jobs[id].state
    ensures Step(s, e).jobs[id].token.None?
  {
    assert RowSound(s, id);
    ControlsOneRow(s, e, id);
    ControlledToken(s.jobs[id], ControlOf(s, e, id), s.issued);
  }

  /** After a control took a job away, whatever its old worker sends changes
      nothing, in every continuation. */
  lemma FencedWorkerCannotWrite(
      s: System, e: Event, events: seq<Event>, id: nat, token: nat, owner: nat, generation: nat, now: int, action: RowAction)
    requires JobsSound(s) && ControlEvent(e) && id < |s.jobs| && s.jobs[id].token == Some(token) && Carries(action, token)
    requires id < |Step(s, e).jobs| && Step(s, e).jobs[id].state != s.jobs[id].state
    ensures var t := Trace(Step(s, e), events);
            Step(t, OnRow(id, action)) == t && Step(t, Require(id, owner, token)) == t &&
            Step(t, Launch(Envelope(id, generation), owner, token, now)).jobs == t.jobs
  {
    assert RowSound(s, id);
    StepKeepsJobsSound(s, e);
    ControlTakesToken(s, e, id);
    FencedTokenIsDead(Step(s, e), events, id, token);
    DeadTokenWritesNothing(Trace(Step(s, e), events), id, token, owner, generation, now, action);
  }
}
