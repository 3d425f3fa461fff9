/** What an operator's command and a source's settings do to a job's row and to
    its envelopes, read off the columns. */
module JobCommands {
  import opened Tables
  import opened JobControl
  import opened JobProofs
  import opened JobTheorems

  predicate SourceSet(s: System, e: Event, id: nat)
    requires id < |s.jobs|
  {
    e.UpdateSource? && e.source == s.jobs[id].source
  }

  predicate Pauses(s: System, e: Event, id: nat)
    requires id < |s.jobs|
  {
    (e.PauseJob? && e.id == id) || (SourceSet(s, e, id) && e.enabled && e.paused)
  }

  predicate Stops(s: System, e: Event, id: nat)
    requires id < |s.jobs|
  {
    (e.CancelJob? && e.id == id) || (e.CancelRun? && e.run == s.jobs[id].run) || (SourceSet(s, e, id) && !e.enabled)
  }

  /** A parked job goes back to the queue when it is resumed, or when the pause of
      its source, which parked it, is lifted. */
  predicate Requeues(s: System, e: Event, id: nat)
    requires id < |s.jobs|
  {
    s.jobs[id].state == Paused &&
    ((e.ResumeJob? && e.id == id) ||
     (SourceSet(s, e, id) && e.enabled && !e.paused && e.source in s.sources && s.sources[e.source].paused &&
      s.jobs[id].pausedBySource))
  }

  /** A resume that comes before the worker has parked the job. */
  predicate Recalls(s: System, e: Event, id: nat)
    requires id < |s.jobs|
  {
    e.ResumeJob? && e.id == id && s.jobs[id].state != Paused && s.jobs[id].pauseRequested
  }

  predicate Revives(s: System, e: Event, id: nat)
    requires id < |s.jobs|
  {
    e.RetryJob? && e.id == id && s.jobs[id].state in {Succeeded, Degraded, Failed, Cancelled, Skipped}
  }

  function Freed(j: Job): Job {
    j.(owner := None, expires := None, token := None)
  }

  /** What a command leaves of a row. */
  predicate Commanded(s: System, e: Event, id: nat, k: Job)
    requires id < |s.jobs|
  {
    var j := s.jobs[id];
    if Pauses(s, e, id) && j.state in {Queued, Leased} then
      k == (if j.state == Leased then Freed(j) else j).(state := Paused, pauseRequested := false,
                                                        pausedBySource := e.UpdateSource?, generation := j.generation + 1)
    else if Pauses(s, e, id) && j.state == Running then k == j.(pauseRequested := true, pausedBySource := e.UpdateSource?)
    else if Stops(s, e, id) && j.state in {Queued, Leased, Paused} then
      k == Freed(j).(state := if e.UpdateSource? then Skipped else Cancelled, cancelRequested := true, finished := true,
                     generation := j.generation + 1)
    else if Stops(s, e, id) && j.state == Running then k == j.(cancelRequested := true)
    else if Requeues(s, e, id) then
      k == Freed(j).(state := Queued, pauseRequested := false, pausedBySource := false, resumeFree := true,
                     scheduled := e.now, expires := k.expires, generation := j.generation + 1)
    else if Recalls(s, e, id) then
      k == j.(pauseRequested := false, pausedBySource := false, resumeFree := false, scheduled := e.now)
    else if Revives(s, e, id) then
      k == Freed(j).(state := Queued, cancelRequested := false, pauseRequested := false, attempt := 0, finished := false,
                     scheduled := e.now, generation := j.generation + 1)
    else k == j
  }

  lemma NotAddressed(s: System, e: Event, id: nat)
    requires id < |s.jobs| && ControlEvent(e) && ControlOf(s, e, id).Leave?
    ensures Commanded(s, e, id, Controlled(s.jobs[id], ControlOf(s, e, id)))
  {
  }

  lemma PauseReaches(s: System, e: Event, id: nat)
    requires id < |s.jobs| && ControlEvent(e) && ControlOf(s, e, id).Pause?
    ensures Commanded(s, e, id, Controlled(s.jobs[id], ControlOf(s, e, id)))
  {
  }

  lemma StopReaches(s: System, e: Event, id: nat)
    requires id < |s.jobs| && ControlEvent(e) && ControlOf(s, e, id).Stop?
    ensures Commanded(s, e, id, Controlled(s.jobs[id], ControlOf(s, e, id)))
  {
  }

  lemma ResumeReaches(s: System, e: Event, id: nat)
    requires id < |s.jobs| && ControlEvent(e) && ControlOf(s, e, id).Resume?
    ensures Commanded(s, e, id, Controlled(s.jobs[id], ControlOf(s, e, id)))
  {
  }

  lemma WakeReaches(s: System, e: Event, id: nat)
    requires id < |s.jobs| && ControlEvent(e) && ControlOf(s, e, id).Wake?
    ensures Commanded(s, e, id, Controlled(s.jobs[id], ControlOf(s, e, id)))
  {
  }

  lemma RetryReaches(s: System, e: Event, id: nat)
    requires id < |s.jobs| && ControlEvent(e) && ControlOf(s, e, id).Retry?
    ensures Commanded(s, e, id, Controlled(s.jobs[id], ControlOf(s, e, id)))
  {
  }

  /** Every command does to every row exactly what it says, and to no other row. */
  lemma CommandReaches(s: System, e: Event, id: nat)
    requires ControlEvent(e) && id < |s.jobs|
    ensures |Step(s, e).jobs| == |s.jobs| && Commanded(s, e, id, Step(s, e).jobs[id])
  {
    ControlsOneRow(s, e, id);
    CommandAddsNone(s, e);
    match ControlOf(s, e, id)
    case Leave => NotAddressed(s, e, id);
    case Pause(_) => PauseReaches(s, e, id);
    case Stop(_) => StopReaches(s, e, id);
    case Resume(_) => ResumeReaches(s, e, id);
    case Wake(_) => WakeReaches(s, e, id);
    case Retry(_) => RetryReaches(s, e, id);
  }

  lemma CommandAddsNone(s: System, e: Event)
    requires ControlEvent(e)
    ensures |Step(s, e).jobs| == |s.jobs| && Step(s, e).issued == s.issued
  {
  }

  // ---- envelopes ------------------------------------------------------------------

  predicate Returns(s: System, e: Event, id: nat) {
    id < |s.jobs| && (Requeues(s, e, id) || Revives(s, e, id))
  }

  lemma NextIsNew(s: System, id: nat)
    requires JobsSound(s) && id < |s.jobs|
    ensures Envelope(id, s.jobs[id].generation + 1) !in s.outbox
  {
  }

  /** A command sends an envelope of the new generation for every job that it puts
      back into the queue, and none else; a setting is stored as it was given. */
  lemma CommandSends(s: System, e: Event, x: Envelope)
    requires ControlEvent(e) && JobsSound(s)
    ensures x in Step(s, e).flying <==>
            x in s.flying || (Returns(s, e, x.job) && x.generation == s.jobs[x.job].generation + 1)
    ensures Step(s, e).sources ==
            if e.UpdateSource? then s.sources[e.source := Settings(e.enabled, e.paused)] else s.sources
  {
    if x.job < |s.jobs| {
      NextIsNew(s, x.job);
    }
    match e
    case ResumeJob(id, _) => ResumeSends(s, e);
    case RetryJob(id, _) => RetrySends(s, e);
    case UpdateSource(_, _, _, _) => SourceSends(s, e, x);
    case _ =>
  }

  lemma ResumeSends(s: System, e: Event)
    requires e.ResumeJob? && JobsSound(s)
    ensures Step(s, e).sources == s.sources
    ensures Step(s, e).flying ==
            if Returns(s, e, e.id) then s.flying + {Envelope(e.id, s.jobs[e.id].generation + 1)} else s.flying
  {
    if e.id < |s.jobs| {
      assert RowSound(s, e.id);
      NextIsNew(s, e.id);
    }
  }

  lemma RetrySends(s: System, e: Event)
    requires e.RetryJob? && JobsSound(s)
    ensures Step(s, e).sources == s.sources
    ensures Step(s, e).flying ==
            if Returns(s, e, e.id) then s.flying + {Envelope(e.id, s.jobs[e.id].generation + 1)} else s.flying
  {
    if e.id < |s.jobs| {
      NextIsNew(s, e.id);
    }
  }

  lemma SourceSends(s: System, e: Event, x: Envelope)
    requires e.UpdateSource? && JobsSound(s)
    ensures x in Step(s, e).flying <==>
            x in s.flying || (Returns(s, e, x.job) && x.generation == s.jobs[x.job].generation + 1)
    ensures Step(s, e).sources == s.sources[e.source := Settings(e.enabled, e.paused)]
  {
    if x.job < |s.jobs| {
      NextIsNew(s, x.job);
    }
  }

  // ---- a delivery that does not run -----------------------------------------------------

  predicate Halted(j: Job, source: Settings) {
    !source.enabled || j.cancelRequested
  }

  predicate OnHold(j: Job, source: Settings) {
    source.paused || j.pauseRequested || j.state == Paused
  }

  predicate TooEarly(j: Job, now: int) {
    j.scheduled > now || (j.state in {Leased, Running} && j.expires.Some? && j.expires.value > now)
  }

  /** Stale deliveries are dropped; a disabled or cancelled job ends; a paused one
      loses its envelope; an early one is delivered again. */
  lemma UnrunDelivery(s: System, x: Envelope, now: int, fit: Fit, worker: nat)
    requires x in s.flying && x.job < |s.jobs|
    ensures var t := Step(s, Deliver(x, now, fit, worker));
            var j := s.jobs[x.job];
            var source := SourceOf(s, j.source);
            var kept := s.flying - {x};
            |t.jobs| == |s.jobs| &&
            if j.generation != x.generation || j.state in {Succeeded, Degraded, Failed, Cancelled, Skipped}
            then t.jobs[x.job] == j && t.flying == kept
            else if Halted(j, source)
            then t.flying == kept &&
                 t.jobs[x.job] == Freed(j).(state := if source.enabled then Cancelled else Skipped, finished := true)
            else if OnHold(j, source) then t.jobs[x.job] == j && t.flying == kept
            else TooEarly(j, now) ==> t.jobs[x.job] == j && t.flying == s.flying
  {
  }

  predicate DueFor(s: System, x: Envelope, now: int) {
    x in s.flying && x.job < |s.jobs| &&
    var j := s.jobs[x.job];
    j.generation == x.generation && j.state in {Queued, Leased, Running} &&
    !Halted(j, SourceOf(s, j.source)) && !OnHold(j, SourceOf(s, j.source)) && !TooEarly(j, now) &&
    (j.attempt < j.maxAttempts || j.resumeFree)
  }

  /** A due job that the worker cannot run itself is left for another one, dropped,
      or sent on under a new generation. */
  lemma UnfitDelivery(s: System, x: Envelope, now: int, fit: Fit, worker: nat)
    requires JobsSound(s) && DueFor(s, x, now) && fit != Fits
    ensures var t := Step(s, Deliver(x, now, fit, worker));
            var j := s.jobs[x.job];
            |t.jobs| == |s.jobs| &&
            if fit == Reroute
            then t.jobs[x.job] == j.(generation := j.generation + 1) &&
                 t.flying == s.flying - {x} + {Envelope(x.job, j.generation + 1)}
            else t.jobs[x.job] == j && t.flying == if fit == Unfit then s.flying else s.flying - {x}
  {
    NextIsNew(s, x.job);
  }
}
