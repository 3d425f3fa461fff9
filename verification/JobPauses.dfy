/** Pauses that are only requested: what becomes of a job that was running. */
module JobPauses {
  import opened Tables
  import opened JobControl
  import opened JobProofs
  import opened JobTheorems
  import opened JobEnvelopes

  // ---- whose pause it is ------------------------------------------------------------

  predicate SourcePause(e: Event, name: string) {
    e.UpdateSource? && e.source == name && e.enabled && e.paused
  }

  /** Who paused last: the operator, or the source. */
  function LastBySource(events: seq<Event>, id: nat, name: string, bySource: bool): bool {
    if events == [] then bySource
    else
      var e := events[|events| - 1];
      if SourcePause(e, name) then true
      else if e == PauseJob(id) then false
      else LastBySource(events[..|events| - 1], id, name, bySource)
  }

  predicate HeldRunning(s: System, id: nat, token: nat) {
    id < |s.jobs| && s.jobs[id].state == Running && s.jobs[id].token == Some(token) && token < s.issued
  }

  lemma ControlKeepsRunning(s: System, e: Event, id: nat)
    requires id < |s.jobs| && s.jobs[id].state == Running && ControlEvent(e) && !Revives(e, id)
    ensures id < |Control(s, e).jobs| && Control(s, e).jobs[id].state == Running
    ensures var name := s.jobs[id].source;
            Control(s, e).jobs[id].source == name &&
            Control(s, e).jobs[id].pausedBySource ==
              (if SourcePause(e, name) then true else if e == PauseJob(id) then false else s.jobs[id].pausedBySource)
  {
    ControlsOneRow(s, e, id);
  }

  lemma ActedKeepsRunning(j: Job, a: RowAction, token: nat)
    requires j.state == Running && j.token == Some(token) && Acted(j, a).token == Some(token)
    ensures Acted(j, a).state == Running && Acted(j, a).source == j.source
    ensures Acted(j, a).pausedBySource == j.pausedBySource
  {
    match a
    case Renew(_, _, _) =>
    case Release(_, _, _) =>
    case Expire(_) =>
    case Park(_) =>
    case Finish(_, _) =>
  }

  lemma ReservedKeepsRunning(j: Job, generation: nat, source: Settings, now: int, fit: Fit, owner: nat, issuing: nat)
    requires j.state == Running && j.token.Some? && j.token != Some(issuing)
    ensures var k := Reserved(j, generation, source.enabled, source.paused, now, fit, owner, issuing).0;
            k.token == j.token ==> k.state == Running && k.source == j.source && k.pausedBySource == j.pausedBySource
  {
  }

  lemma WorkedKeepsRunning(j: Job, w: RowWork, token: nat)
    requires j.state == Running && j.token == Some(token) && Worked(j, w).token == Some(token)
    requires w.Received? ==> w.issuing != token
    ensures Worked(j, w).state == Running && Worked(j, w).source == j.source
    ensures Worked(j, w).pausedBySource == j.pausedBySource
  {
    match w
    case Untouched =>
    case Received(generation, source, now, fit, worker, issuing) =>
      ReservedKeepsRunning(j, generation, source, now, fit, worker, issuing);
    case Begun(_, _, _, _) =>
    case Done(action) => ActedKeepsRunning(j, action, token);
    case Fallback(_, _) =>
    case Redone =>
  }

  lemma {:induction false} RunningUntilParked(s: System, events: seq<Event>, id: nat, token: nat)
    requires JobsSound(s) && HeldRunning(s, id, token) && forall e | e in events :: !Revives(e, id)
    requires id < |Trace(s, events).jobs| && Trace(s, events).jobs[id].token == Some(token)
    ensures var j := Trace(s, events).jobs[id];
            j.state == Running && j.source == s.jobs[id].source && token < Trace(s, events).issued &&
            j.pausedBySource == LastBySource(events, id, s.jobs[id].source, s.jobs[id].pausedBySource)
  {
    if events != [] {
      var before := events[..|events| - 1];
      var e := events[|events| - 1];
      assert e in events && forall x | x in before :: x in events;
      TraceKeepsJobsSound(s, before);
      var t := Trace(s, before);
      TokenWasHeld(t, e, id, token);
      RunningUntilParked(s, before, id, token);
      if ControlEvent(e) {
        ControlKeepsRunning(t, e, id);
      } else {
        WorksOneRow(t, e, id);
        WorkedKeepsRunning(t.jobs[id], WorkOf(t, e, id), token);
      }
    }
  }

  lemma TokenWasHeld(s: System, e: Event, id: nat, token: nat)
    requires JobsSound(s) && id < |s.jobs| && token < s.issued
    requires id < |Step(s, e).jobs| && Step(s, e).jobs[id].token == Some(token)
    ensures s.jobs[id].token == Some(token) && token < Step(s, e).issued
  {
    StepKeepsJobsSound(s, e);
    assert RowStep(s.jobs[id], Step(s, e).jobs[id], s.issued);
  }

  /** Whatever runs between the request and the park: a running job's pause ends
      as the operator's exactly when the operator paused last, and only then is
      it safe from the source's resume. */
  lemma PauseSurvivesToggleIff(s: System, events: seq<Event>, id: nat, token: nat, now: int)
    requires JobsSound(s) && HeldRunning(s, id, token) && forall e | e in events :: !Revives(e, id)
    requires id < |Trace(s, events).jobs| && Trace(s, events).jobs[id].token == Some(token)
    ensures var name := s.jobs[id].source;
            var parked := Step(Trace(s, events), OnRow(id, Park(token)));
            var bySource := LastBySource(events, id, name, s.jobs[id].pausedBySource);
            var resumed := Step(parked, UpdateSource(name, true, false, now));
            parked.jobs[id].state == Paused && (PausedByHand(parked.jobs[id]) <==> !bySource) &&
            (resumed.jobs[id].state == Queued <==> bySource && SourceOf(parked, name).paused) &&
            (!bySource ==> resumed.jobs[id] == parked.jobs[id])
  {
    RunningUntilParked(s, events, id, token);
    var parked := Step(Trace(s, events), OnRow(id, Park(token)));
    assert parked.jobs[id] == ParkRow(Trace(s, events).jobs[id], token);
    ControlsOneRow(parked, UpdateSource(s.jobs[id].source, true, false, now), id);
  }

  // ---- what a source's resume revives --------------------------------------------------

  predicate UnderPause(s: System, name: string, id: nat) {
    id < |s.jobs| && s.jobs[id].source == name && SourceOf(s, name).paused &&
    RowUnderPause(s.jobs[id]) && (InFlight(s.jobs[id].state) ==> s.jobs[id].pausedBySource)
  }

  predicate Halted(j: Job) {
    j.token.None? && (j.state == Paused || Terminal(j.state))
  }

  lemma PauseStarts(s: System, name: string, now: int, id: nat)
    requires JobsSound(s) && id < |s.jobs| && InFlight(s.jobs[id].state) && s.jobs[id].source == name
    ensures var t := Step(s, UpdateSource(name, true, true, now));
            UnderPause(t, name, id) && (s.jobs[id].state != Running ==> Halted(t.jobs[id])) &&
            (s.jobs[id].state == Running ==> t.jobs[id].state == Running)
  {
    assert RowSound(s, id);
    ControlsOneRow(s, UpdateSource(name, true, true, now), id);
  }

  predicate RowUnderPause(j: Job) {
    (InFlight(j.state) ==> j.pauseRequested) && (j.state == Paused ==> j.pausedBySource && j.token.None?)
  }

  /** A job whose pause was requested is not put to work, wherever it stands. */
  predicate KeptPaused(j: Job, k: Job) {
    RowUnderPause(k) && (InFlight(k.state) ==> k.pausedBySource) && k.source == j.source && (Halted(j) ==> Halted(k))
  }

  lemma ActedKeepsPause(j: Job, a: RowAction, issued: nat)
    requires TokenSound(j, issued) && (InFlight(j.state) ==> j.pausedBySource) && RowUnderPause(j)
    ensures KeptPaused(j, Acted(j, a))
  {
  }

  lemma ReservedKeepsPause(j: Job, generation: nat, source: Settings, now: int, fit: Fit, worker: nat, issuing: nat)
    requires (InFlight(j.state) ==> j.pausedBySource) && RowUnderPause(j) && source.paused
    ensures KeptPaused(j, Reserved(j, generation, source.enabled, source.paused, now, fit, worker, issuing).0)
  {
  }

  lemma WorkedKeepsPause(j: Job, w: RowWork, issued: nat)
    requires TokenSound(j, issued) && (InFlight(j.state) ==> j.pausedBySource) && RowUnderPause(j)
    requires w.Received? ==> w.source.paused
    requires w.Redone? ==> !j.pauseRequested
    ensures KeptPaused(j, Worked(j, w))
  {
    match w
    case Received(generation, source, now, fit, worker, issuing) =>
      ReservedKeepsPause(j, generation, source, now, fit, worker, issuing);
    case Done(action) => ActedKeepsPause(j, action, issued);
    case _ =>
  }

  lemma WorkKeepsPause(s: System, e: Event, name: string, id: nat)
    requires JobsSound(s) && UnderPause(s, name, id) && !ControlEvent(e)
    ensures UnderPause(Work(s, e), name, id) && (Halted(s.jobs[id]) ==> Halted(Work(s, e).jobs[id]))
  {
    assert RowSound(s, id);
    WorksOneRow(s, e, id);
    WorkedKeepsPause(s.jobs[id], WorkOf(s, e, id), s.issued);
  }

  predicate ParkedAt(s: System, events: seq<Event>, id: nat, i: nat)
    requires i < |events|
  {
    events[i].OnRow? && events[i].id == id && events[i].action.Park? &&
    var t := Trace(s, events[..i]);
    id < |t.jobs| && t.jobs[id].token == Some(events[i].action.token)
  }

  predicate Parked(s: System, events: seq<Event>, id: nat) {
    exists i | 0 <= i < |events| :: ParkedAt(s, events, id, i)
  }

  lemma ParkedEarlier(s: System, events: seq<Event>, id: nat)
    requires events != []
    ensures Parked(s, events[..|events| - 1], id) ==> Parked(s, events, id)
    ensures ParkedAt(s, events, id, |events| - 1) ==> Parked(s, events, id)
  {
    var before := events[..|events| - 1];
    if Parked(s, before, id) {
      var i :| 0 <= i < |before| && ParkedAt(s, before, id, i);
      assert before[..i] == events[..i];
      assert ParkedAt(s, events, id, i);
    }
  }

  lemma WorkedPausesByParking(j: Job, w: RowWork)
    requires j.state != Paused && Worked(j, w).state == Paused
    ensures w.Done? && w.action.Park? && j.token == Some(w.action.token)
  {
    match w
    case Untouched =>
    case Received(_, _, _, _, _, _) =>
    case Begun(_, _, _, _) =>
    case Done(action) => ActedPausesByParking(j, action);
    case Fallback(_, _) =>
    case Redone =>
  }

  lemma ActedPausesByParking(j: Job, a: RowAction)
    requires j.state != Paused && Acted(j, a).state == Paused
    ensures a.Park? && j.token == Some(a.token)
  {
    match a
    case Renew(_, _, _) =>
    case Release(_, _, _) =>
    case Expire(_) =>
    case Park(_) =>
    case Finish(_, _) =>
  }

  /** Work alone pauses a job only where its worker parks it. */
  lemma WorkPausesByParking(s: System, e: Event, id: nat)
    requires id < |s.jobs| && !ControlEvent(e) && s.jobs[id].state != Paused
    requires id < |Work(s, e).jobs| && Work(s, e).jobs[id].state == Paused
    ensures e.OnRow? && e.id == id && e.action.Park? && s.jobs[id].token == Some(e.action.token)
  {
    WorksOneRow(s, e, id);
    WorkedPausesByParking(s.jobs[id], WorkOf(s, e, id));
  }

  lemma {:induction false} PauseLasts(s: System, events: seq<Event>, name: string, id: nat)
    requires JobsSound(s) && UnderPause(s, name, id) && forall e | e in events :: !ControlEvent(e)
    ensures JobsSound(Trace(s, events)) && UnderPause(Trace(s, events), name, id)
    ensures Halted(s.jobs[id]) ==> Halted(Trace(s, events).jobs[id])
    ensures s.jobs[id].state == Running && Trace(s, events).jobs[id].state == Paused ==> Parked(s, events, id)
  {
    if events != [] {
      var before := events[..|events| - 1];
      var e := events[|events| - 1];
      assert e in events && forall x | x in before :: x in events;
      PauseLasts(s, before, name, id);
      TraceKeepsJobsSound(s, events);
      WorkKeepsPause(Trace(s, before), e, name, id);
      ParkedEarlier(s, events, id);
      if Trace(s, before).jobs[id].state != Paused && Trace(s, events).jobs[id].state == Paused {
        WorkPausesByParking(Trace(s, before), e, id);
        assert ParkedAt(s, events, id, |events| - 1);
      }
    }
  }

  predicate Revived(s: System, id: nat) {
    id < |s.jobs| && s.jobs[id].state == Queued && !s.jobs[id].pauseRequested && Current(s, id) in s.flying
  }

  /** Of the jobs in flight when their source is paused, its resume revives exactly
      those that are paused by then: the queued and leased ones, and a running one
      whose worker parked it, whatever workers and deliveries do in between. One
      still in flight, parked too late or its lease expired, keeps its whole row,
      the pause request included. */
  lemma ToggleRevivesIff(s: System, name: string, events: seq<Event>, id: nat, paused: int, now: int)
    requires JobsSound(s) && id < |s.jobs| && InFlight(s.jobs[id].state) && s.jobs[id].source == name
    requires forall e | e in events :: !ControlEvent(e)
    ensures var start := Step(s, UpdateSource(name, true, true, paused));
            var t := Trace(start, events);
            var resumed := Step(t, UpdateSource(name, true, false, now));
            id < |t.jobs| && id < |resumed.jobs| &&
            (Revived(resumed, id) <==> t.jobs[id].state == Paused) &&
            (t.jobs[id].state == Paused && s.jobs[id].state == Running ==> Parked(start, events, id)) &&
            (s.jobs[id].state != Running ==> t.jobs[id].state == Paused || Terminal(t.jobs[id].state)) &&
            (InFlight(t.jobs[id].state) ==> resumed.jobs[id] == t.jobs[id] && resumed.jobs[id].pauseRequested)
  {
    var start := Step(s, UpdateSource(name, true, true, paused));
    StepKeepsJobsSound(s, UpdateSource(name, true, true, paused));
    PauseStarts(s, name, paused, id);
    PauseLasts(start, events, name, id);
    ResumeRevives(Trace(start, events), name, id, now);
  }

  lemma ResumeRevives(t: System, name: string, id: nat, now: int)
    requires JobsSound(t) && UnderPause(t, name, id)
    ensures var resumed := Step(t, UpdateSource(name, true, false, now));
            id < |resumed.jobs| && (Revived(resumed, id) <==> t.jobs[id].state == Paused) &&
            (InFlight(t.jobs[id].state) ==> resumed.jobs[id] == t.jobs[id] && resumed.jobs[id].pauseRequested)
  {
    ControlsOneRow(t, UpdateSource(name, true, false, now), id);
    if t.jobs[id].state == Paused {
      assert Woken(t, name, id);
      assert Envelope(id, t.jobs[id].generation + 1) in Wakeups(t, name);
    }
  }
}
