/** The control statements as updates of the job table in place. */
module JobTable {
  import opened Tables
  import Spec = JobControl

  class Table {
    var jobs: seq<Spec.Job>
    var outbox: set<Spec.Envelope>
    var flying: set<Spec.Envelope>
    var sources: map<string, Spec.Settings>
    var issued: nat

    function State(): Spec.System
      reads this
    {
      Spec.System(jobs, outbox, flying, sources, issued)
    }

    constructor ()
      ensures State() == Spec.System([], {}, {}, map[], 0)
    {
      jobs, outbox, flying, sources, issued := [], {}, {}, map[], 0;
    }

    method Enqueue(id: nat)
      modifies this`outbox, this`flying
      ensures State() == Spec.Enqueue(old(State()), id)
    {
      if id < |jobs| && !Spec.Terminal(jobs[id].state) {
        var envelope := Spec.Envelope(id, jobs[id].generation);
        if envelope !in outbox {
          outbox, flying := outbox + {envelope}, flying + {envelope};
        }
      }
    }

    method PauseOne(id: nat, bySource: bool)
      requires id < |jobs|
      modifies this`jobs
      ensures jobs == old(jobs)[id := Spec.PauseRow(old(jobs)[id], bySource)]
    {
      var j := jobs[id];
      if j.state == Spec.Running {
        j := j.(pauseRequested := true, pausedBySource := bySource);
      } else if j.state == Spec.Queued || j.state == Spec.Leased {
        if j.state == Spec.Leased {
          j := j.(owner := None, expires := None, token := None);
        }
        j := j.(pauseRequested := false, pausedBySource := bySource, state := Spec.Paused, generation := j.generation + 1);
      }
      jobs := jobs[id := j];
    }

    method StopOne(id: nat, ended: Spec.JobState)
      requires id < |jobs|
      modifies this`jobs
      ensures jobs == old(jobs)[id := Spec.StopRow(old(jobs)[id], ended)]
    {
      var j := jobs[id];
      if j.state == Spec.Running {
        j := j.(cancelRequested := true);
      } else if j.state == Spec.Queued || j.state == Spec.Leased || j.state == Spec.Paused {
        j := j.(cancelRequested := true, state := ended, finished := true, owner := None, expires := None,
                token := None, generation := j.generation + 1);
      }
      jobs := jobs[id := j];
    }

    method ResumeJob(id: nat, now: int) returns (accepted: bool)
      modifies this`jobs, this`outbox, this`flying
      ensures State() == Spec.Step(old(State()), Spec.ResumeJob(id, now))
      ensures accepted <==> id < |old(jobs)| && (old(jobs)[id].state == Spec.Paused || old(jobs)[id].pauseRequested)
    {
      accepted := id < |jobs| && (jobs[id].state == Spec.Paused || jobs[id].pauseRequested);
      if !accepted {
        return;
      }
      var j := jobs[id];
      var parked := j.state == Spec.Paused;
      j := j.(pauseRequested := false, resumeFree := parked, scheduled := now, pausedBySource := false);
      if parked {
        j := j.(state := Spec.Queued, owner := None, token := None, generation := j.generation + 1);
      }
      jobs := jobs[id := j];
      if j.state == Spec.Queued {
        Enqueue(id);
      }
    }

    method RetryJob(id: nat, now: int) returns (accepted: bool)
      modifies this`jobs, this`outbox, this`flying
      ensures State() == Spec.Step(old(State()), Spec.RetryJob(id, now))
      ensures accepted <==> id < |old(jobs)| && Spec.Terminal(old(jobs)[id].state)
    {
      accepted := id < |jobs| && Spec.Terminal(jobs[id].state);
      if accepted {
        var j := jobs[id];
        jobs := jobs[id := j.(state := Spec.Queued, cancelRequested := false, pauseRequested := false, attempt := 0,
                              owner := None, expires := None, token := None, generation := j.generation + 1,
                              finished := false, scheduled := now)];
        Enqueue(id);
      }
    }

    method CancelRun(run: nat)
      modifies this`jobs
      ensures State() == Spec.Step(old(State()), Spec.CancelRun(run))
    {
      ghost var was := jobs;
      var i := 0;
      while i < |jobs|
        invariant i <= |jobs| == |was| && jobs[i..] == was[i..]
        invariant forall k | 0 <= k < i :: jobs[k] == Spec.CancelRunRow(run)(was[k])
      {
        assert jobs[i] == was[i];
        if jobs[i].run == run {
          StopOne(i, Spec.Cancelled);
        }
        i := i + 1;
      }
      assert jobs == Spec.MapJobs(was, Spec.CancelRunRow(run));
    }

    method StopSource(name: string)
      modifies this`jobs
      ensures jobs == Spec.MapJobs(old(jobs), Spec.StopSourceRow(name))
    {
      ghost var was := jobs;
      var i := 0;
      while i < |jobs|
        invariant i <= |jobs| == |was| && jobs[i..] == was[i..]
        invariant forall k | 0 <= k < i :: jobs[k] == Spec.StopSourceRow(name)(was[k])
      {
        assert jobs[i] == was[i];
        if jobs[i].source == name {
          StopOne(i, Spec.Skipped);
        }
        i := i + 1;
      }
      assert jobs == Spec.MapJobs(was, Spec.StopSourceRow(name));
    }

    method PauseSource(name: string)
      modifies this`jobs
      ensures jobs == Spec.MapJobs(old(jobs), Spec.PauseSourceRow(name))
    {
      ghost var was := jobs;
      var i := 0;
      while i < |jobs|
        invariant i <= |jobs| == |was| && jobs[i..] == was[i..]
        invariant forall k | 0 <= k < i :: jobs[k] == Spec.PauseSourceRow(name)(was[k])
      {
        assert jobs[i] == was[i];
        if jobs[i].source == name {
          PauseOne(i, true);
        }
        i := i + 1;
      }
      assert jobs == Spec.MapJobs(was, Spec.PauseSourceRow(name));
    }

    /** Requeues what the source paused; the caller enqueues what comes back. */
    method WakeSource(name: string, now: int) returns (due: set<Spec.Envelope>)
      modifies this`jobs
      ensures jobs == Spec.MapJobs(old(jobs), Spec.WakeSourceRow(name, now))
      ensures due == Spec.Wakeups(old(State()), name)
    {
      ghost var was := State();
      var i := 0;
      due := {};
      while i < |jobs|
        invariant i <= |jobs| == |was.jobs| && jobs[i..] == was.jobs[i..]
        invariant forall k | 0 <= k < i :: jobs[k] == Spec.WakeSourceRow(name, now)(was.jobs[k])
        invariant due == set k | 0 <= k < i && Spec.Woken(was, name, k) :: Spec.Envelope(k, was.jobs[k].generation + 1)
      {
        var j := jobs[i];
        assert j == was.jobs[i];
        if j.source == name && j.state == Spec.Paused && j.pausedBySource {
          jobs := jobs[i := j.(state := Spec.Queued, pauseRequested := false, pausedBySource := false,
                               resumeFree := true, scheduled := now, owner := None, expires := None, token := None,
                               generation := j.generation + 1)];
          due := due + {Spec.Envelope(i, j.generation + 1)};
        }
        i := i + 1;
      }
      assert jobs == Spec.MapJobs(was.jobs, Spec.WakeSourceRow(name, now));
    }

    method UpdateSource(name: string, enabled: bool, paused: bool, now: int)
      modifies this`jobs, this`outbox, this`flying, this`sources
      ensures State() == Spec.Step(old(State()), Spec.UpdateSource(name, enabled, paused, now))
    {
      var wasPaused := name in sources && sources[name].paused;
      sources := sources[name := Spec.Settings(enabled, paused)];
      if !enabled {
        StopSource(name);
      } else if paused {
        PauseSource(name);
      } else if wasPaused {
        var due := WakeSource(name, now);
        outbox, flying := outbox + due, flying + (due - outbox);
      }
    }
  }
}
