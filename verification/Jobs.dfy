/** Durable jobs: what became of a container that a dead process left behind is settled before its name is reused. */
module Jobs {
  import opened Protocol

  predicate Runs(w: World, job: Job) {
    job in w.jobs && w.jobs[job].Running?
  }

  predicate Succeeded(w: World, job: Job) {
    job in w.jobs && w.jobs[job] == Exited(0)
  }

  /** The last event is not about a result of this job. */
  predicate Unharvested(h: History, job: Job) {
    h.log != [] ==> h.log[|h.log| - 1] != Harvested(job)
  }

  lemma UnharvestedStep(s: Sys, action: Action, job: Job)
    requires Enabled(s, action) && Runs(Perform(s, action).w, job)
    requires Runs(s.w, job) ==> Unharvested(s.h, job)
    ensures Unharvested(Perform(s, action).h, job)
  {
  }

  lemma {:induction false} RunningIsUnharvested(s0: Sys, acts: seq<Action>, job: Job)
    requires Run(s0, acts) && Runs(After(s0, acts).w, job)
    ensures Unharvested(After(s0, acts).h, job)
  {
    if acts == [] {
    } else {
      var shorter := acts[..|acts| - 1];
      if Runs(After(s0, shorter).w, job) {
        RunningIsUnharvested(s0, shorter, job);
      }
      UnharvestedStep(After(s0, shorter), acts[|acts| - 1], job);
    }
  }

  /** A successful container is still there, or its result was taken after the log had reached length `n`. */
  ghost predicate Kept(s: Sys, n: nat, job: Job) {
    && n <= |s.h.log|
    && (Harvested(job) in s.h.log[n..]
        || (Succeeded(s.w, job) && (|s.h.log| == n ==> Unharvested(s.h, job))))
  }

  lemma LogGrows(s: Sys, action: Action)
    requires Enabled(s, action)
    ensures var log := Perform(s, action).h.log; s.h.log <= log && |log| <= |s.h.log| + 1
  {
  }

  lemma LastInSlice(log: seq<Event>, n: nat, e: Event)
    ensures n < |log| && log[|log| - 1] == e ==> e in log[n..]
  {
    if n < |log| {
      assert log[n..][|log| - 1 - n] == log[|log| - 1];
    }
  }

  lemma KeptStep(s: Sys, action: Action, n: nat, job: Job)
    requires Enabled(s, action) && Kept(s, n, job)
    ensures Kept(Perform(s, action), n, job)
  {
    LogGrows(s, action);
    var t := Perform(s, action);
    if Harvested(job) in s.h.log[n..] {
      var i :| 0 <= i < |s.h.log[n..]| && s.h.log[n..][i] == Harvested(job);
      assert t.h.log[n..][i] == Harvested(job);
    } else if !Succeeded(t.w, job) {
      LastInSlice(s.h.log, n, Harvested(job));
      RemovedAfterHarvest(s, action, job);
      assert false;
    }
  }

  /** The only way for a successful container to go. */
  lemma RemovedAfterHarvest(s: Sys, action: Action, job: Job)
    requires Enabled(s, action) && Succeeded(s.w, job) && !Succeeded(Perform(s, action).w, job)
    ensures s.h.log != [] && s.h.log[|s.h.log| - 1] == Harvested(job)
  {
    assert action == Outside(RemoveJob(job));
    assert s.h.EndsWith([Harvested(job)]);
    assert s.h.log[|s.h.log| - 1 + 0] == [Harvested(job)][0];
  }

  lemma {:induction false} KeptFrom(s0: Sys, acts: seq<Action>, i: nat, n: nat, job: Job)
    requires Run(s0, acts) && i <= |acts| && Kept(After(s0, acts[..i]), n, job)
    ensures Kept(After(s0, acts), n, job)
  {
    if i == |acts| {
      assert acts[..i] == acts;
    } else {
      var shorter := acts[..|acts| - 1];
      assert shorter[..i] == acts[..i];
      KeptFrom(s0, shorter, i, n, job);
      KeptStep(After(s0, shorter), acts[|acts| - 1], n, job);
    }
  }

  lemma KeptAtExit(s0: Sys, acts: seq<Action>, i: nat, job: Job)
    requires Run(s0, acts) && i < |acts| && acts[i] == Outside(ExitJob(job, 0))
    ensures Kept(After(s0, acts[..i + 1]), |After(s0, acts[..i]).h.log|, job)
  {
    Prefix(s0, acts, i);
    RunningIsUnharvested(s0, acts[..i], job);
  }

  lemma KeptUntil(s0: Sys, acts: seq<Action>, i: nat, job: Job)
    requires Run(s0, acts) && i < |acts| && acts[i] == Outside(ExitJob(job, 0))
    ensures Kept(After(s0, acts), |After(s0, acts[..i]).h.log|, job)
    ensures After(s0, acts[..i]).h.log <= After(s0, acts).h.log
  {
    KeptAtExit(s0, acts, i, job);
    KeptFrom(s0, acts, i + 1, |After(s0, acts[..i]).h.log|, job);
    LogPrefix(s0, acts, i);
  }

  lemma StartNeedsName(s0: Sys, acts: seq<Action>, j: nat, job: Job)
    requires Run(s0, acts) && j < |acts| && acts[j] == Outside(StartJob(job))
    ensures Run(s0, acts[..j]) && job !in After(s0, acts[..j]).w.jobs
  {
    Prefix(s0, acts, j);
    assert EffectEnabled(After(s0, acts[..j]), StartJob(job));
  }

  /** A container that has exited with success is never run again before its result was taken, whoever finds it. */
  lemma HarvestedBeforeRerun(s0: Sys, acts: seq<Action>, i: nat, j: nat, job: Job)
    requires Run(s0, acts) && i < j < |acts|
    requires acts[i] == Outside(ExitJob(job, 0)) && acts[j] == Outside(StartJob(job))
    ensures var before, after := After(s0, acts[..i]).h.log, After(s0, acts[..j]).h.log;
            before <= after && Harvested(job) in after[|before|..]
  {
    StartNeedsName(s0, acts, j, job);
    assert acts[..j][..i] == acts[..i] && acts[..j][i] == acts[i];
    KeptUntil(s0, acts[..j], i, job);
  }

  lemma {:induction false} LogPrefix(s0: Sys, acts: seq<Action>, i: nat)
    requires Run(s0, acts) && i <= |acts|
    ensures After(s0, acts[..i]).h.log <= After(s0, acts).h.log
  {
    if i == |acts| {
      assert acts[..i] == acts;
    } else {
      var shorter := acts[..|acts| - 1];
      assert shorter[..i] == acts[..i];
      LogPrefix(s0, shorter, i);
      LogGrows(After(s0, shorter), acts[|acts| - 1]);
    }
  }
}
