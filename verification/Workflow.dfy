/** The fail-fast scheduler of the test control: one result per requirement, one lock for memory-heavy work. */
module Workflow {
  import opened Outcomes

  datatype Capability =
    | Policy | PolicySelfTests | StaticPython | StaticWeb | StaticWorkflows | StaticPlatform | KernelPython | KernelWeb
    | Sensitivity | Service | Component | Migrations | Bundle | JourneysCritical | JourneysAll | Corpus
    | ProviderRuntime | LlmEval | Extension | AndroidHost | Audit | Hosted | AndroidDevice | ProviderCertification
    | AndroidRelease | ReleaseArtifact | Doctor | AndroidVisual

  const HEAVY: set<Capability> :=
    {Service, Component, Migrations, Bundle, JourneysCritical, JourneysAll, ProviderRuntime, LlmEval, Extension,
     AndroidHost, Audit, Hosted, AndroidDevice, ProviderCertification, AndroidRelease, ReleaseArtifact}

  const MEMORY_ADMITTED: set<Capability> := HEAVY + {PolicySelfTests, StaticWeb, KernelWeb}

  const LOCAL_RUNTIME: set<Capability> :=
    {Service, Component, Migrations, Bundle, JourneysCritical, JourneysAll, LlmEval, Extension, Audit}

  datatype RunStatus = PASS | FAIL | NOT_RUN

  /** Who a reported failure is laid to. */
  datatype Owner = Of(capability: Capability) | Memory

  datatype Evidence = Evidence(id: Capability, status: RunStatus, blockedBy: Option<Capability>)

  // ----- Aggregation -----

  function AggregateStatus(statuses: seq<RunStatus>): RunStatus {
    if statuses == [] || NOT_RUN in statuses then
      if FAIL !in statuses then NOT_RUN else FAIL
    else if FAIL in statuses then FAIL
    else PASS
  }

  /** The first `k` pass, the next one does not, and nothing runs after it; with `k` the length, all pass. */
  ghost predicate FailFast(statuses: seq<RunStatus>, k: nat) {
    && k <= |statuses|
    && (forall i :: 0 <= i < k ==> statuses[i] == PASS)
    && (k < |statuses| ==> statuses[k] != PASS)
    && (forall i :: k < i < |statuses| ==> statuses[i] == NOT_RUN)
  }

  function Statuses(results: seq<Evidence>): (s: seq<RunStatus>)
    ensures |s| == |results| && forall i :: 0 <= i < |s| ==> s[i] == results[i].status
  {
    seq(|results|, i requires 0 <= i < |results| => results[i].status)
  }

  /** The aggregate of a fail-fast run is its first status that is not a pass. */
  lemma AggregateIsFirstFailure(statuses: seq<RunStatus>, k: nat)
    requires statuses != [] && FailFast(statuses, k)
    ensures AggregateStatus(statuses) == if k < |statuses| then statuses[k] else PASS
  {
    if FAIL in statuses {
      var i :| 0 <= i < |statuses| && statuses[i] == FAIL;
      assert i == k;
    }
    if k < |statuses| {
      assert statuses[k] in statuses;
    }
  }

  // ----- Memory admission -----

  const MIN_AVAILABLE_MIB: nat := 2048
  const ADMISSION_TIMEOUT_MS: nat := 30_000
  const ADMISSION_POLL_MS: nat := 250

  /** `_await_heavy_memory_admission` after its first reading; `now` is the monotonic clock, which a wait moves on by at
      least its own length. True if the work may start. */
  method AwaitAdmission(capability: Capability, first: Option<nat>, start: int)
    returns (admitted: bool, last: Option<nat>, waited: int)
    ensures admitted <==> capability !in MEMORY_ADMITTED || (last.Some? && last.value >= MIN_AVAILABLE_MIB)
    ensures !admitted && last.Some? ==> waited >= ADMISSION_TIMEOUT_MS
    ensures first.None? || first.value >= MIN_AVAILABLE_MIB ==> last == first && waited == 0
  {
    last, waited := first, 0;
    if capability !in MEMORY_ADMITTED || last.None? || last.value >= MIN_AVAILABLE_MIB {
      return capability !in MEMORY_ADMITTED || last.Some?, last, waited;
    }
    var now, deadline := start, start + ADMISSION_TIMEOUT_MS;
    while last.Some? && last.value < MIN_AVAILABLE_MIB
      invariant waited == now - start
      decreases last.Some?, deadline - now
    {
      var remaining := deadline - now;
      if remaining <= 0 {
        return false, last, waited;
      }
      var pause := if remaining < ADMISSION_POLL_MS then remaining else ADMISSION_POLL_MS;
      var late: nat :| 0 <= late;
      now := now + pause + late;
      waited := now - start;
      last := *;
    }
    admitted := last.Some?;
  }

  // ----- The scheduler -----

  class WorkflowExecution {
    const requirements: seq<Capability>
    const selection: set<Capability>
    const webPromoted: bool
    var held: bool               // this process holds the workspace lock
    var prepared: bool           // a local runtime has been prepared and not been cleaned up
    var reported: Option<Owner>
    ghost var ran: seq<Capability>

    ghost predicate Clean()
      reads this
    {
      !held && !prepared
    }

    constructor (requirements: seq<Capability>, selection: set<Capability>, webPromoted: bool)
      ensures Clean() && reported.None? && ran == []
      ensures this.requirements == requirements && this.selection == selection && this.webPromoted == webPromoted
    {
      this.requirements := requirements;
      this.selection := selection;
      this.webPromoted := webPromoted;
      held, prepared, reported, ran := false, false, None, [];
    }

    predicate Selected(c: Capability) {
      c in selection
    }

    predicate RequiresMemoryAdmission(c: Capability) {
      c in MEMORY_ADMITTED && if c == StaticWeb then webPromoted else Selected(c)
    }

    /** The lock is not reentrant: taking it twice would wait for ever. */
    method Acquire()
      requires !held
      modifies this`held
      ensures held
    {
      held := true;
    }

    method Release()
      requires held
      modifies this`held
      ensures !held
    {
      held := false;
    }

    /** The capability itself. Memory-admitted work needs the lock, and a selected local one may prepare a runtime. */
    method Execute(c: Capability) returns (r: Outcome<RunStatus>)
      requires c in MEMORY_ADMITTED ==> held
      modifies this`prepared, this`ran
      ensures ran == old(ran) + [c]
      ensures prepared ==> old(prepared) || (c in LOCAL_RUNTIME && Selected(c))
    {
      ran := ran + [c];
      if c in LOCAL_RUNTIME && Selected(c) {
        var runtime: bool := *;
        prepared := prepared || runtime;
      }
      r := *;
    }

    /** `_WorkflowExecution.close`: what was prepared under the lock is cleaned up under the lock. */
    method Close()
      requires prepared ==> held
      modifies this`prepared
      ensures !prepared
    {
      prepared := false;
    }

    method RunCapability(c: Capability, lockHeld: bool) returns (r: Outcome<RunStatus>)
      requires lockHeld == held && (prepared ==> held)
      requires c in LOCAL_RUNTIME && Selected(c) ==> held
      modifies this`held, this`prepared, this`ran
      ensures held == old(held) && ran == old(ran) + [c] && (prepared ==> held)
    {
      if c in MEMORY_ADMITTED && !lockHeld {
        Acquire();
        r := Execute(c);
        Release();
      } else {
        r := Execute(c);
      }
    }

    /** With the lock held: waits for memory, then runs; or does not run at all. */
    method AdmittedRun(c: Capability) returns (r: Outcome<RunStatus>)
      requires held
      modifies this`held, this`prepared, this`ran
      ensures held
      ensures ran == old(ran) + [c] || (ran == old(ran) && r == Done(NOT_RUN))
      ensures prepared ==> old(prepared) || (c in LOCAL_RUNTIME && Selected(c))
    {
      var first: Option<nat>, start: int := *, *;
      var admitted, _, _ := AwaitAdmission(c, first, start);
      if admitted {
        r := Execute(c);
      } else {
        r := Done(NOT_RUN);
      }
    }

    method RunRequirement(c: Capability) returns (r: Outcome<RunStatus>)
      requires prepared ==> held
      requires c in HEAVY && Selected(c) ==> held
      modifies this`held, this`prepared, this`ran
      ensures held == old(held) && (prepared ==> held)
      ensures ran == old(ran) + [c] || (ran == old(ran) && r == Done(NOT_RUN))
    {
      if !RequiresMemoryAdmission(c) {
        r := RunCapability(c, held);
      } else if held {
        r := AdmittedRun(c);
      } else {
        Acquire();
        r := AdmittedRun(c);
        Release();
      }
    }

    /** Only the first report is written. */
    method Report(owner: Owner)
      modifies this`reported
      ensures reported == if old(reported).None? then Some(owner) else old(reported)
    {
      if reported.None? {
        reported := Some(owner);
      }
    }

    /** The results so far: passes, then at most one other, then requirements that were blocked by it. */
    ghost predicate Streamed(results: seq<Evidence>, k: nat)
      reads this
    {
      && |results| <= |requirements| && FailFast(Statuses(results), k)
      && (forall i :: 0 <= i < |results| ==> results[i].id == requirements[i])
      && (forall i :: 0 <= i < |results| ==> results[i].blockedBy == if i <= k then None else Some(requirements[k]))
      && (ran == requirements[..k] || (k < |results| && ran == requirements[..k + 1]))
      && (k < |results| && results[k].status != NOT_RUN ==> ran == requirements[..k + 1])
      && reported == if k < |results| then Some(Of(requirements[k])) else None
    }

    lemma StreamedMore(results: seq<Evidence>, e: Evidence, k: nat)
      requires |results| < |requirements| && e.id == requirements[|results|]
      requires |Statuses(results)| == |results| && FailFast(Statuses(results), k)
      requires k < |results| ==> e.status == NOT_RUN
      ensures FailFast(Statuses(results + [e]), if k == |results| && e.status == PASS then k + 1 else k)
    {
      var more := Statuses(results + [e]);
      assert forall i :: 0 <= i < |results| ==> more[i] == Statuses(results)[i];
    }

    /** One requirement that nothing blocks; the workflow keeps the lock from its first heavy requirement on. */
    method RunNext(c: Capability) returns (r: Outcome<RunStatus>)
      requires prepared ==> held
      modifies this`held, this`prepared, this`ran
      ensures (old(held) ==> held) && (prepared ==> held)
      ensures ran == old(ran) + [c] || (ran == old(ran) && r == Done(NOT_RUN))
    {
      if c in HEAVY && Selected(c) && !held {
        Acquire();
      }
      r := RunRequirement(c);
    }

    /** The stream of results; an exception in a capability ends it. */
    method Stream() returns (r: Outcome<seq<Evidence>>, ghost k: nat)
      requires Clean() && reported.None? && ran == []
      modifies this
      ensures prepared ==> held
      ensures r.Done? ==> |r.value| == |requirements| && Streamed(r.value, k)
    {
      var results: seq<Evidence> := [];
      var blockedBy: Option<Capability> := None;
      k := 0;
      for n := 0 to |requirements|
        invariant |results| == n && Streamed(results, k) && (prepared ==> held)
        invariant blockedBy == if k < n then Some(requirements[k]) else None
      {
        var c := requirements[n];
        if blockedBy.Some? {
          StreamedMore(results, Evidence(c, NOT_RUN, blockedBy), k);
          results := results + [Evidence(c, NOT_RUN, blockedBy)];
        } else {
          assert requirements[..n + 1] == requirements[..n] + [c];
          var outcome := RunNext(c);
          if !outcome.Done? {
            return outcome.PropagateFailure(), k;
          }
          StreamedMore(results, Evidence(c, outcome.value, None), k);
          results := results + [Evidence(c, outcome.value, None)];
          if outcome.value == PASS {
            k := k + 1;
          } else {
            Report(Of(c));
            blockedBy := Some(c);
          }
        }
      }
      r := Done(results);
    }

    /** `run_workflow`: the stream, the cleanup, and a last failure if memory was not fully measured. */
    method RunWorkflow(measured: bool) returns (r: Outcome<seq<Evidence>>)
      requires Clean() && reported.None? && ran == []
      modifies this
      ensures Clean()
      ensures r.Done? ==> |r.value| == |requirements|
      ensures r.Done? ==> forall i :: 0 <= i < |requirements| ==> r.value[i].id == requirements[i]
      ensures r.Done? && requirements != [] ==>
                exists k :: Judged(Statuses(r.value), k, measured) && FirstFailureAt(k, measured)
    {
      if !(forall c :: c in selection ==> c in requirements) {
        return Defect;
      }
      var streamed, k := Stream();
      Close();
      if held {
        Release();
      }
      var results :- streamed;
      var allPass := forall i :: 0 <= i < |results| ==> results[i].status == PASS;
      if !measured && allPass {
        if results == [] {
          return Defect;
        }
        var last := results[|results| - 1];
        assert k == |results|;
        results := results[..|results| - 1] + [last.(status := FAIL)];
        Report(Memory);
        assert Judged(Statuses(results), |results| - 1, measured) && FirstFailureAt(|results| - 1, measured);
      } else {
        assert results != [] ==> Judged(Statuses(results), k, measured) && FirstFailureAt(k, measured);
      }
      r := Done(results);
    }

    /** Nothing behind the first failure has run, everything has if there is none, and exactly the first failure was
        reported: by its capability, or as a missing measurement after everything else had passed. */
    ghost predicate FirstFailureAt(k: nat, measured: bool)
      reads this
    {
      && |ran| <= |requirements| && ran == requirements[..|ran|]
      && (if k < |requirements| then k <= |ran| <= k + 1 else ran == requirements)
      && (reported == None <==> k == |requirements|)
      && (reported.Some? && k < |requirements| ==>
            reported == Some(Of(requirements[k])) || (reported == Some(Memory) && !measured && ran == requirements))
    }

    /** The verdict: it is the first status that is not a pass, and a pass needs every pass and the measurement. */
    ghost predicate Judged(statuses: seq<RunStatus>, k: nat, measured: bool) {
      && statuses != [] && FailFast(statuses, k)
      && AggregateStatus(statuses) == (if k < |statuses| then statuses[k] else PASS)
      && (AggregateStatus(statuses) == PASS ==> measured)
    }
  }
}
