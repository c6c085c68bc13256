/** How often a command may retry: each semantic operation fails at most twice in each durable phase. */
module Retries {
  import opened Outcomes
  import opened Model

  const EXTERNAL_ATTEMPTS: nat := 2

  datatype Retry = Retry(phase: Option<ReleasePhase>, operation: string)
  {
    /** A stored failure is being carried out. */
    predicate Settles() {
      phase.Some? && phase.value.Intended()
    }
  }

  /** A failure as the outside reported it, with the attempts that were stored then. */
  datatype Refusal = Refusal(attempts: map<Sha, ReleaseAttempt>, failure: Outcome<()>)

  function Failure<T>(r: Outcome<T>): Outcome<()> {
    if r.Done? then Done(()) else r.PropagateFailure()
  }

  /** The key under which a command for `x` counts a failure of `operation`. */
  function KeyAt(attempts: map<Sha, ReleaseAttempt>, x: Sha, operation: string): Retry {
    Retry(if x in attempts then Some(attempts[x].phase) else None, operation)
  }

  function KeyOf(x: Sha, e: Refusal): Option<Retry> {
    if e.failure.External? then Some(KeyAt(e.attempts, x, e.failure.operation)) else None
  }

  /** The key of the failure by which the log has grown, if it has. */
  function NewKey(x: Sha, before: seq<Refusal>, after: seq<Refusal>): Option<Retry> {
    if |before| < |after| then KeyOf(x, after[|before|]) else None
  }

  /** Every key a failure can have. */
  function Vocabulary(operations: set<string>): set<Retry> {
    set phase, operation | phase in PHASES && operation in operations :: Retry(phase, operation)
  }

  const PHASES: set<Option<ReleasePhase>> :=
    {None, Some(Prepared), Some(WritersStopped), Some(BackupVerified), Some(DataMutationStarted),
     Some(BackendActivationStarted), Some(AwaitingFrontendPromotion), Some(FrontendPromoted), Some(RollbackRequired),
     Some(ForwardFixPending), Some(RolledBack), Some(Succeeded), Some(ForwardFixRequired)}

  lemma EveryPhase(phase: Option<ReleasePhase>)
    ensures phase in PHASES
  {
    if phase.Some? {
      match phase.value
      case Prepared =>
      case WritersStopped =>
      case BackupVerified =>
      case DataMutationStarted =>
      case BackendActivationStarted =>
      case AwaitingFrontendPromotion =>
      case FrontendPromoted =>
      case RollbackRequired =>
      case ForwardFixPending =>
      case RolledBack =>
      case Succeeded =>
      case ForwardFixRequired =>
    }
  }

  /** No operation has failed more often than it may. */
  ghost predicate Bounded(failures: map<Retry, nat>, operations: set<string>) {
    && failures.Keys <= Vocabulary(operations)
    && forall key :: key in failures ==> 1 <= failures[key] <= EXTERNAL_ATTEMPTS
  }

  /** And each one may be tried again. */
  ghost predicate Retryable(failures: map<Retry, nat>, operations: set<string>) {
    failures.Keys <= Vocabulary(operations) && forall key :: key in failures ==> 1 <= failures[key] < EXTERNAL_ATTEMPTS
  }

  /** How many keys no failure has used yet. */
  function Left(failures: map<Retry, nat>, operations: set<string>): nat {
    |Vocabulary(operations) - failures.Keys|
  }

  function Tally(failures: map<Retry, nat>, key: Retry): nat {
    if key in failures then failures[key] else 0
  }

  function Counted(failures: map<Retry, nat>, key: Retry): map<Retry, nat> {
    failures[key := Tally(failures, key) + 1]
  }

  /** Counts one failure. A retry is granted exactly for the first failure under its key, and uses that key up. */
  method CountFailure(failures: map<Retry, nat>, operations: set<string>, key: Retry)
    returns (counted: map<Retry, nat>, again: bool)
    requires Retryable(failures, operations) && key.operation in operations
    ensures counted == Counted(failures, key) && (again <==> key !in failures)
    ensures if again then Retryable(counted, operations) else Bounded(counted, operations)
    ensures again ==> Left(counted, operations) < Left(failures, operations)
  {
    EveryPhase(key.phase);
    assert key in Vocabulary(operations);
    counted := Counted(failures, key);
    again := counted[key] < EXTERNAL_ATTEMPTS;
    if again {
      var before, after := Vocabulary(operations) - failures.Keys, Vocabulary(operations) - counted.Keys;
      assert before == after + {key};
    }
  }

  // ----- What really failed -----

  /** How often an external failure was met under `key` while a command for `x` ran. */
  function Occurrences(x: Sha, log: seq<Refusal>, key: Retry): nat {
    if log == [] then 0
    else Occurrences(x, log[..|log| - 1], key) + if KeyOf(x, log[|log| - 1]) == Some(key) then 1 else 0
  }

  lemma OccurrencesMore(x: Sha, log: seq<Refusal>, e: Refusal, key: Retry)
    ensures Occurrences(x, log + [e], key) == Occurrences(x, log, key) + if KeyOf(x, e) == Some(key) then 1 else 0
  {
    assert (log + [e])[..|log|] == log;
  }

  /** The counters say how often each operation has failed in each phase. */
  ghost predicate Tallied(x: Sha, log: seq<Refusal>, failures: map<Retry, nat>) {
    forall key :: Occurrences(x, log, key) == Tally(failures, key)
  }

  /** At most one refusal, and an external one only while a stored failure is carried out. */
  predicate Settlement(x: Sha, log: seq<Refusal>) {
    log == [] ||
    (|log| == 1 && (log[0].failure.External? ==> x in log[0].attempts && log[0].attempts[x].phase.Intended()))
  }

  /** No operation has failed more than twice in a phase; or, if the call began with a stored failure to carry out, a
      third time in the phase of that failure. */
  ghost predicate RarelyRefused(x: Sha, log: seq<Refusal>, pending: bool) {
    forall key ::
      Occurrences(x, log, key) <= if pending && key.Settles() then EXTERNAL_ATTEMPTS + 1 else EXTERNAL_ATTEMPTS
  }

  /** No failure was met while a stored failure was carried out. */
  ghost predicate Unsettling(failures: map<Retry, nat>) {
    forall key :: key in failures ==> !key.Settles()
  }

  lemma TalliedIsRare(x: Sha, log: seq<Refusal>, failures: map<Retry, nat>, operations: set<string>, pending: bool)
    requires Tallied(x, log, failures) && Bounded(failures, operations)
    ensures RarelyRefused(x, log, pending)
  {
    forall key ensures Occurrences(x, log, key) <= EXTERNAL_ATTEMPTS {
      assert Occurrences(x, log, key) == Tally(failures, key);
    }
  }

  /** One try that failed, or did not, on top of a tallied log. */
  lemma TalliedTry(x: Sha, log: seq<Refusal>, tried: seq<Refusal>, failures: map<Retry, nat>, key: Option<Retry>)
    requires Tallied(x, log, failures)
    requires tried == [] || |tried| == 1
    requires key == if tried == [] then None else KeyOf(x, tried[0])
    ensures Tallied(x, log + tried, if key.Some? then Counted(failures, key.value) else failures)
  {
    if tried == [] {
      assert log + tried == log;
    } else {
      assert log + tried == log + [tried[0]];
      forall k ensures Occurrences(x, log + tried, k) ==
                       Tally(if key.Some? then Counted(failures, key.value) else failures, k) {
        OccurrencesMore(x, log, tried[0], k);
      }
    }
  }

  /** The settlement adds at most one failure, and that in a phase of settlement. */
  lemma SettledIsRare(x: Sha, log: seq<Refusal>, settled: seq<Refusal>, failures: map<Retry, nat>,
                      operations: set<string>, pending: bool)
    requires Tallied(x, log, failures) && Bounded(failures, operations) && Settlement(x, settled)
    requires pending || Unsettling(failures)
    ensures RarelyRefused(x, log + settled, pending)
  {
    if settled == [] {
      assert log + settled == log;
      TalliedIsRare(x, log, failures, operations, pending);
    } else {
      assert log + settled == log + [settled[0]];
      forall key ensures Occurrences(x, log + settled, key) <=
                         if pending && key.Settles() then EXTERNAL_ATTEMPTS + 1 else EXTERNAL_ATTEMPTS
      {
        OccurrencesMore(x, log, settled[0], key);
        assert Occurrences(x, log, key) == Tally(failures, key);
      }
    }
  }

  lemma Suffixes<T>(start: seq<T>, middle: seq<T>, end: seq<T>)
    requires start <= middle <= end
    ensures end[|start|..] == middle[|start|..] + end[|middle|..]
  {
  }

  /** The same for the tail of a longer log. */
  lemma TryTallied(x: Sha, start: seq<Refusal>, before: seq<Refusal>, after: seq<Refusal>, failures: map<Retry, nat>)
    requires start <= before && Tallied(x, before[|start|..], failures)
    requires after == before || (|after| == |before| + 1 && before <= after)
    ensures var key := NewKey(x, before, after);
            Tallied(x, after[|start|..], if key.Some? then Counted(failures, key.value) else failures)
  {
    Suffixes(start, before, after);
    TalliedTry(x, before[|start|..], after[|before|..], failures, NewKey(x, before, after));
  }

  lemma SettlementIsRare(x: Sha, start: seq<Refusal>, before: seq<Refusal>, after: seq<Refusal>,
                         failures: map<Retry, nat>, operations: set<string>, pending: bool)
    requires start <= before <= after && Tallied(x, before[|start|..], failures) && Bounded(failures, operations)
    requires Settlement(x, after[|before|..]) && (pending || Unsettling(failures))
    ensures RarelyRefused(x, after[|start|..], pending)
  {
    Suffixes(start, before, after);
    SettledIsRare(x, before[|start|..], after[|before|..], failures, operations, pending);
  }

  lemma NothingTallied(x: Sha, pending: bool)
    ensures Tallied(x, [], map[]) && RarelyRefused(x, [], pending)
  {
  }

  // ----- The third failure -----

  /** What was so when a command was called: what had been refused, the stored attempts, what is about to fail outside,
      whether there is a stored failure to carry out, and whether that fails alike three times. */
  datatype Call = Call(refused: seq<Refusal>, attempts: map<Sha, ReleaseAttempt>, outage: seq<string>, pending: bool,
                       doomed: bool)
  {
    function Blow(): Refusal
      requires outage != []
    {
      Refusal(attempts, External(outage[0]))
    }
  }

  /** Where a doomed call stands: it has not failed yet, or once. */
  ghost predicate Halfway(x: Sha, call: Call, failures: map<Retry, nat>, log: seq<Refusal>, outage: seq<string>) {
    |call.outage| >= 3 && call.outage[1] == call.outage[0] && call.outage[2] == call.outage[0] &&
    if failures == map[] then log == call.refused && outage == call.outage
    else
      && failures == map[KeyAt(call.attempts, x, call.outage[0]) := 1] && outage == call.outage[1..]
      && log == call.refused + [call.Blow()]
  }

  /** A doomed try has failed once and is to be repeated, or twice if its first failure was not the first of its
      kind. */
  ghost predicate Blown(x: Sha, before: Call, failures: map<Retry, nat>, counted: map<Retry, nat>, again: bool,
                        now: Call)
  {
    before.outage != [] &&
    var key := KeyAt(before.attempts, x, before.outage[0]);
    if again then
      && key !in failures && counted == Counted(failures, key) && now.refused == before.refused + [before.Blow()]
      && now.outage == before.outage[1..] && now.attempts == before.attempts
    else key in failures && now.refused == before.refused + [before.Blow(), before.Blow()]
  }

  lemma BlownBy(x: Sha, before: Call, met: Call, failures: map<Retry, nat>, counted: map<Retry, nat>, again: bool,
                now: Call)
    requires before.outage != [] && met.refused == before.refused + [before.Blow()] && met.attempts == before.attempts
    requires met.outage == before.outage[1..] && met.outage != [] && met.outage[0] == before.outage[0]
    requires var key := KeyAt(met.attempts, x, before.outage[0]);
             (again <==> key !in failures) && counted == Counted(failures, key)
    requires if again then now.refused == met.refused && now.outage == met.outage && now.attempts == met.attempts
             else now.refused == met.refused + [met.Blow()]
    ensures Blown(x, before, failures, counted, again, now)
  {
  }

  lemma HalfwayNext(x: Sha, call: Call, failures: map<Retry, nat>, log: seq<Refusal>, outage: seq<string>)
    requires Halfway(x, call, failures, log, outage)
    ensures |outage| >= 2 && outage[0] == call.outage[0] && outage[1] == outage[0]
    ensures var key, e := KeyAt(call.attempts, x, outage[0]), call.Blow();
            && (key !in failures ==> Halfway(x, call, Counted(failures, key), log + [e], outage[1..]))
            && (key in failures ==> (log + [e, e])[|call.refused|..] == [e, e, e])
  {
  }

  /** The same failure twice in the loop and once in the settlement. */
  lemma ThreeTimes(x: Sha, e: Refusal)
    requires KeyOf(x, e).Some?
    ensures Occurrences(x, [e, e, e], KeyOf(x, e).value) == 3
  {
    var key := KeyOf(x, e).value;
    OccurrencesMore(x, [], e, key);
    OccurrencesMore(x, [e], e, key);
    OccurrencesMore(x, [e, e], e, key);
    assert [] + [e] == [e] && [e] + [e] == [e, e] && [e, e] + [e] == [e, e, e];
  }
}
