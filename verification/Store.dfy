/** The durable store: one file per attempt, record, Oracle attempt and Oracle repair, and two pointers.
    `State` is its content as a value; `ReleaseStore` is the object whose methods rewrite the files. */
module Store {
  import opened Outcomes
  import opened Model

  datatype State = State(
    attempts: map<Sha, ReleaseAttempt>,
    records: map<Sha, ReleaseRecord>,
    current: Option<Sha>,
    forwardFix: Option<Sha>,
    oracle: map<OracleKey, OracleAttempt>,
    repairs: map<OracleKey, OracleRepairBinding>)
  {
    // ----- Scans -----

    predicate Active(x: Sha) {
      x in attempts && !attempts[x].Terminal()
    }

    predicate OracleActive(k: OracleKey) {
      k in oracle && !oracle[k].phase.Terminal()
    }

    ghost predicate Idle() {
      forall x :: x in attempts ==> attempts[x].Terminal()
    }

    ghost predicate OracleIdle() {
      forall k :: k in oracle ==> oracle[k].phase.Terminal()
    }

    /** The one nonterminal release attempt; two of them are a defect. */
    ghost function ActiveAttempt(): Outcome<Option<ReleaseAttempt>> {
      if Idle() then Done(None)
      else if exists x, y :: Active(x) && Active(y) && x != y then Defect
      else var x :| x in attempts && Active(x); Done(Some(attempts[x]))
    }

    ghost function ActiveOracleAttempt(): Outcome<Option<OracleAttempt>> {
      if OracleIdle() then Done(None)
      else if exists k, l :: OracleActive(k) && OracleActive(l) && k != l then Defect
      else var k :| k in oracle && OracleActive(k); Done(Some(oracle[k]))
    }

    // ----- Reads -----

    function LoadAttempt(x: Sha): Option<ReleaseAttempt> {
      if x in attempts then Some(attempts[x]) else None
    }

    function CurrentSha(): Outcome<Option<Sha>> {
      if current.Some? && current.value !in records then Defect else Done(current)
    }

    function RequireCurrentRecord(): Outcome<ReleaseRecord> {
      if current.None? then Blocked
      else if current.value !in records then Defect
      else Done(records[current.value])
    }

    predicate MayBeForwardFixed(x: Sha) {
      x in attempts && var p := attempts[x].phase; p.Committed() || p.ForwardFixPending? || p.ForwardFixRequired?
    }

    function ForwardFixSha(): Outcome<Option<Sha>> {
      if forwardFix.Some? && !MayBeForwardFixed(forwardFix.value) then Defect else Done(forwardFix)
    }

    ghost function AssertNoOracleAttempt(): Outcome<()> {
      var active :- ActiveOracleAttempt();
      if active.Some? then Blocked else Done(())
    }

    /** `x` is the one release under way, or the complete current publication, or a release the store has never seen. */
    ghost predicate Admissible(x: Sha) {
      || (exists y :: Active(y) && attempts[y].sourceSha == x && forall z :: Active(z) ==> z == y)
      || (Idle() && x in attempts && attempts[x].phase.Succeeded? && current == Some(x) && x in records)
      || (Idle() && x !in attempts && x !in records && forwardFix != Some(x)
          && (forwardFix.Some? ==> MayBeForwardFixed(forwardFix.value)))
    }

    ghost function AssertCandidateAdmissible(x: Sha): Outcome<()> {
      var active :- ActiveAttempt();
      if active.Some? then
        if active.value.sourceSha == x then Done(()) else Blocked
      else if x in attempts then
        var published :- if attempts[x].phase.Succeeded? then CurrentSha() else Done(None);
        if published == Some(x) then Done(()) else Blocked
      else if x in records then Blocked
      else
        var failed :- ForwardFixSha();
        if failed == Some(x) then Blocked else Done(())
    }

    /** The attempt a reconcile of `key` has to resume, if any. */
    ghost function RequireOracleTarget(key: OracleKey): Outcome<Option<OracleAttempt>> {
      var active :- ActiveOracleAttempt();
      if active.Some? && active.value.Key() != key then Blocked else Done(active)
    }

    // ----- Writes -----

    function CreateAttempt(a: ReleaseAttempt): Outcome<State> {
      if a.sourceSha in attempts then Defect else Done(this.(attempts := attempts[a.sourceSha := a]))
    }

    function ReplaceAttempt(a: ReleaseAttempt): Outcome<State> {
      if a.sourceSha !in attempts then Defect
      else
        var stored := attempts[a.sourceSha];
        if stored == a then Done(this)
        else if !stored.StepsTo(a) then Defect
        else Done(this.(attempts := attempts[a.sourceSha := a]))
    }

    function CreateRecord(r: ReleaseRecord): Outcome<State> {
      if r.sourceSha in records then
        if records[r.sourceSha] != r then Defect else Done(this)
      else Done(this.(records := records[r.sourceSha := r]))
    }

    function SetCurrent(x: Sha): Outcome<State> {
      if x !in records then Defect
      else
        var previous :- CurrentSha();
        if previous.None? then Blocked
        else if previous.value != x && records[x].predecessorSha != previous then Defect
        else Done(this.(current := Some(x)))
    }

    function CompletePublishedAttempt(x: Sha, now: string): Outcome<State> {
      if x !in attempts then Defect
      else
        var published :- CurrentSha();
        if published != Some(x) || x !in records then Defect
        else if attempts[x].phase.Succeeded? then Done(this)
        else if !attempts[x].phase.FrontendPromoted? then Defect
        else
          var succeeded :- attempts[x].Advance(Succeeded, now, None);
          ReplaceAttempt(succeeded)
    }

    function SetForwardFix(x: Sha): Outcome<State> {
      if !MayBeForwardFixed(x) then Defect
      else
        var named :- ForwardFixSha();
        if named.Some? && named.value != x then Defect else Done(this.(forwardFix := Some(x)))
    }

    function ClearForwardFixAfterSuccess(x: Sha): Outcome<State> {
      if x !in attempts || !attempts[x].phase.Succeeded? then Defect
      else
        var failed :- ForwardFixSha();
        if failed.None? || attempts[x].forwardFixOf != failed then Done(this)
        else if failed.value == x then Defect
        else Done(this.(forwardFix := None))
    }

    function CreateOracleAttempt(o: OracleAttempt): Outcome<State> {
      if o.Key() in oracle then Defect else Done(this.(oracle := oracle[o.Key() := o]))
    }

    function ReplaceOracleAttempt(o: OracleAttempt): Outcome<State> {
      if o.Key() !in oracle then Defect
      else
        var stored := oracle[o.Key()];
        if stored == o then Done(this)
        else if !stored.StepsTo(o) then Defect
        else Done(this.(oracle := oracle[o.Key() := o]))
    }

    function CreateOracleRepair(b: OracleRepairBinding): Outcome<State> {
      if b.Key() in repairs then Defect else Done(this.(repairs := repairs[b.Key() := b]))
    }
  }

  /** A write either returns normally and leaves the state the specification gives, or fails and leaves the state
      alone. */
  ghost predicate Performed(before: State, spec: Outcome<State>, after: State, r: Outcome<()>) {
    if spec.Done? then r == Done(()) && after == spec.value
    else r == spec.PropagateFailure() && after == before
  }

  /** The release side is free of Oracle work, has to wait for the one attempt under way, or finds two. */
  lemma NoOracleAttemptMeans(st: State)
    ensures st.AssertNoOracleAttempt().Done? <==> st.OracleIdle()
    ensures st.AssertNoOracleAttempt().Blocked? <==>
              exists k :: st.OracleActive(k) && forall l :: st.OracleActive(l) ==> l == k
  {
  }

  /** The releases that `apply` admits. */
  lemma AdmissionMeans(st: State, x: Sha)
    ensures st.AssertCandidateAdmissible(x).Done? <==> st.Admissible(x)
  {
  }

  /** What a reconcile has to resume, or to wait for. */
  lemma OracleTargetMeans(st: State, key: OracleKey)
    ensures st.RequireOracleTarget(key) == Done(None) <==> st.OracleIdle()
    ensures var r := st.RequireOracleTarget(key);
            && (r.Done? && r.value.Some? ==>
                  r.value.value.Key() == key && exists k :: st.OracleActive(k) && st.oracle[k] == r.value.value)
            && (r.Blocked? ==> exists k :: st.OracleActive(k) && st.oracle[k].Key() != key)
  {
  }

  class ReleaseStore {
    var attempts: map<Sha, ReleaseAttempt>
    var records: map<Sha, ReleaseRecord>
    var current: Option<Sha>
    var forwardFix: Option<Sha>
    var oracleAttempts: map<OracleKey, OracleAttempt>
    var oracleRepairs: map<OracleKey, OracleRepairBinding>

    function View(): State
      reads this
    {
      State(attempts, records, current, forwardFix, oracleAttempts, oracleRepairs)
    }

    /** The store the adoption of an existing release leaves: one published release, current and Succeeded. */
    constructor (adopted: ReleaseAttempt, record: ReleaseRecord)
      ensures View() == State(map[adopted.sourceSha := adopted], map[record.sourceSha := record],
                              Some(record.sourceSha), None, map[], map[])
    {
      attempts := map[adopted.sourceSha := adopted];
      records := map[record.sourceSha := record];
      current := Some(record.sourceSha);
      forwardFix := None;
      oracleAttempts := map[];
      oracleRepairs := map[];
    }

    /** Scans the attempt files one by one. */
    method ActiveAttempt() returns (r: Outcome<Option<ReleaseAttempt>>)
      ensures r == View().ActiveAttempt()
    {
      var pending := attempts.Keys;
      var found: Option<Sha> := None;
      while pending != {}
        invariant pending <= attempts.Keys
        invariant found.Some? ==> View().Active(found.value) && found.value !in pending
        invariant forall x :: View().Active(x) && x !in pending ==> found == Some(x)
        decreases |pending|
      {
        var x :| x in pending;
        pending := pending - {x};
        if !attempts[x].Terminal() {
          if found.Some? {
            assert View().Active(x) && View().Active(found.value);
            return Defect;
          }
          found := Some(x);
        }
      }
      r := Done(if found.Some? then Some(attempts[found.value]) else None);
    }

    method ActiveOracleAttempt() returns (r: Outcome<Option<OracleAttempt>>)
      ensures r == View().ActiveOracleAttempt()
    {
      var pending := oracleAttempts.Keys;
      var found: Option<OracleKey> := None;
      while pending != {}
        invariant pending <= oracleAttempts.Keys
        invariant found.Some? ==> View().OracleActive(found.value) && found.value !in pending
        invariant forall k :: View().OracleActive(k) && k !in pending ==> found == Some(k)
        decreases |pending|
      {
        var k :| k in pending;
        pending := pending - {k};
        if !oracleAttempts[k].phase.Terminal() {
          if found.Some? {
            assert View().OracleActive(k) && View().OracleActive(found.value);
            return Defect;
          }
          found := Some(k);
        }
      }
      r := Done(if found.Some? then Some(oracleAttempts[found.value]) else None);
    }

    method AssertNoOracleAttempt() returns (r: Outcome<()>)
      ensures r == View().AssertNoOracleAttempt()
    {
      var active :- ActiveOracleAttempt();
      r := if active.Some? then Blocked else Done(());
    }

    method AssertCandidateAdmissible(x: Sha) returns (r: Outcome<()>)
      ensures r == View().AssertCandidateAdmissible(x)
    {
      var active :- ActiveAttempt();
      if active.Some? {
        return if active.value.sourceSha == x then Done(()) else Blocked;
      }
      if x in attempts {
        if !attempts[x].phase.Succeeded? {
          return Blocked;
        }
        var published :- View().CurrentSha();
        return if published == Some(x) then Done(()) else Blocked;
      }
      if x in records {
        return Blocked;
      }
      var failed :- View().ForwardFixSha();
      r := if failed == Some(x) then Blocked else Done(());
    }

    method RequireOracleTarget(key: OracleKey) returns (r: Outcome<Option<OracleAttempt>>)
      ensures r == View().RequireOracleTarget(key)
    {
      var active :- ActiveOracleAttempt();
      r := if active.Some? && active.value.Key() != key then Blocked else Done(active);
    }

    method CreateAttempt(a: ReleaseAttempt) returns (r: Outcome<()>)
      modifies this`attempts
      ensures Performed(old(View()), old(View()).CreateAttempt(a), View(), r)
      ensures r.Done? <==> a.sourceSha !in old(attempts)
      ensures r.Done? ==> View().LoadAttempt(a.sourceSha) == Some(a)
      ensures forall x :: x in old(attempts) ==> x in attempts && attempts[x] == old(attempts)[x]
    {
      if a.sourceSha in attempts {
        return Defect;
      }
      attempts := attempts[a.sourceSha := a];
      r := Done(());
    }

    method ReplaceAttempt(a: ReleaseAttempt) returns (r: Outcome<()>)
      modifies this`attempts
      ensures Performed(old(View()), old(View()).ReplaceAttempt(a), View(), r)
      ensures r.Done? <==>
                a.sourceSha in old(attempts)
                && (old(attempts)[a.sourceSha] == a || old(attempts)[a.sourceSha].StepsTo(a))
      ensures r.Done? ==> View().LoadAttempt(a.sourceSha) == Some(a)
      ensures attempts.Keys == old(attempts).Keys
      ensures forall x :: x in attempts && (x != a.sourceSha || old(attempts)[x].Terminal()) ==>
                attempts[x] == old(attempts)[x]
    {
      if a.sourceSha !in attempts {
        return Defect;
      }
      var stored := attempts[a.sourceSha];
      if stored == a {
        return Done(());
      }
      if a.WithProgressOf(stored) != stored {
        return Defect;
      }
      if a.phase !in stored.phase.Successors() {
        return Defect;
      }
      attempts := attempts[a.sourceSha := a];
      r := Done(());
    }

    method CreateRecord(record: ReleaseRecord) returns (r: Outcome<()>)
      modifies this`records
      ensures Performed(old(View()), old(View()).CreateRecord(record), View(), r)
      ensures r.Done? <==> record.sourceSha in records && records[record.sourceSha] == record
      ensures records.Keys == old(records).Keys + {record.sourceSha}
      ensures forall x :: x in old(records) ==> records[x] == old(records)[x]
    {
      if record.sourceSha in records {
        return if records[record.sourceSha] != record then Defect else Done(());
      }
      records := records[record.sourceSha := record];
      r := Done(());
    }

    method SetCurrent(x: Sha) returns (r: Outcome<()>)
      modifies this`current
      ensures Performed(old(View()), old(View()).SetCurrent(x), View(), r)
      ensures r.Done? <==>
                x in records && old(current).Some? && old(current).value in records
                && (old(current) == Some(x) || records[x].predecessorSha == old(current))
      ensures current == if r.Done? then Some(x) else old(current)
    {
      if x !in records {
        return Defect;
      }
      var previous :- View().CurrentSha();
      if previous.None? {
        return Blocked;
      }
      if previous.value != x && records[x].predecessorSha != previous {
        return Defect;
      }
      current := Some(x);
      r := Done(());
    }

    method CompletePublishedAttempt(x: Sha, now: string) returns (r: Outcome<()>)
      modifies this`attempts
      ensures Performed(old(View()), old(View()).CompletePublishedAttempt(x, now), View(), r)
      ensures r.Done? ==> x in old(attempts) && x in records && current == Some(x)
      ensures r.Done? && old(attempts)[x].sourceSha == x ==> attempts[x].phase.Succeeded?
      ensures r.Done? && attempts != old(attempts) ==> old(attempts)[x].phase.FrontendPromoted?
      ensures attempts.Keys == old(attempts).Keys
      ensures forall y :: y in attempts && old(attempts)[y].Terminal() ==> attempts[y] == old(attempts)[y]
    {
      if x !in attempts {
        return Defect;
      }
      var published :- View().CurrentSha();
      if published != Some(x) || x !in records {
        return Defect;
      }
      if attempts[x].phase.Succeeded? {
        return Done(());
      }
      if !attempts[x].phase.FrontendPromoted? {
        return Defect;
      }
      var succeeded :- attempts[x].Advance(Succeeded, now, None);
      r := ReplaceAttempt(succeeded);
    }

    method SetForwardFix(x: Sha) returns (r: Outcome<()>)
      modifies this`forwardFix
      ensures Performed(old(View()), old(View()).SetForwardFix(x), View(), r)
      ensures r.Done? <==> View().MayBeForwardFixed(x) && (old(forwardFix).None? || old(forwardFix) == Some(x))
      ensures forwardFix == if r.Done? then Some(x) else old(forwardFix)
    {
      if !View().MayBeForwardFixed(x) {
        return Defect;
      }
      var named :- View().ForwardFixSha();
      if named.Some? && named.value != x {
        return Defect;
      }
      forwardFix := Some(x);
      r := Done(());
    }

    method ClearForwardFixAfterSuccess(x: Sha) returns (r: Outcome<()>)
      modifies this`forwardFix
      ensures Performed(old(View()), old(View()).ClearForwardFixAfterSuccess(x), View(), r)
      ensures r.Done? ==> x in attempts && attempts[x].phase.Succeeded?
                          && (forwardFix.Some? ==> forwardFix != attempts[x].forwardFixOf)
      ensures forwardFix != old(forwardFix) ==>
                forwardFix.None? && r.Done? && old(forwardFix) == attempts[x].forwardFixOf && old(forwardFix) != Some(x)
    {
      if x !in attempts || !attempts[x].phase.Succeeded? {
        return Defect;
      }
      var failed :- View().ForwardFixSha();
      if failed.None? || attempts[x].forwardFixOf != failed {
        return Done(());
      }
      if failed.value == x {
        return Defect;
      }
      forwardFix := None;
      r := Done(());
    }

    method CreateOracleAttempt(o: OracleAttempt) returns (r: Outcome<()>)
      modifies this`oracleAttempts
      ensures Performed(old(View()), old(View()).CreateOracleAttempt(o), View(), r)
      ensures r.Done? <==> o.Key() !in old(oracleAttempts)
      ensures r.Done? ==> o.Key() in oracleAttempts && oracleAttempts[o.Key()] == o
      ensures forall k :: k in old(oracleAttempts) ==>
                k in oracleAttempts && oracleAttempts[k] == old(oracleAttempts)[k]
    {
      if o.Key() in oracleAttempts {
        return Defect;
      }
      oracleAttempts := oracleAttempts[o.Key() := o];
      r := Done(());
    }

    method ReplaceOracleAttempt(o: OracleAttempt) returns (r: Outcome<()>)
      modifies this`oracleAttempts
      ensures Performed(old(View()), old(View()).ReplaceOracleAttempt(o), View(), r)
      ensures r.Done? <==>
                o.Key() in old(oracleAttempts)
                && (old(oracleAttempts)[o.Key()] == o || old(oracleAttempts)[o.Key()].StepsTo(o))
      ensures oracleAttempts.Keys == old(oracleAttempts).Keys && (r.Done? ==> oracleAttempts[o.Key()] == o)
      ensures forall k :: k in oracleAttempts && (k != o.Key() || old(oracleAttempts)[k].phase.Terminal()) ==>
                oracleAttempts[k] == old(oracleAttempts)[k]
    {
      if o.Key() !in oracleAttempts {
        return Defect;
      }
      var stored := oracleAttempts[o.Key()];
      if stored == o {
        return Done(());
      }
      if o.(phase := stored.phase, updatedAt := stored.updatedAt) != stored {
        return Defect;
      }
      if o.phase !in stored.phase.Successors() {
        return Defect;
      }
      oracleAttempts := oracleAttempts[o.Key() := o];
      r := Done(());
    }

    method CreateOracleRepair(b: OracleRepairBinding) returns (r: Outcome<()>)
      modifies this`oracleRepairs
      ensures Performed(old(View()), old(View()).CreateOracleRepair(b), View(), r)
      ensures r.Done? <==> b.Key() !in old(oracleRepairs)
      ensures r.Done? ==> b.Key() in oracleRepairs && oracleRepairs[b.Key()] == b
      ensures forall k :: k in old(oracleRepairs) ==> k in oracleRepairs && oracleRepairs[k] == old(oracleRepairs)[k]
    {
      if b.Key() in oracleRepairs {
        return Defect;
      }
      oracleRepairs := oracleRepairs[b.Key() := b];
      r := Done(());
    }
  }
}
