/** Schema migrations with any number of processes opening the database at once. */
module SchemaMigrations {
  import opened Outcome

  const WORKER_TABLE: nat := 15
  const WORKER_SHARED: nat := 16

  predicate Increasing(versions: seq<nat>) {
    forall i, j :: 0 <= i < j < |versions| ==> versions[i] < versions[j]
  }

  datatype Step = Already | Applied | Deferred | Failed

  /** What other processes do: a further opener starts, one takes its next
      transaction, a worker starts or ends. */
  datatype Other = Opens | Transacts(opener: nat, fails: bool) | WorkerStarts | WorkerEnds

  class Database {
    const versions: seq<nat>
    /** The log of migrations run, in the order they ran. */
    var applied: seq<nat>
    var activeWorkers: nat
    /** How far each other opener has come through the list. */
    var others: seq<nat>

    ghost predicate Valid()
      reads this
    {
      && Increasing(versions) && applied <= versions
      && (activeWorkers > 0 ==> WORKER_TABLE in applied)
      && forall k :: 0 <= k < |others| ==> others[k] <= |applied|
    }

    constructor (versions: seq<nat>)
      requires Increasing(versions)
      ensures Valid() && this.versions == versions && applied == [] && activeWorkers == 0
    {
      this.versions := versions;
      applied, activeWorkers, others := [], 0, [];
    }

    predicate Defers(version: nat)
      reads this
    {
      version > WORKER_SHARED && WORKER_TABLE in applied && activeWorkers > 0
    }

    /** One immediate transaction for the migration at `i`; a failing statement rolls back. */
    method Transact(i: nat, fails: bool) returns (step: Step)
      requires Valid() && i < |versions| && i <= |applied|
      modifies this`applied
      ensures Valid() && old(applied) <= applied
      ensures step == Already <==> i < |old(applied)|
      ensures step == Deferred <==> i == |old(applied)| && Defers(versions[i])
      ensures step == Failed <==> i == |old(applied)| && !Defers(versions[i]) && fails
      ensures applied == if step == Applied then old(applied) + [versions[i]] else old(applied)
    {
      assert versions[i] in applied <==> i < |applied| by {
        assert forall j :: 0 <= j < |applied| ==> applied[j] == versions[j];
        if i < |applied| {
          assert applied[i] == versions[i];
        }
      }
      if versions[i] in applied {
        return Already;
      }
      if Defers(versions[i]) {
        return Deferred;
      }
      if fails {
        return Failed;
      }
      applied := applied + [versions[i]];
      step := Applied;
    }

    method OthersAct(script: seq<Other>)
      requires Valid()
      modifies this
      ensures Valid() && old(applied) <= applied
    {
      for k := 0 to |script|
        invariant Valid() && old(applied) <= applied
      {
        match script[k] {
          case Opens =>
            others := others + [0];
          case Transacts(opener, fails) =>
            if opener < |others| && others[opener] < |versions| {
              var step := Transact(others[opener], fails);
              if step in {Already, Applied} {
                others := others[opener := others[opener] + 1];
              }
            }
          case WorkerStarts =>
            if WORKER_TABLE in applied {
              activeWorkers := activeWorkers + 1;
            }
          case WorkerEnds =>
            if activeWorkers > 0 {
              activeWorkers := activeWorkers - 1;
            }
        }
      }
    }

    /** Applies what is missing, in order; `script(i)` runs before the i-th transaction. */
    method ApplyMigrations(script: nat -> seq<Other>, failsAt: nat -> bool) returns (r: Result<Option<nat>, ()>)
      requires Valid()
      modifies this
      ensures Valid() && old(applied) <= applied
      ensures r == Ok(None) ==> applied == versions
      ensures r.Ok? && r.value.Some? ==>
                && |applied| < |versions| && r.value.value == versions[|applied|]
                && r.value.value > WORKER_SHARED && activeWorkers > 0
                && (forall v :: v in versions && v < r.value.value ==> v in applied)
                && r.value.value !in applied
    {
      for i := 0 to |versions|
        invariant Valid() && old(applied) <= applied && i <= |applied|
      {
        OthersAct(script(i));
        var step := Transact(i, failsAt(i));
        if step == Failed {
          return Err(());
        }
        if step == Deferred {
          EverythingBelowApplied(versions, applied);
          return Ok(Some(versions[i]));
        }
      }
      r := Ok(None);
    }
  }

  /** With a prefix of an increasing list applied, exactly the smaller versions are in. */
  lemma EverythingBelowApplied(versions: seq<nat>, applied: seq<nat>)
    requires Increasing(versions) && applied <= versions && |applied| < |versions|
    ensures forall v :: v in versions ==> (v in applied <==> v < versions[|applied|])
  {
    forall v | v in versions ensures v in applied <==> v < versions[|applied|] {
      var i :| 0 <= i < |versions| && versions[i] == v;
      if i < |applied| {
        assert applied[i] == v;
      } else {
        assert forall j :: 0 <= j < |applied| ==> applied[j] == versions[j];
      }
    }
  }

  /** A prefix of an increasing list holds no version twice. */
  lemma EachRunsOnce(versions: seq<nat>, applied: seq<nat>, i: nat, j: nat)
    requires Increasing(versions) && applied <= versions && i < j < |applied|
    ensures applied[i] != applied[j]
  {
    assert applied[i] == versions[i] && applied[j] == versions[j];
  }
}
