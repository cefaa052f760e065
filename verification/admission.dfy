/** Admission of tasks: wait lists, the guard on moves, and what both promise
    about whole boards and whole runs. */
module Admission {
  import opened BoardStatus
  import opened Outcome
  import opened DependencyGraph
  import opened TaskOverlap

  datatype Task = Task(board: string, status: Status, index: nat, spec: Spec, completionWait: Option<string>) {
    predicate Complete() { status == Done && completionWait.None? }

    predicate Active() { status == Doing || (status == Done && !Complete()) }
  }

  datatype Snapshot = Snapshot(tasks: seq<Task>, changedFiles: set<string>)

  datatype Wait =
    | MetadataWait(message: string)
    | DependencyWait(cause: DependencyError)
    | PrerequisiteWait(id: string)
    | OverlapWait(at: nat, reason: Reason)

  function Specs(s: Snapshot): (g: Graph)
    ensures |g| == |s.tasks|
    ensures forall i :: 0 <= i < |g| ==> g[i] == s.tasks[i].spec
  {
    seq(|s.tasks|, i requires 0 <= i < |s.tasks| => s.tasks[i].spec)
  }

  predicate SameTask(a: Task, b: Task) {
    a.board == b.board && a.status == b.status && a.index == b.index
  }

  ghost predicate PrerequisitesComplete(s: Snapshot, i: nat)
    requires i < |s.tasks|
  {
    forall d :: d in s.tasks[i].spec.dependsOn ==> !IncompletePrerequisite(s, d)
  }

  predicate IncompletePrerequisite(s: Snapshot, d: string) {
    var r := Referenced(Specs(s), d);
    r.Ok? && !s.tasks[r.value].Complete()
  }

  /** Task `j` keeps `i` waiting. A consumer that itself waits for `i` never does. */
  ghost predicate Blocks(rd: Reading, s: Snapshot, i: nat, j: nat)
    requires i < |s.tasks| && j < |s.tasks|
  {
    var t, o := s.tasks[i], s.tasks[j];
    && o.Active() && !SameTask(t, o)
    && !(t.spec.id != "" && DependsTransitively(Specs(s), o.spec.dependsOn, t.spec.id))
    && Overlaps(rd, t.spec, o.spec)
  }

  ghost predicate Admissible(rd: Reading, s: Snapshot, i: nat)
    requires i < |s.tasks|
  {
    || s.tasks[i].Complete()
    || (&& s.tasks[i].spec.error.None?
        && TaskSound(Specs(s), i)
        && PrerequisitesComplete(s, i)
        && forall j :: 0 <= j < |s.tasks| ==> !Blocks(rd, s, i, j))
  }

  ghost predicate Examined(s: Snapshot, i: nat)
    requires i < |s.tasks|
  {
    !s.tasks[i].Complete() && s.tasks[i].spec.error.None? && TaskSound(Specs(s), i)
  }

  ghost predicate OverlapListed(waits: seq<Wait>, j: nat) {
    exists k :: 0 <= k < |waits| && waits[k].OverlapWait? && waits[k].at == j
  }

  method PrerequisiteWaits(s: Snapshot, i: nat) returns (waits: seq<Wait>)
    requires i < |s.tasks|
    ensures forall w :: w in waits ==> w.PrerequisiteWait?
    ensures forall d :: PrerequisiteWait(d) in waits <==> d in s.tasks[i].spec.dependsOn && IncompletePrerequisite(s, d)
  {
    waits := [];
    var dependencies := s.tasks[i].spec.dependsOn;
    for k := 0 to |dependencies|
      invariant forall w :: w in waits ==> w.PrerequisiteWait?
      invariant forall d :: PrerequisiteWait(d) in waits <==> d in dependencies[..k] && IncompletePrerequisite(s, d)
    {
      assert dependencies[..k + 1] == dependencies[..k] + [dependencies[k]];
      if IncompletePrerequisite(s, dependencies[k]) {
        waits := waits + [PrerequisiteWait(dependencies[k])];
      }
    }
    assert dependencies[..|dependencies|] == dependencies;
  }

  method OverlapWaits(rd: Reading, s: Snapshot, i: nat) returns (waits: seq<Wait>)
    requires i < |s.tasks|
    ensures forall w :: w in waits ==> w.OverlapWait?
    ensures forall k :: 0 <= k < |waits| ==> waits[k].at < |s.tasks|
    ensures forall j :: 0 <= j < |s.tasks| ==> (OverlapListed(waits, j) <==> Blocks(rd, s, i, j))
  {
    waits := [];
    var g, task := Specs(s), s.tasks[i];
    for j := 0 to |s.tasks|
      invariant forall w :: w in waits ==> w.OverlapWait?
      invariant forall k :: 0 <= k < |waits| ==> waits[k].at < j
      invariant forall m :: 0 <= m < j ==> (OverlapListed(waits, m) <==> Blocks(rd, s, i, m))
    {
      var other := s.tasks[j];
      ghost var before := waits;
      var verdict := None;
      if other.Active() && !SameTask(task, other) {
        var consumer := false;
        if task.spec.id != "" {
          consumer := DependsOn(g, j, task.spec.id);
        }
        if !consumer {
          verdict := Overlap(rd, task.spec, other.spec, s.changedFiles);
        }
      }
      if verdict.Some? {
        waits := waits + [OverlapWait(j, verdict.value)];
        assert waits[|before|].at == j;
      }
      forall m | 0 <= m < j ensures OverlapListed(waits, m) <==> OverlapListed(before, m) {
        if OverlapListed(before, m) {
          var k :| 0 <= k < |before| && before[k].OverlapWait? && before[k].at == m;
          assert waits[k] == before[k];
        }
      }
    }
  }

  /** The wait list. It is empty exactly for admissible tasks, and once the task's
      own dependencies are in order it lists every obstacle and nothing else. */
  method Waits(rd: Reading, s: Snapshot, i: nat) returns (waits: seq<Wait>)
    requires i < |s.tasks|
    ensures waits == [] <==> Admissible(rd, s, i)
    ensures Examined(s, i) ==> forall d :: (PrerequisiteWait(d) in waits <==>
                                            d in s.tasks[i].spec.dependsOn && IncompletePrerequisite(s, d))
    ensures Examined(s, i) ==> forall j :: 0 <= j < |s.tasks| ==> (OverlapListed(waits, j) <==> Blocks(rd, s, i, j))
  {
    var task := s.tasks[i];
    if task.Complete() {
      return [];
    }
    if task.spec.error.Some? {
      return [MetadataWait(task.spec.error.value)];
    }
    var checked := Check(Specs(s), i);
    if checked.Err? {
      return [DependencyWait(checked.error)];
    }
    var prerequisites := PrerequisiteWaits(s, i);
    var overlaps := OverlapWaits(rd, s, i);
    waits := prerequisites + overlaps;
    ConcatListing(prerequisites, overlaps);
    if waits == [] {
      assert forall d :: d in task.spec.dependsOn && IncompletePrerequisite(s, d) ==> PrerequisiteWait(d) in prerequisites;
    } else if prerequisites == [] {
      assert OverlapListed(overlaps, overlaps[0].at);
    } else {
      assert PrerequisiteWait(prerequisites[0].id) in prerequisites;
    }
  }

  lemma ConcatListing(p: seq<Wait>, q: seq<Wait>)
    requires forall w :: w in p ==> w.PrerequisiteWait?
    ensures forall j :: OverlapListed(p + q, j) <==> OverlapListed(q, j)
  {
    assert forall m :: 0 <= m < |p| ==> (p + q)[m] == p[m] && p[m] in p;
    forall j ensures OverlapListed(p + q, j) <==> OverlapListed(q, j) {
      if OverlapListed(q, j) {
        var k :| 0 <= k < |q| && q[k].OverlapWait? && q[k].at == j;
        assert (p + q)[|p| + k] == q[k];
      }
      if OverlapListed(p + q, j) {
        var k :| 0 <= k < |p + q| && (p + q)[k].OverlapWait? && (p + q)[k].at == j;
        assert q[k - |p|] == (p + q)[k];
      }
    }
  }

  /** The position the board commands address: first match of list and index, from 1. */
  function Selected(s: Snapshot, board: string, status: Status, index: nat, start: nat): (r: Option<nat>)
    requires start <= |s.tasks|
    ensures r.Some? ==> start <= r.value < |s.tasks| && index > 0 && LiesAt(s.tasks[r.value], board, status, index)
    ensures r.Some? ==> forall j :: start <= j < r.value ==> !LiesAt(s.tasks[j], board, status, index)
    ensures r.None? && index > 0 ==> forall j :: start <= j < |s.tasks| ==> !LiesAt(s.tasks[j], board, status, index)
    decreases |s.tasks| - start
  {
    if index == 0 || start == |s.tasks| then None
    else if LiesAt(s.tasks[start], board, status, index) then Some(start)
    else Selected(s, board, status, index, start + 1)
  }

  predicate LiesAt(t: Task, board: string, status: Status, index: nat) {
    t.board == board && t.status == status && t.index == index
  }

  method EnsureAdmitted(rd: Reading, s: Snapshot, board: string, status: Status, index: nat) returns (ok: bool)
    ensures ok <==> var at := Selected(s, board, status, index, 0); at.Some? && Admissible(rd, s, at.value)
  {
    var at := Selected(s, board, status, index, 0);
    if at.None? {
      return false;
    }
    var waits := Waits(rd, s, at.value);
    ok := waits == [];
  }

  // -------------------------------------------------------------------- progress

  ghost predicate Related(g: Graph, i: nat, j: nat)
    requires i < |g| && j < |g|
  {
    || (g[j].id != "" && DependsTransitively(g, g[i].dependsOn, g[j].id))
    || (g[i].id != "" && DependsTransitively(g, g[j].dependsOn, g[i].id))
  }

  ghost predicate Unfinished(s: Snapshot, i: int) {
    0 <= i < |s.tasks| && !s.tasks[i].Complete()
  }

  ghost predicate WaitsForUnfinished(s: Snapshot, i: nat)
    requires i < |s.tasks|
  {
    exists k :: Unfinished(s, k) && s.tasks[k].spec.id != ""
                && DependsTransitively(Specs(s), s.tasks[i].spec.dependsOn, s.tasks[k].spec.id)
  }

  ghost function Below(g: Graph, i: nat): set<string>
    requires i < |g|
  {
    set id | id in Ids(g) && DependsTransitively(g, g[i].dependsOn, id)
  }

  lemma SoundBelow(g: Graph, i: nat, id: string)
    requires i < |g| && TaskSound(g, i) && DependsTransitively(g, g[i].dependsOn, id)
    ensures Referenced(g, id).Ok? && !ReachPlus(g, id, id)
    ensures g[i].id != "" ==> id != g[i].id
  {
    var d :| d in g[i].dependsOn && Reach(g, d, id);
    if g[i].id != "" {
      ReachSelf(g, g[i].id);
      assert g[i].id in Starts(g, i);
      assert Sound(g, g[i].id);
      assert d in Edges(g, g[i].id);
      ReachEdge(g, g[i].id, d);
      ReachTransitive(g, g[i].id, d, id);
    } else {
      assert d in Starts(g, i);
      assert Sound(g, d);
    }
  }

  lemma BelowShrinks(g: Graph, i: nat, k: nat)
    requires i < |g| && k < |g| && TaskSound(g, i)
    requires g[k].id != "" && DependsTransitively(g, g[i].dependsOn, g[k].id)
    ensures Below(g, k) < Below(g, i)
  {
    var id := g[k].id;
    SoundBelow(g, i, id);
    assert Edges(g, id) == g[k].dependsOn;
    forall x | x in Below(g, k) ensures x in Below(g, i) {
      assert ReachPlus(g, id, x);
      ReachPlusReach(g, id, x);
      var d :| d in g[i].dependsOn && Reach(g, d, id);
      ReachTransitive(g, d, id, x);
    }
    assert id in Below(g, i) && id !in Below(g, k);
  }

  lemma {:induction false} LowestUnfinished(s: Snapshot, i: nat) returns (m: nat)
    requires Unfinished(s, i)
    requires forall k :: Unfinished(s, k) ==> TaskSound(Specs(s), k)
    ensures Unfinished(s, m) && !WaitsForUnfinished(s, m)
    decreases |Below(Specs(s), i)|
  {
    if WaitsForUnfinished(s, i) {
      var k :| Unfinished(s, k) && s.tasks[k].spec.id != ""
               && DependsTransitively(Specs(s), s.tasks[i].spec.dependsOn, s.tasks[k].spec.id);
      BelowShrinks(Specs(s), i, k);
      SmallerSet(Below(Specs(s), k), Below(Specs(s), i));
      m := LowestUnfinished(s, k);
    } else {
      m := i;
    }
  }

  lemma SmallerSet(a: set<string>, b: set<string>)
    requires a < b
    ensures |a| < |b|
  {
    assert b == a + (b - a);
    assert |b| == |a| + |b - a|;
  }

  /** Declared order never deadlocks: if every overlap between unfinished tasks is
      resolved by a dependency, some unfinished task has nothing to wait for. */
  lemma SomeUnfinishedTaskIsAdmitted(rd: Reading, s: Snapshot)
    requires exists i :: Unfinished(s, i)
    requires forall i :: Unfinished(s, i) ==> s.tasks[i].spec.error.None? && TaskSound(Specs(s), i)
    requires forall i, j ::
               (&& Unfinished(s, i) && Unfinished(s, j) && !SameTask(s.tasks[i], s.tasks[j])
                && Overlaps(rd, s.tasks[i].spec, s.tasks[j].spec)) ==> Related(Specs(s), i, j)
    ensures exists i :: Unfinished(s, i) && Admissible(rd, s, i)
  {
    var i :| Unfinished(s, i);
    var m := LowestUnfinished(s, i);
    var g := Specs(s);
    forall d | d in g[m].dependsOn ensures !IncompletePrerequisite(s, d) {
      ReachSelf(g, d);
      assert DependsTransitively(g, g[m].dependsOn, d);
    }
    forall j | 0 <= j < |s.tasks| ensures !Blocks(rd, s, m, j) {
      assert g[j].id != "" && Unfinished(s, j) ==> !DependsTransitively(g, g[m].dependsOn, g[j].id);
    }
    assert Admissible(rd, s, m);
  }

  // ------------------------------------------------------------ safety of runs

  ghost predicate KeysDistinct(s: Snapshot) {
    forall i, j :: Unfinished(s, i) && Unfinished(s, j) && i != j ==> !SameTask(s.tasks[i], s.tasks[j])
  }

  /** One board step with fixed content: task `i` moves, or its Git proof completes.
      Indexes are renumbered freely; a Done task never leaves Done. */
  ghost predicate StepOf(rd: Reading, s: Snapshot, s': Snapshot, i: nat)
    requires i < |s.tasks|
  {
    && Specs(s') == Specs(s)
    && KeysDistinct(s')
    && (forall j :: 0 <= j < |s.tasks| && j != i ==>
                      && s'.tasks[j].status == s.tasks[j].status
                      && s'.tasks[j].completionWait == s.tasks[j].completionWait)
    && (s.tasks[i].status == Done ==> s'.tasks[i].status == Done)
    && (if s'.tasks[i].status == s.tasks[i].status
        then s'.tasks[i].completionWait in {s.tasks[i].completionWait, None}
        else s'.tasks[i].status in {Doing, Done} ==> Admissible(rd, s, i))
  }

  ghost predicate Step(rd: Reading, s: Snapshot, s': Snapshot) {
    exists i :: 0 <= i < |s.tasks| && StepOf(rd, s, s', i)
  }

  ghost predicate Compatible(rd: Reading, g: Graph, i: nat, j: nat)
    requires i < |g| && j < |g|
  {
    !Overlaps(rd, g[i], g[j]) || Related(g, i, j)
  }

  ghost predicate ReadyPrerequisites(s: Snapshot, i: nat)
    requires i < |s.tasks|
  {
    forall d :: d in s.tasks[i].spec.dependsOn ==> Referenced(Specs(s), d).Ok? && !IncompletePrerequisite(s, d)
  }

  ghost predicate Safe(rd: Reading, s: Snapshot) {
    && (forall i, j :: && 0 <= i < |s.tasks| && 0 <= j < |s.tasks| && i != j
                       && s.tasks[i].Active() && s.tasks[j].Active()
                       ==> Compatible(rd, Specs(s), i, j))
    && (forall i :: 0 <= i < |s.tasks| && s.tasks[i].status == Doing ==> ReadyPrerequisites(s, i))
  }

  lemma AdmittedIsCompatible(rd: Reading, s: Snapshot, i: nat, j: nat)
    requires KeysDistinct(s) && i < |s.tasks| && j < |s.tasks| && i != j
    requires !s.tasks[i].Complete() && Admissible(rd, s, i) && s.tasks[j].Active()
    ensures Compatible(rd, Specs(s), i, j) && Compatible(rd, Specs(s), j, i)
  {
    assert !SameTask(s.tasks[i], s.tasks[j]);
    assert !Blocks(rd, s, i, j);
    OverlapsSymmetric(rd, s.tasks[i].spec, s.tasks[j].spec);
  }

  lemma AdmittedIsReady(rd: Reading, s: Snapshot, i: nat)
    requires i < |s.tasks| && !s.tasks[i].Complete() && Admissible(rd, s, i)
    ensures ReadyPrerequisites(s, i)
  {
    forall d | d in s.tasks[i].spec.dependsOn ensures Referenced(Specs(s), d).Ok? {
      ReachSelf(Specs(s), d);
      SoundBelow(Specs(s), i, d);
    }
  }

  lemma StepKeepsReady(rd: Reading, s: Snapshot, s': Snapshot, i: nat, k: nat)
    requires i < |s.tasks| && k < |s.tasks| && StepOf(rd, s, s', i) && ReadyPrerequisites(s, k)
    ensures |s'.tasks| == |s.tasks| && ReadyPrerequisites(s', k)
  {
    assert |Specs(s')| == |s'.tasks| && |Specs(s)| == |s.tasks|;
    assert s'.tasks[k].spec == Specs(s')[k] == Specs(s)[k] == s.tasks[k].spec;
    forall d | d in s'.tasks[k].spec.dependsOn ensures !IncompletePrerequisite(s', d) {
      assert !IncompletePrerequisite(s, d);
    }
  }

  lemma StepKeepsSafe(rd: Reading, s: Snapshot, s': Snapshot)
    requires KeysDistinct(s) && Safe(rd, s) && Step(rd, s, s')
    ensures Safe(rd, s')
  {
    var i :| 0 <= i < |s.tasks| && StepOf(rd, s, s', i);
    assert |Specs(s')| == |s'.tasks| && |Specs(s)| == |s.tasks|;
    forall a, b | && 0 <= a < |s'.tasks| && 0 <= b < |s'.tasks| && a != b
                  && s'.tasks[a].Active() && s'.tasks[b].Active()
      ensures Compatible(rd, Specs(s'), a, b)
    {
      if !s.tasks[a].Active() {
        AdmittedIsCompatible(rd, s, a, b);
      } else if !s.tasks[b].Active() {
        AdmittedIsCompatible(rd, s, b, a);
      }
    }
    forall k | 0 <= k < |s'.tasks| && s'.tasks[k].status == Doing ensures ReadyPrerequisites(s', k) {
      if s.tasks[k].status != Doing {
        AdmittedIsReady(rd, s, k);
      }
      StepKeepsReady(rd, s, s', i, k);
    }
  }

  ghost predicate IsRun(rd: Reading, run: seq<Snapshot>) {
    && |run| >= 1
    && KeysDistinct(run[0])
    && (forall i :: 0 <= i < |run[0].tasks| ==> !run[0].tasks[i].Active())
    && forall k :: 0 <= k < |run| - 1 ==> Step(rd, run[k], run[k + 1])
  }

  /** Any run of admitted moves from an idle board stays safe at every state. */
  lemma {:induction false} RunsStaySafe(rd: Reading, run: seq<Snapshot>, k: nat)
    requires IsRun(rd, run) && k < |run|
    ensures Safe(rd, run[k]) && KeysDistinct(run[k])
  {
    if k > 0 {
      RunsStaySafe(rd, run, k - 1);
      assert Step(rd, run[k - 1], run[k - 1 + 1]);
      StepKeepsSafe(rd, run[k - 1], run[k]);
    }
  }
}
