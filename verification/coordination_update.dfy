/** Editing one task's coordination metadata. Only the edited task is checked
    again; the lemmas here say why that keeps the whole graph in order. */
module CoordinationUpdate {
  import opened BoardStatus
  import opened Outcome
  import opened DependencyGraph
  import opened TaskOverlap
  import opened Admission

  datatype Assessment = Assessment(other: string, compatible: bool, reason: string)

  datatype Update = Update(
    dependsOn: seq<string>,
    removeDependency: seq<string>,
    scope: Option<Scope>,
    review: Option<Assessment>)
  {
    predicate Empty() { dependsOn == [] && removeDependency == [] && scope.None? && review.None? }
  }

  datatype UpdateError =
    | NoSuchTask
    | ProvisionalTask
    | CompletedTask
    | UnreadableMetadata(message: string)
    | SelfDependency
    | BrokenDependency(cause: DependencyError)
    | BlankReason
    | SelfAssessment
    | Refused

  /** What lies outside the snapshot: the UUID a task without one would get,
      text handling, and the guard of the Git-managed board on the rewritten text. */
  datatype Surroundings = Surroundings(
    freshId: string,
    isBlank: string -> bool,
    compose: Spec -> Option<string>,
    writable: string -> bool)

  // --------------------------------------------------------------- one edited task

  function WithoutReviewsOf(reviews: seq<Review>, other: string): (r: seq<Review>)
    ensures forall v :: v in r <==> v in reviews && v.other != other
    ensures |r| <= |reviews|
  {
    if reviews == [] then []
    else if reviews[0].other == other then WithoutReviewsOf(reviews[1..], other)
    else [reviews[0]] + WithoutReviewsOf(reviews[1..], other)
  }

  function Extended(dependencies: seq<string>, added: seq<string>): seq<string>
    decreases added
  {
    if added == [] then dependencies
    else Extended(if added[0] in dependencies then dependencies else dependencies + [added[0]], added[1..])
  }

  function Retained(dependencies: seq<string>, removed: seq<string>): seq<string> {
    if dependencies == [] then []
    else
      var last := |dependencies| - 1;
      Retained(dependencies[..last], removed) + (if dependencies[last] in removed then [] else [dependencies[last]])
  }

  function OwnId(before: Spec, newId: string): string {
    if before.id != "" then before.id else newId
  }

  /** The task after the edit of its dependencies and scope, before any review. */
  function RevisedSpec(before: Spec, u: Update, newId: string): Spec {
    before.(id := OwnId(before, newId),
            dependsOn := Retained(Extended(before.dependsOn, u.dependsOn), u.removeDependency),
            scope := if u.scope.Some? then u.scope.value else before.scope)
  }

  lemma {:induction false} ExtendedHolds(dependencies: seq<string>, added: seq<string>, d: string)
    ensures d in Extended(dependencies, added) <==> d in dependencies || d in added
    ensures dependencies <= Extended(dependencies, added)
    decreases added
  {
    if added != [] {
      assert added == [added[0]] + added[1..];
      ExtendedHolds(if added[0] in dependencies then dependencies else dependencies + [added[0]], added[1..], d);
    }
  }

  lemma {:induction false} RetainedHolds(dependencies: seq<string>, removed: seq<string>, d: string)
    ensures d in Retained(dependencies, removed) <==> d in dependencies && d !in removed
  {
    if dependencies != [] {
      var last := |dependencies| - 1;
      assert dependencies == dependencies[..last] + [dependencies[last]];
      RetainedHolds(dependencies[..last], removed, d);
    }
  }

  /** Removal wins over addition, and what was neither added nor removed stays. */
  lemma RevisionKeepsTheRest(before: Spec, u: Update, newId: string, d: string)
    ensures d in RevisedSpec(before, u, newId).dependsOn
            <==> (d in before.dependsOn || d in u.dependsOn) && d !in u.removeDependency
  {
    ExtendedHolds(before.dependsOn, u.dependsOn, d);
    RetainedHolds(Extended(before.dependsOn, u.dependsOn), u.removeDependency, d);
  }

  method AddDependencies(g: Graph, own: string, dependencies: seq<string>, added: seq<string>)
    returns (r: Result<seq<string>, UpdateError>)
    ensures r.Ok? <==> forall d :: d in added ==> d != own && Referenced(g, d).Ok?
    ensures r.Ok? ==> r.value == Extended(dependencies, added)
  {
    var all := dependencies;
    for k := 0 to |added|
      invariant forall j :: 0 <= j < k ==> added[j] != own && Referenced(g, added[j]).Ok?
      invariant Extended(all, added[k..]) == Extended(dependencies, added)
    {
      assert added[k] in added && added[k..][0] == added[k] && added[k..][1..] == added[k + 1..];
      if added[k] == own {
        return Err(SelfDependency);
      }
      var target := Referenced(g, added[k]);
      if target.Err? {
        return Err(BrokenDependency(target.error));
      }
      if added[k] !in all {
        all := all + [added[k]];
      }
    }
    assert added[|added|..] == [];
    r := Ok(all);
  }

  method RetainDependencies(dependencies: seq<string>, removed: seq<string>) returns (kept: seq<string>)
    ensures kept == Retained(dependencies, removed)
  {
    kept := [];
    for k := 0 to |dependencies|
      invariant kept == Retained(dependencies[..k], removed)
    {
      assert dependencies[..k + 1][..k] == dependencies[..k];
      if dependencies[k] !in removed {
        kept := kept + [dependencies[k]];
      }
    }
    assert dependencies[..|dependencies|] == dependencies;
  }

  ghost predicate Revisable(env: Surroundings, s: Snapshot, i: nat, u: Update)
    requires i < |s.tasks|
  {
    var spec := s.tasks[i].spec;
    && spec.error.None?
    && (forall d :: d in u.dependsOn ==> d != OwnId(spec, env.freshId) && Referenced(Specs(s), d).Ok?)
    && TaskSound(RevisedGraph(env, s, i, u), i)
  }

  function RevisedGraph(env: Surroundings, s: Snapshot, i: nat, u: Update): Graph
    requires i < |s.tasks|
  {
    Specs(s)[i := RevisedSpec(s.tasks[i].spec, u, env.freshId)]
  }

  predicate Assessable(env: Surroundings, g: Graph, i: nat, a: Assessment) {
    !env.isBlank(a.reason) && Referenced(g, a.other).Ok? && Referenced(g, a.other).value != i
  }

  /** The task with its review of another one, stamped with the work both now declare. */
  function Assessed(rd: Reading, g: Graph, revised: Spec, a: Assessment): Spec
    requires Referenced(g, a.other).Ok?
  {
    var stamp := Evidence(rd, revised, g[Referenced(g, a.other).value]);
    revised.(reviews := WithoutReviewsOf(revised.reviews, a.other) + [Review(a.other, stamp, a.compatible, a.reason)])
  }

  function Edited(rd: Reading, env: Surroundings, s: Snapshot, i: nat, u: Update): Spec
    requires i < |s.tasks|
    requires u.review.Some? ==> Referenced(RevisedGraph(env, s, i, u), u.review.value.other).Ok?
  {
    var revised := RevisedSpec(s.tasks[i].spec, u, env.freshId);
    if u.review.None? then revised else Assessed(rd, RevisedGraph(env, s, i, u), revised, u.review.value)
  }

  /** Everything an update must satisfy, each part readable before the call. */
  ghost predicate Acceptable(rd: Reading, env: Surroundings, s: Snapshot, i: nat, u: Update)
    requires i < |s.tasks|
  {
    && s.tasks[i].completionWait.None? && (s.tasks[i].status == Done ==> u.Empty())
    && Revisable(env, s, i, u)
    && (u.review.Some? ==> Assessable(env, RevisedGraph(env, s, i, u), i, u.review.value))
    && var content := env.compose(Edited(rd, env, s, i, u));
       content.Some? && env.writable(content.value)
  }

  /** What a successful update leaves: task `i` rewritten as asked, every other one as it was. */
  ghost function Rewritten(rd: Reading, env: Surroundings, s: Snapshot, i: nat, u: Update): Snapshot
    requires i < |s.tasks| && Acceptable(rd, env, s, i, u)
  {
    var edited := Edited(rd, env, s, i, u);
    s.(tasks := s.tasks[i := s.tasks[i].(spec := edited.(content := env.compose(edited).value))])
  }

  method Revise(env: Surroundings, s: Snapshot, i: nat, u: Update) returns (r: Result<Spec, UpdateError>)
    requires i < |s.tasks|
    ensures r.Ok? <==> Revisable(env, s, i, u)
    ensures r.Ok? ==> r.value == RevisedSpec(s.tasks[i].spec, u, env.freshId)
  {
    var spec := s.tasks[i].spec;
    if spec.error.Some? {
      return Err(UnreadableMetadata(spec.error.value));
    }
    var id := if spec.id == "" then env.freshId else spec.id;
    var dependencies := AddDependencies(Specs(s), id, spec.dependsOn, u.dependsOn);
    if dependencies.Err? {
      return Err(dependencies.error);
    }
    var kept := RetainDependencies(dependencies.value, u.removeDependency);
    var revised := spec.(id := id, dependsOn := kept, scope := if u.scope.Some? then u.scope.value else spec.scope);
    assert revised == RevisedSpec(spec, u, env.freshId);
    var checked := Check(Specs(s)[i := revised], i);
    r := if checked.Err? then Err(BrokenDependency(checked.error)) else Ok(revised);
  }

  /** Positions on the board are unique; only archived tasks share index 0. */
  predicate KeysDistinctAt(s: Snapshot, i: nat)
    requires i < |s.tasks|
  {
    forall j :: 0 <= j < |s.tasks| && j != i ==> !SameTask(s.tasks[i], s.tasks[j])
  }

  method Assess(rd: Reading, env: Surroundings, s: Snapshot, i: nat, revised: Spec, a: Assessment)
    returns (r: Result<Spec, UpdateError>)
    requires i < |s.tasks| && KeysDistinctAt(s, i)
    ensures r.Ok? <==> Assessable(env, Specs(s)[i := revised], i, a)
    ensures r.Ok? ==> r.value == Assessed(rd, Specs(s)[i := revised], revised, a)
  {
    if env.isBlank(a.reason) {
      return Err(BlankReason);
    }
    var g := Specs(s)[i := revised];
    var peer := Referenced(g, a.other);
    if peer.Err? {
      return Err(BrokenDependency(peer.error));
    }
    if SameTask(s.tasks[i], s.tasks[peer.value]) {
      return Err(SelfAssessment);
    }
    r := Ok(Assessed(rd, g, revised, a));
  }

  method ApplyUpdate(rd: Reading, env: Surroundings, s: Snapshot,
                     board: string, status: Status, index: nat, u: Update)
    returns (r: Result<string, UpdateError>, s': Snapshot)
    requires forall i :: 0 <= i < |s.tasks| && s.tasks[i].index > 0 ==> KeysDistinctAt(s, i)
    ensures r.Ok? <==> var at := Selected(s, board, status, index, 0); at.Some? && Acceptable(rd, env, s, at.value, u)
    ensures r.Ok? ==> var i := Selected(s, board, status, index, 0).value;
                      s' == Rewritten(rd, env, s, i, u) && r.value == OwnId(s.tasks[i].spec, env.freshId)
    ensures r.Err? ==> s' == s
  {
    s' := s;
    var at := Selected(s, board, status, index, 0);
    if at.None? {
      return Err(NoSuchTask), s;
    }
    var i := at.value;
    if s.tasks[i].completionWait.Some? {
      return Err(ProvisionalTask), s;
    }
    if status == Done && !u.Empty() {
      return Err(CompletedTask), s;
    }
    var revised := Revise(env, s, i, u);
    if revised.Err? {
      return Err(revised.error), s;
    }
    var edited := revised;
    if u.review.Some? {
      edited := Assess(rd, env, s, i, revised.value, u.review.value);
      if edited.Err? {
        return Err(edited.error), s;
      }
    }
    var content := env.compose(edited.value);
    if content.None? {
      return Err(UnreadableMetadata("")), s;
    }
    if !env.writable(content.value) {
      return Err(Refused), s;
    }
    s' := s.(tasks := s.tasks[i := s.tasks[i].(spec := edited.value.(content := content.value))]);
    r := Ok(revised.value.id);
  }

  // ------------------------------------------------------------ the whole graph

  /** IDs are unique, every declared dependency resolves, and nothing is on a cycle. */
  ghost predicate WellFormed(g: Graph) {
    && (forall i :: 0 <= i < |g| && g[i].id != "" ==> OnlyHolder(g, g[i].id, i))
    && (forall i, d :: 0 <= i < |g| && d in g[i].dependsOn ==> Referenced(g, d).Ok?)
    && (forall id :: !ReachPlus(g, id, id))
  }

  lemma ResolvesTo(g: Graph, id: string, i: nat)
    requires i < |g| && id != "" && OnlyHolder(g, id, i)
    ensures Referenced(g, id) == Ok(i)
  {
  }

  /** Only IDs and the sets of dependencies shape the graph. */
  ghost predicate SameShape(g: Graph, h: Graph) {
    && |g| == |h|
    && forall i :: 0 <= i < |g| ==> g[i].id == h[i].id && forall d :: d in g[i].dependsOn <==> d in h[i].dependsOn
  }

  ghost predicate SameEdges(g: Graph, h: Graph) {
    forall x, y :: y in Edges(g, x) <==> y in Edges(h, x)
  }

  lemma SameShapeReferenced(g: Graph, h: Graph, id: string)
    requires SameShape(g, h)
    ensures Referenced(g, id) == Referenced(h, id)
    ensures forall y :: y in Edges(g, id) <==> y in Edges(h, id)
  {
    SameShapeFind(g, h, id, 0);
    if FindFrom(g, id, 0).Some? {
      SameShapeFind(g, h, id, FindFrom(g, id, 0).value + 1);
    }
  }

  lemma {:induction false} SameShapeFind(g: Graph, h: Graph, id: string, start: nat)
    requires SameShape(g, h) && start <= |g|
    ensures FindFrom(g, id, start) == FindFrom(h, id, start)
    decreases |g| - start
  {
    if start < |g| && !(g[start].id == id && id != "") {
      SameShapeFind(g, h, id, start + 1);
    }
  }

  lemma SameEdgesReach(g: Graph, h: Graph, a: string, b: string)
    requires SameEdges(g, h) && Reach(g, a, b)
    ensures Reach(h, a, b)
  {
    var p :| PathBetween(g, p, a, b);
    assert PathBetween(h, p, a, b);
  }

  lemma SameEdgesCycle(g: Graph, h: Graph, a: string)
    requires SameEdges(g, h) && ReachPlus(g, a, a)
    ensures ReachPlus(h, a, a)
  {
    var c :| c in Edges(g, a) && Reach(g, c, a);
    SameEdgesReach(g, h, c, a);
    assert c in Edges(h, a);
  }

  lemma SameShapeSound(g: Graph, h: Graph, i: nat)
    requires SameShape(g, h) && i < |g| && TaskSound(g, i)
    ensures TaskSound(h, i)
  {
    forall x ensures Referenced(g, x) == Referenced(h, x) && forall y :: y in Edges(g, x) <==> y in Edges(h, x) {
      SameShapeReferenced(g, h, x);
    }
    assert SameEdges(g, h) && SameEdges(h, g);
    forall d | d in Starts(h, i) ensures Sound(h, d) {
      assert d in Starts(g, i);
      forall b | Reach(h, d, b) ensures Referenced(h, b).Ok? && !ReachPlus(h, b, b) {
        SameEdgesReach(h, g, d, b);
        assert Sound(g, d);
        if ReachPlus(h, b, b) {
          SameEdgesCycle(h, g, b);
        }
      }
    }
  }

  /** An edit of one task moves no other task's edges. */
  lemma EditKeepsOtherEdges(g: Graph, i: nat, n: Spec, x: string)
    requires i < |g| && WellFormed(g) && x != n.id
    requires n.id != "" && (g[i].id == n.id || (g[i].id == "" && n.id !in Ids(g)))
    ensures Referenced(g[i := n], x).Ok? <==> Referenced(g, x).Ok?
    ensures Edges(g[i := n], x) == Edges(g, x)
  {
    var h := g[i := n];
    if Referenced(g, x).Ok? {
      var k := Referenced(g, x).value;
      assert k != i && OnlyHolder(h, x, k);
      ResolvesTo(h, x, k);
    }
    if Referenced(h, x).Ok? {
      var k := Referenced(h, x).value;
      assert k != i && OnlyHolder(g, x, k);
      ResolvesTo(g, x, k);
    }
  }

  /** A path that never leaves the edited task is a path of the graph before the edit. */
  lemma PathAvoiding(g: Graph, h: Graph, id: string, p: seq<string>)
    requires IsPath(h, p) && forall k :: 0 <= k < |p| - 1 ==> p[k] != id
    requires forall x :: x != id ==> Edges(h, x) == Edges(g, x)
    ensures IsPath(g, p)
  {
    forall k | 0 <= k < |p| - 1 ensures p[k + 1] in Edges(g, p[k]) {
      assert p[k] != id;
    }
  }

  lemma CycleMeetsEditOrOld(g: Graph, h: Graph, id: string, b: string)
    requires ReachPlus(h, b, b)
    requires forall x :: x != id ==> Edges(h, x) == Edges(g, x)
    ensures Reach(h, id, b) || ReachPlus(g, b, b)
  {
    var c :| c in Edges(h, b) && Reach(h, c, b);
    var p :| PathBetween(h, p, c, b);
    if b == id {
      ReachSelf(h, b);
    } else if k :| 0 <= k < |p| && p[k] == id {
      PathSuffix(h, p, k);
    } else {
      PathAvoiding(g, h, id, p);
      assert PathBetween(g, p, c, b);
    }
  }

  /** Checking the edited task is enough for the whole graph. */
  lemma EditedTaskSuffices(g: Graph, i: nat, n: Spec)
    requires i < |g| && WellFormed(g)
    requires n.id != "" && (g[i].id == n.id || (g[i].id == "" && n.id !in Ids(g)))
    requires TaskSound(g[i := n], i)
    ensures WellFormed(g[i := n])
  {
    var h := g[i := n];
    assert Starts(h, i) == [n.id];
    assert Sound(h, n.id);
    ReachSelf(h, n.id);
    forall x | x != n.id
      ensures Edges(h, x) == Edges(g, x) && (Referenced(h, x).Ok? <==> Referenced(g, x).Ok?)
    {
      EditKeepsOtherEdges(g, i, n, x);
    }
    forall k | 0 <= k < |h| && h[k].id != "" ensures OnlyHolder(h, h[k].id, k) {
      if k != i {
        assert OnlyHolder(g, g[k].id, k);
      }
    }
    ResolvesTo(h, n.id, i);
    forall k, d | 0 <= k < |h| && d in h[k].dependsOn ensures Referenced(h, d).Ok? {
      if k == i {
        ReachEdge(h, n.id, d);
      } else if d != n.id {
        assert d in g[k].dependsOn;
      }
    }
    forall b ensures !ReachPlus(h, b, b) {
      if ReachPlus(h, b, b) {
        CycleMeetsEditOrOld(g, h, n.id, b);
      }
    }
  }

  /** A run of successful updates, whatever their order and arguments. */
  ghost predicate IsUpdateRun(run: seq<Graph>) {
    |run| >= 1 && forall k :: 0 <= k < |run| - 1 ==> UpdateOf(run[k], run[k + 1])
  }

  ghost predicate EditOf(g: Graph, h: Graph, i: nat, n: Spec) {
    && i < |g| && h == g[i := n] && TaskSound(h, i)
    && n.id != "" && (g[i].id == n.id || (g[i].id == "" && n.id !in Ids(g)))
  }

  ghost predicate UpdateOf(g: Graph, h: Graph) {
    exists i, n :: EditOf(g, h, i, n)
  }

  /** Every successful update is such an edit, provided the new ID really is new. */
  lemma UpdateIsEdit(rd: Reading, env: Surroundings, u: Update, s: Snapshot, i: nat)
    requires i < |s.tasks| && Acceptable(rd, env, s, i, u)
    requires env.freshId != "" && env.freshId !in Ids(Specs(s))
    ensures UpdateOf(Specs(s), Specs(Rewritten(rd, env, s, i, u)))
  {
    var edited := Edited(rd, env, s, i, u);
    var written := edited.(content := env.compose(edited).value);
    var h := Specs(s)[i := written];
    assert Specs(Rewritten(rd, env, s, i, u)) == h;
    SameShapeSound(RevisedGraph(env, s, i, u), h, i);
    assert EditOf(Specs(s), h, i, written);
  }

  lemma {:induction false} UpdatesKeepGraphWellFormed(run: seq<Graph>, k: nat)
    requires IsUpdateRun(run) && WellFormed(run[0]) && k < |run|
    ensures WellFormed(run[k])
  {
    if k > 0 {
      UpdatesKeepGraphWellFormed(run, k - 1);
      assert UpdateOf(run[k - 1], run[k - 1 + 1]);
      var i, n :| EditOf(run[k - 1], run[k], i, n);
      EditedTaskSuffices(run[k - 1], i, n);
    }
  }

  /** In a well-formed graph the wait list never reports a dependency error. */
  lemma WellFormedMeansTaskSound(g: Graph, i: nat)
    requires i < |g| && WellFormed(g)
    ensures TaskSound(g, i)
  {
    forall d | d in Starts(g, i) ensures Sound(g, d) {
      if g[i].id != "" {
        assert OnlyHolder(g, d, i);
      }
      assert Referenced(g, d).Ok?;
      forall b | Reach(g, d, b) ensures Referenced(g, b).Ok? {
        var p :| PathBetween(g, p, d, b);
        if |p| > 1 {
          assert p[|p| - 2 + 1] in Edges(g, p[|p| - 2]);
        }
      }
    }
  }

  /** A recorded review is the one the overlap verdict reads back, as long as the
      stamped renderings still stand. */
  lemma RecordedReviewIsRead(rd: Reading, env: Surroundings, s: Snapshot, i: nat, u: Update, written: Spec)
    requires i < |s.tasks| && Acceptable(rd, env, s, i, u) && u.review.Some?
    requires written.reviews == Edited(rd, env, s, i, u).reviews
    requires rd.render(written) == rd.render(RevisedSpec(s.tasks[i].spec, u, env.freshId))
    ensures var peer := Referenced(RevisedGraph(env, s, i, u), u.review.value.other).value;
            var read := ReviewOf(rd, written, s.tasks[peer].spec);
            && read.Some? && read.value.compatible == u.review.value.compatible
            && read.value.reason == u.review.value.reason
  {
    var a, revised := u.review.value, RevisedSpec(s.tasks[i].spec, u, env.freshId);
    var peer := Referenced(RevisedGraph(env, s, i, u), a.other).value;
    var stamp := Evidence(rd, revised, s.tasks[peer].spec);
    FirstReviewSkips(WithoutReviewsOf(revised.reviews, a.other), Review(a.other, stamp, a.compatible, a.reason), stamp);
  }

  lemma {:induction false} FirstReviewSkips(kept: seq<Review>, last: Review, stamp: seq<string>)
    requires forall v :: v in kept ==> v.other != last.other
    requires last.evidence == stamp
    ensures FirstReview(kept + [last], last.other, stamp) == Some(last)
  {
    if kept != [] {
      assert (kept + [last])[1..] == kept[1..] + [last];
      assert kept[0] in kept;
      FirstReviewSkips(kept[1..], last, stamp);
    }
  }
}
