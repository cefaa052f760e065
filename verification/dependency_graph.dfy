/** The dependency graph behind task admission: resolving a stable ID, the
    depth-first check with its shared memo, and transitive reachability. */
module DependencyGraph {
  import opened Outcome

  /** What a task declares: the part of a board entry that moves never change. */
  datatype Spec = Spec(
    id: string,
    dependsOn: seq<string>,
    scope: Scope,
    reviews: seq<Review>,
    content: string,
    error: Option<string>)

  datatype Scope = Scope(
    files: seq<string>,
    modules: seq<string>,
    interfaces: seq<string>,
    resources: seq<string>,
    behavior: map<string, string>)

  datatype Review = Review(other: string, evidence: seq<string>, compatible: bool, reason: string)

  type Graph = seq<Spec>

  datatype DependencyError =
    | Missing(at: string)
    | Duplicate(at: string)
    | Cycle(path: seq<string>, at: string)

  // ---------------------------------------------------------------- resolving

  /** The first task at or after `start` carrying `id`; an empty ID names nothing. */
  function FindFrom(g: Graph, id: string, start: nat): (r: Option<nat>)
    requires start <= |g|
    ensures r.Some? ==> start <= r.value < |g| && g[r.value].id == id && id != ""
    ensures r.Some? ==> forall j :: start <= j < r.value ==> g[j].id != id
    ensures r.None? && id != "" ==> forall j :: start <= j < |g| ==> g[j].id != id
    decreases |g| - start
  {
    if start == |g| then None
    else if g[start].id == id && id != "" then Some(start)
    else FindFrom(g, id, start + 1)
  }

  function Referenced(g: Graph, id: string): (r: Result<nat, DependencyError>)
    ensures r.Ok? <==> id != "" && exists i :: 0 <= i < |g| && OnlyHolder(g, id, i)
    ensures r.Ok? ==> r.value < |g| && OnlyHolder(g, id, r.value)
    ensures r.Err? ==> r.error.at == id && !r.error.Cycle?
  {
    match FindFrom(g, id, 0)
    case None => Err(Missing(id))
    case Some(i) =>
      if FindFrom(g, id, i + 1).Some? then Err(Duplicate(id))
      else assert OnlyHolder(g, id, i); Ok(i)
  }

  ghost predicate OnlyHolder(g: Graph, id: string, i: int)
    requires 0 <= i < |g|
  {
    g[i].id == id && forall j :: 0 <= j < |g| && j != i ==> g[j].id != id
  }

  // --------------------------------------------------------------- reachability

  ghost function Edges(g: Graph, id: string): seq<string> {
    match Referenced(g, id)
    case Ok(i) => g[i].dependsOn
    case Err(_) => []
  }

  ghost predicate IsPath(g: Graph, p: seq<string>) {
    |p| >= 1 && forall i :: 0 <= i < |p| - 1 ==> p[i + 1] in Edges(g, p[i])
  }

  ghost predicate PathBetween(g: Graph, p: seq<string>, a: string, b: string) {
    IsPath(g, p) && p[0] == a && p[|p| - 1] == b
  }

  ghost predicate Reach(g: Graph, a: string, b: string) {
    exists p :: PathBetween(g, p, a, b)
  }

  /** At least one edge is taken, so `ReachPlus(g, a, a)` says `a` is on a cycle. */
  ghost predicate ReachPlus(g: Graph, a: string, b: string) {
    exists c :: c in Edges(g, a) && Reach(g, c, b)
  }

  /** Everything reachable from `a` resolves to one task and is on no cycle. */
  ghost predicate Sound(g: Graph, a: string) {
    forall b :: Reach(g, a, b) ==> Referenced(g, b).Ok? && !ReachPlus(g, b, b)
  }

  /** A task without an ID is no node of the graph: only its references count. */
  ghost function Starts(g: Graph, i: nat): seq<string>
    requires i < |g|
  {
    if g[i].id != "" then [g[i].id] else g[i].dependsOn
  }

  ghost predicate TaskSound(g: Graph, i: nat)
    requires i < |g|
  {
    forall d :: d in Starts(g, i) ==> Sound(g, d)
  }

  /** The reported error names something that really is wrong and reachable. */
  ghost predicate Witness(g: Graph, i: nat, e: DependencyError)
    requires i < |g|
  {
    && (exists d :: d in Starts(g, i) && Reach(g, d, e.at))
    && (if e.Cycle? then ReachPlus(g, e.at, e.at) else Referenced(g, e.at) == Err(e))
  }

  lemma ReachSelf(g: Graph, a: string)
    ensures Reach(g, a, a)
  {
    assert PathBetween(g, [a], a, a);
  }

  lemma ReachTransitive(g: Graph, a: string, b: string, c: string)
    requires Reach(g, a, b) && Reach(g, b, c)
    ensures Reach(g, a, c)
  {
    var p :| PathBetween(g, p, a, b);
    var q :| PathBetween(g, q, b, c);
    var r := p + q[1..];
    forall i | 0 <= i < |r| - 1 ensures r[i + 1] in Edges(g, r[i]) {
      if i >= |p| - 1 {
        assert r[i] == q[i - |p| + 1] && r[i + 1] == q[i - |p| + 2];
      }
    }
    assert PathBetween(g, r, a, c);
  }

  lemma ReachEdge(g: Graph, a: string, b: string)
    requires b in Edges(g, a)
    ensures Reach(g, a, b)
  {
    assert PathBetween(g, [a, b], a, b);
  }

  lemma ReachSplit(g: Graph, a: string, b: string)
    requires Reach(g, a, b)
    ensures a == b || ReachPlus(g, a, b)
  {
    var p :| PathBetween(g, p, a, b);
    if |p| > 1 {
      PathSuffix(g, p, 1);
      assert p[1] in Edges(g, p[0]);
    }
  }

  lemma ReachPlusReach(g: Graph, a: string, b: string)
    requires ReachPlus(g, a, b)
    ensures Reach(g, a, b)
  {
    var c :| c in Edges(g, a) && Reach(g, c, b);
    ReachEdge(g, a, c);
    ReachTransitive(g, a, c, b);
  }

  lemma SoundFromEdges(g: Graph, a: string)
    requires Referenced(g, a).Ok?
    requires forall d :: d in Edges(g, a) ==> Sound(g, d)
    ensures Sound(g, a)
  {
    forall c | c in Edges(g, a) && Reach(g, c, a) ensures !ReachPlus(g, a, a) {
      assert Sound(g, c);
    }
    forall b | Reach(g, a, b) ensures Referenced(g, b).Ok? && !ReachPlus(g, b, b) {
      ReachSplit(g, a, b);
    }
  }

  lemma PathSuffix(g: Graph, p: seq<string>, i: nat)
    requires IsPath(g, p) && i < |p|
    ensures Reach(g, p[i], p[|p| - 1])
  {
    var q := p[i..];
    forall k | 0 <= k < |q| - 1 ensures q[k + 1] in Edges(g, q[k]) {
      assert q[k] == p[i + k] && q[k + 1] == p[i + k + 1];
    }
    assert PathBetween(g, q, p[i], p[|p| - 1]);
  }

  lemma WitnessRefutes(g: Graph, i: nat, e: DependencyError)
    requires i < |g| && Witness(g, i, e)
    ensures !TaskSound(g, i)
  {
    var d :| d in Starts(g, i) && Reach(g, d, e.at);
    assert !Sound(g, d);
  }

  // ------------------------------------------------------------------- the check

  function Ids(g: Graph): set<string> {
    set i | 0 <= i < |g| :: g[i].id
  }

  function Elements(p: seq<string>): set<string> {
    set x | x in p
  }

  /** Depth-first check of one task. `path` holds the IDs being visited and comes
      back unchanged on success; `done` is the memo shared by all branches. */
  method Visit(g: Graph, i: nat, path: seq<string>, done: set<string>)
    returns (r: Result<(), DependencyError>, path': seq<string>, done': set<string>)
    requires i < |g|
    requires g[i].id == "" ==> path == []
    requires Elements(path) <= Ids(g)
    requires path != [] ==> IsPath(g, path) && g[i].id in Edges(g, path[|path| - 1])
    requires forall d :: d in done ==> Sound(g, d)
    ensures forall d :: d in done' ==> Sound(g, d)
    ensures r.Ok? ==> TaskSound(g, i) && path' == path
    ensures r.Err? ==> Witness(g, i, r.error)
    decreases Ids(g) - Elements(path), if g[i].id == "" then 1 else 0
  {
    var id := g[i].id;
    path', done' := path, done;
    if id != "" {
      ReachSelf(g, id);
      var own := Referenced(g, id);
      if own.Err? {
        return Err(own.error), path', done';
      }
      if id in path {
        CycleClosed(g, path, id);
        return Err(Cycle(path, id)), path', done';
      }
      if id in done {
        return Ok(()), path', done';
      }
      path' := path + [id];
      assert Elements(path') == Elements(path) + {id};
      PathExtends(g, path, id);
    }
    var inner := path';
    for k := 0 to |g[i].dependsOn|
      invariant path' == inner
      invariant forall d :: d in done' ==> Sound(g, d)
      invariant forall j :: 0 <= j < k ==> Sound(g, g[i].dependsOn[j])
    {
      var d := g[i].dependsOn[k];
      var next := Referenced(g, d);
      StartReaches(g, i, d);
      if next.Err? {
        return Err(next.error), path', done';
      }
      var outcome;
      outcome, path', done' := Visit(g, next.value, path', done');
      if outcome.Err? {
        StartReachesVia(g, i, d, outcome.error);
        return Err(outcome.error), path', done';
      }
      assert Starts(g, next.value) == [d];
      assert Sound(g, d);
    }
    if id != "" {
      SoundFromEdges(g, id);
      path' := path'[..|path'| - 1];
      done' := done' + {id};
    }
    r := Ok(());
  }

  /** The check as its callers start it: nothing on the path, nothing memoised. */
  method Check(g: Graph, i: nat) returns (r: Result<(), DependencyError>)
    requires i < |g|
    ensures r.Ok? <==> TaskSound(g, i)
    ensures r.Err? ==> Witness(g, i, r.error)
  {
    var path, done;
    r, path, done := Visit(g, i, [], {});
    if r.Err? {
      WitnessRefutes(g, i, r.error);
    }
  }

  lemma CycleClosed(g: Graph, path: seq<string>, id: string)
    requires IsPath(g, path) && id in Edges(g, path[|path| - 1]) && id in path
    ensures ReachPlus(g, id, id)
  {
    var k :| 0 <= k < |path| && path[k] == id;
    PathSuffix(g, path, k);
    ReachEdge(g, path[|path| - 1], id);
    ReachTransitive(g, id, path[|path| - 1], id);
    ReachSplit(g, id, path[|path| - 1]);
    if ReachPlus(g, id, path[|path| - 1]) {
      var c :| c in Edges(g, id) && Reach(g, c, path[|path| - 1]);
      ReachTransitive(g, c, path[|path| - 1], id);
    } else {
      ReachSelf(g, id);
    }
  }

  lemma PathExtends(g: Graph, path: seq<string>, id: string)
    requires path != [] ==> IsPath(g, path) && id in Edges(g, path[|path| - 1])
    ensures IsPath(g, path + [id])
  {
  }

  lemma StartReaches(g: Graph, i: nat, d: string)
    requires i < |g| && d in g[i].dependsOn
    requires g[i].id != "" ==> Referenced(g, g[i].id).Ok?
    ensures exists s :: s in Starts(g, i) && Reach(g, s, d)
  {
    if g[i].id != "" {
      assert Edges(g, g[i].id) == g[i].dependsOn;
      ReachEdge(g, g[i].id, d);
      assert g[i].id in Starts(g, i);
    } else {
      ReachSelf(g, d);
      assert d in Starts(g, i);
    }
  }

  lemma StartReachesVia(g: Graph, i: nat, d: string, e: DependencyError)
    requires i < |g| && d in g[i].dependsOn
    requires g[i].id != "" ==> Referenced(g, g[i].id).Ok?
    requires Referenced(g, d).Ok? && Witness(g, Referenced(g, d).value, e)
    ensures Witness(g, i, e)
  {
    StartReaches(g, i, d);
    var s :| s in Starts(g, i) && Reach(g, s, d);
    ReachTransitive(g, s, d, e.at);
  }

  // ------------------------------------------------------- transitive dependency

  function Mentioned(g: Graph): set<string> {
    set i, d | 0 <= i < |g| && d in g[i].dependsOn :: d
  }

  ghost predicate DependsTransitively(g: Graph, dependencies: seq<string>, id: string) {
    exists d :: d in dependencies && Reach(g, d, id)
  }

  /** Every member other than those of `outside` avoids `id` and keeps its edges inside. */
  ghost predicate ClosedAway(g: Graph, inside: set<string>, outside: set<string>, id: string) {
    forall d :: d in inside && d !in outside ==> d != id && forall e :: e in Edges(g, d) ==> e in inside
  }

  lemma {:induction false} ClosedNeverReaches(g: Graph, closed: set<string>, id: string, p: seq<string>, k: nat)
    requires ClosedAway(g, closed, {}, id)
    requires IsPath(g, p) && p[0] in closed && k < |p|
    ensures p[k] in closed && p[k] != id
  {
    if k > 0 {
      ClosedNeverReaches(g, closed, id, p, k - 1);
    }
  }

  /** `seen` prunes shared subgraphs and breaks cycles, as in the source. */
  method SearchDependency(g: Graph, dependencies: seq<string>, id: string, seen: set<string>)
    returns (found: bool, seen': set<string>)
    requires Elements(dependencies) <= Mentioned(g)
    ensures found ==> DependsTransitively(g, dependencies, id)
    ensures seen <= seen'
    ensures !found ==> forall d :: d in dependencies ==> d != id && d in seen'
    ensures !found ==> ClosedAway(g, seen', seen, id)
    decreases Mentioned(g) - seen
  {
    seen' := seen;
    for k := 0 to |dependencies|
      invariant seen <= seen'
      invariant forall j :: 0 <= j < k ==> dependencies[j] != id && dependencies[j] in seen'
      invariant ClosedAway(g, seen', seen, id)
    {
      var d := dependencies[k];
      if d == id {
        ReachSelf(g, d);
        return true, seen';
      }
      if d !in seen' {
        var before := seen';
        assert d in Elements(dependencies);
        seen' := seen' + {d};
        var next := Referenced(g, d);
        if next.Ok? {
          var deeper;
          assert g[next.value].dependsOn == Edges(g, d);
          deeper, seen' := SearchDependency(g, g[next.value].dependsOn, id, seen');
          if deeper {
            EdgeThenReach(g, d, id);
            return true, seen';
          }
        }
      }
    }
    found := false;
  }

  lemma EdgeThenReach(g: Graph, d: string, id: string)
    requires DependsTransitively(g, Edges(g, d), id)
    ensures Reach(g, d, id)
  {
    assert ReachPlus(g, d, id);
    ReachPlusReach(g, d, id);
  }

  method DependsOn(g: Graph, i: nat, id: string) returns (found: bool)
    requires i < |g|
    ensures found <==> DependsTransitively(g, g[i].dependsOn, id)
  {
    var seen: set<string>;
    found, seen := SearchDependency(g, g[i].dependsOn, id, {});
    if !found && DependsTransitively(g, g[i].dependsOn, id) {
      ghost var d :| d in g[i].dependsOn && Reach(g, d, id);
      ghost var p :| PathBetween(g, p, d, id);
      ClosedNeverReaches(g, seen, id, p, |p| - 1);
      assert false;
    }
  }
}
