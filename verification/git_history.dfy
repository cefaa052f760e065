/** Commits as immutable records and the search for the one commit that finishes
    a task: completion evidence in trees, first-parent ranges, sealed manifests. */
module GitHistory {
  import opened BoardStatus
  import opened Outcome

  /** A commit is named by its position; parents always come earlier, so history only grows. */
  type Oid = nat

  /** One task of a committed board: the session markers its text carries, the
      marker at its end, and the readings of its text the proofs rely on. */
  datatype ProofEntry = ProofEntry(
    status: Status,
    markers: seq<string>,
    terminal: Option<string>,
    completedNote: bool,
    identity: Option<string>)

  datatype Commit = Commit(parents: seq<Oid>, tree: nat, trailers: seq<string>, agentIdentity: bool, entries: seq<ProofEntry>)

  type History = seq<Commit>

  ghost predicate ValidHistory(h: History) {
    forall i, k :: 0 <= i < |h| && 0 <= k < |h[i].parents| ==> h[i].parents[k] < i
  }

  // ---------------------------------------------------------- completion evidence

  function Occurrences(markers: seq<string>, session: string): nat {
    if markers == [] then 0
    else (if markers[0] == session then 1 else 0) + Occurrences(markers[1..], session)
  }

  function MarkerCount(entries: seq<ProofEntry>, session: string): nat {
    if entries == [] then 0
    else MarkerCount(entries[..|entries| - 1], session) + Occurrences(entries[|entries| - 1].markers, session)
  }

  predicate FinishedEntry(e: ProofEntry, session: string) {
    Occurrences(e.markers, session) == 1 && e.terminal == Some(session) && e.status == Done && e.completedNote
  }

  /** The session is marked once in the whole board, on a finished task of this identity. */
  ghost predicate Completes(entries: seq<ProofEntry>, session: string, task: string) {
    && MarkerCount(entries, session) == 1
    && exists k :: 0 <= k < |entries| && FinishedEntry(entries[k], session) && entries[k].identity == Some(task)
  }

  ghost predicate HasCompleted(entries: seq<ProofEntry>, session: string) {
    exists task :: Completes(entries, session, task)
  }

  lemma {:induction false} MarkerCountAtLeast(entries: seq<ProofEntry>, session: string, k: nat)
    requires k < |entries|
    ensures MarkerCount(entries, session) >= Occurrences(entries[k].markers, session)
    ensures forall j :: 0 <= j < |entries| && j != k ==>
              MarkerCount(entries, session) >= Occurrences(entries[k].markers, session) + Occurrences(entries[j].markers, session)
  {
    var last := |entries| - 1;
    if k < last {
      MarkerCountAtLeast(entries[..last], session, k);
      assert forall j :: 0 <= j < last ==> entries[..last][j] == entries[j];
    } else {
      forall j | 0 <= j < last
        ensures MarkerCount(entries[..last], session) >= Occurrences(entries[j].markers, session)
      {
        MarkerCountAtLeast(entries[..last], session, j);
      }
    }
  }

  /** One session finishes at most one task identity in one tree. */
  lemma CompletesIsUnique(entries: seq<ProofEntry>, session: string, one: string, other: string)
    requires Completes(entries, session, one) && Completes(entries, session, other)
    ensures one == other
  {
    var i :| 0 <= i < |entries| && FinishedEntry(entries[i], session) && entries[i].identity == Some(one);
    var j :| 0 <= j < |entries| && FinishedEntry(entries[j], session) && entries[j].identity == Some(other);
    MarkerCountAtLeast(entries, session, i);
  }

  method CompletedIdentity(entries: seq<ProofEntry>, session: string) returns (r: Option<string>)
    ensures forall task :: r == Some(task) <==> Completes(entries, session, task)
  {
    var markerCount, matches := 0, 0;
    r := None;
    ghost var at := 0;
    for k := 0 to |entries|
      invariant markerCount == MarkerCount(entries[..k], session)
      invariant matches == 0 <==> forall j :: 0 <= j < k ==> !FinishedEntry(entries[j], session)
      invariant matches >= 1 ==> at < k && FinishedEntry(entries[at], session) && r == entries[at].identity
      invariant matches >= 2 ==> markerCount >= 2
    {
      var found := Occurrences(entries[k].markers, session);
      assert entries[..k + 1][..k] == entries[..k];
      if matches >= 1 {
        MarkerCountAtLeast(entries[..k], session, at);
      }
      markerCount := markerCount + found;
      if FinishedEntry(entries[k], session) {
        matches := matches + 1;
        if matches == 1 {
          r := entries[k].identity;
          at := k;
        }
      }
    }
    assert entries[..|entries|] == entries;
    if markerCount != 1 || matches != 1 {
      r := None;
    } else if r.Some? {
      assert Completes(entries, session, r.value);
    }
    forall task | Completes(entries, session, task) ensures r == Some(task) {
      var j :| 0 <= j < |entries| && FinishedEntry(entries[j], session) && entries[j].identity == Some(task);
      if j != at {
        MarkerCountAtLeast(entries, session, j);
      }
    }
  }

  predicate ActiveEntry(e: ProofEntry, task: string) {
    e.status in {Todo, Doing} && e.identity == Some(task)
  }

  function ActiveCount(entries: seq<ProofEntry>, task: string): nat {
    if entries == [] then 0
    else ActiveCount(entries[1..], task) + (if ActiveEntry(entries[0], task) then 1 else 0)
  }

  // --------------------------------------------------------------------- ancestry

  predicate Ancestor(h: History, a: Oid, d: Oid)
    requires ValidHistory(h) && d < |h|
    decreases d
  {
    a == d || exists k :: 0 <= k < |h[d].parents| && Ancestor(h, a, h[d].parents[k])
  }

  /** The first-parent line from `d`, newest first. */
  function Chain(h: History, d: Oid): (r: seq<Oid>)
    requires ValidHistory(h) && d < |h|
    ensures forall c :: c in r ==> c <= d
    decreases d
  {
    [d] + (if h[d].parents == [] then [] else Chain(h, h[d].parents[0]))
  }

  /** First-parent commits of `tip` that are no ancestors of `start`, oldest first. */
  function Range(h: History, start: Oid, tip: Oid): (r: seq<Oid>)
    requires ValidHistory(h) && start < |h| && tip < |h|
    ensures forall c :: c in r ==> c <= tip && !Ancestor(h, c, start)
    decreases tip
  {
    (if h[tip].parents == [] then [] else Range(h, start, h[tip].parents[0]))
    + (if Ancestor(h, tip, start) then [] else [tip])
  }

  lemma {:induction false} AncestorIsOlder(h: History, a: Oid, d: Oid)
    requires ValidHistory(h) && d < |h| && Ancestor(h, a, d)
    ensures a <= d
    decreases d
  {
    if a != d {
      var k :| 0 <= k < |h[d].parents| && Ancestor(h, a, h[d].parents[k]);
      AncestorIsOlder(h, a, h[d].parents[k]);
    }
  }

  lemma {:induction false} AncestorTransitive(h: History, a: Oid, b: Oid, c: Oid)
    requires ValidHistory(h) && c < |h| && b < |h| && Ancestor(h, a, b) && Ancestor(h, b, c)
    ensures Ancestor(h, a, c)
    decreases c
  {
    if b != c {
      var k :| 0 <= k < |h[c].parents| && Ancestor(h, b, h[c].parents[k]);
      AncestorTransitive(h, a, b, h[c].parents[k]);
    }
  }

  lemma {:induction false} ChainIsAncestor(h: History, a: Oid, d: Oid)
    requires ValidHistory(h) && d < |h| && a in Chain(h, d)
    ensures Ancestor(h, a, d)
    decreases d
  {
    if a != d {
      ChainIsAncestor(h, a, h[d].parents[0]);
    }
  }

  /** The commits of a first-parent line above `start`; the plain reading of the range. */
  function Above(h: History, start: Oid, tip: Oid): (r: seq<Oid>)
    requires ValidHistory(h) && tip < |h| && start in Chain(h, tip)
    ensures r == [] <==> start == tip
    ensures Known(h, r)
    decreases tip
  {
    if tip == start then [] else Above(h, start, h[tip].parents[0]) + [tip]
  }

  lemma {:induction false} RangeOfAncestorsIsEmpty(h: History, start: Oid, tip: Oid)
    requires ValidHistory(h) && start < |h| && tip < |h| && Ancestor(h, tip, start)
    ensures Range(h, start, tip) == []
    decreases tip
  {
    if h[tip].parents != [] {
      assert Ancestor(h, h[tip].parents[0], h[tip].parents[0]);
      assert Ancestor(h, h[tip].parents[0], tip);
      AncestorTransitive(h, h[tip].parents[0], tip, start);
      RangeOfAncestorsIsEmpty(h, start, h[tip].parents[0]);
    }
  }

  /** When `start` is on the line, excluding its ancestors excludes nothing above it. */
  lemma {:induction false} RangeIsAbove(h: History, start: Oid, tip: Oid)
    requires ValidHistory(h) && start < |h| && tip < |h| && start in Chain(h, tip)
    ensures Range(h, start, tip) == Above(h, start, tip)
    decreases tip
  {
    if tip == start {
      RangeOfAncestorsIsEmpty(h, start, tip);
    } else {
      RangeIsAbove(h, start, h[tip].parents[0]);
      ChainIsAncestor(h, start, tip);
      if Ancestor(h, tip, start) {
        AncestorIsOlder(h, tip, start);
      }
    }
  }

  lemma {:induction false} AboveParents(h: History, start: Oid, tip: Oid, k: nat)
    requires ValidHistory(h) && tip < |h| && start in Chain(h, tip) && k < |Above(h, start, tip)|
    ensures var a := Above(h, start, tip);
            a[k] < |h| && h[a[k]].parents != [] && h[a[k]].parents[0] == (if k == 0 then start else a[k - 1])
    ensures Above(h, start, tip)[k] > start
    decreases tip
  {
    var parent := h[tip].parents[0];
    if k < |Above(h, start, tip)| - 1 {
      AboveParents(h, start, parent, k);
    } else if k > 0 {
      assert Above(h, start, parent)[k - 1] == parent by { LastAbove(h, start, parent); }
      AboveParents(h, start, parent, k - 1);
    }
  }

  lemma LastAbove(h: History, start: Oid, tip: Oid)
    requires ValidHistory(h) && tip < |h| && start in Chain(h, tip) && tip != start
    ensures Above(h, start, tip)[|Above(h, start, tip)| - 1] == tip
  {
  }

  // ------------------------------------------------------------ the commit search

  datatype Query = Query(session: string, task: string, legacy: bool)

  function Trailer(session: string): string { "codex:" + session }

  predicate Claims(h: History, c: Oid, session: string)
    requires c < |h|
  {
    Trailer(session) in h[c].trailers
  }

  ghost predicate TipEvidence(h: History, q: Query, tip: Oid)
    requires tip < |h|
  {
    && Completes(h[tip].entries, q.session, q.task)
    && (q.legacy ==> ActiveCount(h[tip].entries, q.task) == 0)
  }

  ghost predicate StartEvidence(h: History, q: Query, start: Oid)
    requires start < |h|
  {
    && (q.legacy ==> ActiveCount(h[start].entries, q.task) <= 1)
    && !HasCompleted(h[start].entries, q.session)
  }

  ghost predicate Qualifies(h: History, q: Query, start: Oid, c: Oid)
    requires c < |h|
  {
    && h[c].trailers == [Trailer(q.session)]
    && h[c].agentIdentity
    && TipEvidence(h, q, c)
    && h[c].parents == [start]
  }

  /** `c` is the proven finishing commit: all evidence holds, it is the first commit
      above the frozen parent, and no other commit of the range names the session. */
  ghost predicate Finishes(h: History, q: Query, start: Oid, tip: Oid, c: Oid)
    requires ValidHistory(h) && start < |h| && tip < |h|
  {
    && StartEvidence(h, q, start) && TipEvidence(h, q, tip) && start in Chain(h, tip)
    && SoleFirst(h, q, start, Above(h, start, tip), c)
  }

  ghost predicate SoleFirst(h: History, q: Query, start: Oid, range: seq<Oid>, c: Oid)
    requires Known(h, range)
  {
    && range != [] && c == range[0] && Qualifies(h, q, start, c)
    && forall i :: 0 < i < |range| ==> !Claims(h, range[i], q.session)
  }

  predicate Known(h: History, range: seq<Oid>) {
    forall i :: 0 <= i < |range| ==> range[i] < |h|
  }

  lemma OnlyFirstHasStart(h: History, start: Oid, tip: Oid, k: nat)
    requires ValidHistory(h) && tip < |h| && start in Chain(h, tip) && 0 < k < |Above(h, start, tip)|
    ensures h[Above(h, start, tip)[k]].parents != [start]
  {
    AboveParents(h, start, tip, k);
    AboveParents(h, start, tip, k - 1);
  }

  /** Walks the range once: the qualifying commits, and how many name the session. */
  method CollectCandidates(h: History, q: Query, start: Oid, tip: Oid)
    returns (candidates: seq<Oid>, sessionCommitCount: nat)
    requires ValidHistory(h) && start < |h| && tip < |h| && start in Chain(h, tip)
    ensures var range := Above(h, start, tip);
            && candidates == (if range != [] && Qualifies(h, q, start, range[0]) then [range[0]] else [])
            && sessionCommitCount == ClaimCount(h, range, q.session)
  {
    RangeIsAbove(h, start, tip);
    var revisions := Range(h, start, tip);
    candidates, sessionCommitCount := [], 0;
    for k := 0 to |revisions|
      invariant sessionCommitCount == ClaimCount(h, revisions[..k], q.session)
      invariant candidates == if k > 0 && Qualifies(h, q, start, revisions[0]) then [revisions[0]] else []
    {
      if k > 0 {
        OnlyFirstHasStart(h, start, tip, k);
      }
      var commit := revisions[k];
      ClaimCountGrows(h, revisions, k, q.session);
      if Claims(h, commit, q.session) {
        sessionCommitCount := sessionCommitCount + 1;
      }
      var evidence := CommitEvidence(h, q, commit);
      if !evidence || h[commit].parents != [start] {
        continue;
      }
      assert Qualifies(h, q, start, commit);
      candidates := candidates + [commit];
    }
    assert revisions[..|revisions|] == revisions;
  }

  /** `tipAgain` is what the branch resolves to when the search is over. */
  method FindTaskCommit(h: History, q: Query, start: Oid, tip: Oid, tipAgain: Oid) returns (r: Option<Oid>)
    requires ValidHistory(h) && start < |h| && tip < |h|
    ensures forall c: Oid :: r == Some(c) <==> tipAgain == tip && Finishes(h, q, start, tip, c)
  {
    var guarded := SearchGuards(h, q, start, tip);
    if !guarded {
      return None;
    }
    var candidates, sessionCommitCount := CollectCandidates(h, q, start, tip);
    if candidates != [] {
      SoleClaim(h, Above(h, start, tip), q.session);
    }
    if |candidates| != 1 || sessionCommitCount != 1 || tipAgain != tip {
      return None;
    }
    r := Some(candidates[0]);
  }

  function ClaimCount(h: History, range: seq<Oid>, session: string): nat
    requires Known(h, range)
  {
    if range == [] then 0
    else
      var last := |range| - 1;
      ClaimCount(h, range[..last], session) + (if Claims(h, range[last], session) then 1 else 0)
  }

  lemma ClaimCountGrows(h: History, range: seq<Oid>, k: nat, session: string)
    requires Known(h, range) && k < |range|
    ensures ClaimCount(h, range[..k + 1], session) ==
            ClaimCount(h, range[..k], session) + (if Claims(h, range[k], session) then 1 else 0)
  {
    assert range[..k + 1][..k] == range[..k];
  }

  lemma {:induction false} SoleClaim(h: History, range: seq<Oid>, session: string)
    requires Known(h, range) && range != [] && Claims(h, range[0], session)
    ensures ClaimCount(h, range, session) >= 1
    ensures ClaimCount(h, range, session) == 1 <==> forall i :: 0 < i < |range| ==> !Claims(h, range[i], session)
  {
    var last := |range| - 1;
    if last > 0 {
      SoleClaim(h, range[..last], session);
      assert forall i :: 0 <= i < last ==> range[..last][i] == range[i];
    }
  }

  method SearchGuards(h: History, q: Query, start: Oid, tip: Oid) returns (ok: bool)
    requires ValidHistory(h) && start < |h| && tip < |h|
    ensures ok <==> StartEvidence(h, q, start) && TipEvidence(h, q, tip) && start in Chain(h, tip)
  {
    var startingCount := ActiveCount(h[start].entries, q.task);
    var atTip := CompletedIdentity(h[tip].entries, q.session);
    if || (q.legacy && startingCount > 1)
       || start !in Chain(h, tip)
       || atTip != Some(q.task)
       || (q.legacy && ActiveCount(h[tip].entries, q.task) > 0)
    {
      return false;
    }
    var atStart := CompletedIdentity(h[start].entries, q.session);
    assert atStart.Some? <==> HasCompleted(h[start].entries, q.session) by {
      if atStart.Some? {
        assert Completes(h[start].entries, q.session, atStart.value);
      }
    }
    ok := atStart.None?;
  }

  method CommitEvidence(h: History, q: Query, c: Oid) returns (ok: bool)
    requires c < |h|
    ensures ok <==> h[c].trailers == [Trailer(q.session)] && h[c].agentIdentity && TipEvidence(h, q, c)
  {
    var completed := CompletedIdentity(h[c].entries, q.session);
    ok := !(|| |h[c].trailers| != 1
            || h[c].trailers[0] != Trailer(q.session)
            || !h[c].agentIdentity
            || completed != Some(q.task)
            || (q.legacy && ActiveCount(h[c].entries, q.task) > 0));
  }

  // ------------------------------------------------- history grows, answers stand

  lemma {:induction false} GrowthKeepsAncestors(h: History, h': History, a: Oid, d: Oid)
    requires ValidHistory(h) && ValidHistory(h') && h <= h' && d < |h|
    ensures Ancestor(h, a, d) <==> Ancestor(h', a, d)
    ensures Chain(h, d) == Chain(h', d)
    decreases d
  {
    assert h[d] == h'[d];
    forall k | 0 <= k < |h[d].parents|
      ensures Ancestor(h, a, h[d].parents[k]) <==> Ancestor(h', a, h[d].parents[k])
      ensures Chain(h, h[d].parents[k]) == Chain(h', h[d].parents[k])
    {
      GrowthKeepsAncestors(h, h', a, h[d].parents[k]);
    }
  }

  lemma {:induction false} GrowthKeepsAbove(h: History, h': History, start: Oid, tip: Oid)
    requires ValidHistory(h) && ValidHistory(h') && h <= h' && tip < |h| && start in Chain(h, tip)
    ensures start in Chain(h', tip) && Above(h, start, tip) == Above(h', start, tip)
    decreases tip
  {
    GrowthKeepsAncestors(h, h', start, tip);
    assert h[tip] == h'[tip];
    if tip != start {
      GrowthKeepsAbove(h, h', start, h[tip].parents[0]);
    }
  }

  /** Commits made later, wherever they sit, never change the answer for an old tip. */
  lemma GrowthKeepsAnswer(h: History, h': History, q: Query, start: Oid, tip: Oid, c: Oid)
    requires ValidHistory(h) && ValidHistory(h') && h <= h' && start < |h| && tip < |h|
    ensures Finishes(h, q, start, tip, c) <==> Finishes(h', q, start, tip, c)
  {
    GrowthKeepsAncestors(h, h', start, tip);
    assert h[tip] == h'[tip] && h[start] == h'[start];
    if start in Chain(h, tip) {
      GrowthKeepsAbove(h, h', start, tip);
      var range := Above(h, start, tip);
      assert forall i :: 0 <= i < |range| ==> h[range[i]] == h'[range[i]];
    }
  }

  lemma {:induction false} ChainComposes(h: History, start: Oid, tip: Oid, later: Oid)
    requires ValidHistory(h) && later < |h| && tip in Chain(h, later) && start in Chain(h, tip)
    ensures start in Chain(h, later) && (tip != later ==> start != later)
    decreases later
  {
    if tip != later {
      ChainComposes(h, start, tip, h[later].parents[0]);
    }
  }

  lemma {:induction false} AboveComposes(h: History, start: Oid, tip: Oid, later: Oid)
    requires ValidHistory(h) && later < |h| && tip in Chain(h, later) && start in Chain(h, tip)
    ensures start in Chain(h, later)
    ensures Above(h, start, later) == Above(h, start, tip) + Above(h, tip, later)
    decreases later
  {
    ChainComposes(h, start, tip, later);
    if tip != later {
      var parent := h[later].parents[0];
      AboveComposes(h, start, tip, parent);
      assert Above(h, start, later) == Above(h, start, parent) + [later];
      assert Above(h, tip, later) == Above(h, tip, parent) + [later];
    } else {
      assert Above(h, tip, later) == [];
    }
  }

  lemma {:induction false} ChainsNest(h: History, a: Oid, b: Oid, tip: Oid)
    requires ValidHistory(h) && tip < |h| && a in Chain(h, tip) && b in Chain(h, tip)
    ensures a in Chain(h, b) || b in Chain(h, a)
    decreases tip
  {
    if a != tip && b != tip {
      ChainsNest(h, a, b, h[tip].parents[0]);
    }
  }

  ghost predicate Unclaimed(h: History, range: seq<Oid>, session: string)
    requires Known(h, range)
  {
    forall i :: 0 <= i < |range| ==> !Claims(h, range[i], session)
  }

  lemma UnclaimedTailChangesNothing(h: History, q: Query, start: Oid, range: seq<Oid>, added: seq<Oid>, c: Oid)
    requires Known(h, range) && Known(h, added) && Unclaimed(h, added, q.session)
    ensures SoleFirst(h, q, start, range, c) <==> SoleFirst(h, q, start, range + added, c)
  {
    if SoleFirst(h, q, start, range + added, c) {
      assert Claims(h, c, q.session);
      assert forall i :: 0 < i < |range| ==> (range + added)[i] == range[i];
    }
  }

  lemma UnclaimedRangeHasNoAnswer(h: History, q: Query, start: Oid, before: seq<Oid>, range: seq<Oid>, c: Oid)
    requires Known(h, before) && Known(h, range) && Unclaimed(h, before + range, q.session)
    ensures !SoleFirst(h, q, start, range, c)
  {
    if range != [] {
      assert (before + range)[|before|] == range[0];
    }
  }

  /** Unrelated commits may advance the branch afterwards: as long as they do not
      name the session and keep the evidence at the tip, the answer is unchanged. */
  lemma AdvancedTipKeepsAnswer(h: History, q: Query, start: Oid, tip: Oid, later: Oid, c: Oid)
    requires ValidHistory(h) && start < |h| && tip < |h| && later < |h|
    requires tip in Chain(h, later) && Unclaimed(h, Above(h, tip, later), q.session)
    requires TipEvidence(h, q, tip) <==> TipEvidence(h, q, later)
    ensures Finishes(h, q, start, tip, c) <==> Finishes(h, q, start, later, c)
  {
    if start in Chain(h, tip) {
      AboveComposes(h, start, tip, later);
      UnclaimedTailChangesNothing(h, q, start, Above(h, start, tip), Above(h, tip, later), c);
    } else if start in Chain(h, later) {
      ChainsNest(h, start, tip, later);
      AboveComposes(h, tip, start, later);
      UnclaimedRangeHasNoAnswer(h, q, start, Above(h, tip, start), Above(h, start, later), c);
    }
  }

  /** Both at once: the repository grew and the branch moved on. */
  lemma AppendedCommitsKeepAnswer(h: History, h': History, q: Query, start: Oid, tip: Oid, later: Oid, c: Oid)
    requires ValidHistory(h) && ValidHistory(h') && h <= h' && start < |h| && tip < |h| && later < |h'|
    requires tip in Chain(h', later) && Unclaimed(h', Above(h', tip, later), q.session)
    requires TipEvidence(h, q, tip) <==> TipEvidence(h', q, later)
    ensures Finishes(h, q, start, tip, c) <==> Finishes(h', q, start, later, c)
  {
    GrowthKeepsAnswer(h, h', q, start, tip, c);
    assert h[tip] == h'[tip];
    AdvancedTipKeepsAnswer(h', q, start, tip, later, c);
  }

  /** The commit found is kept by the branch whose tip proved it. */
  lemma FoundCommitIsOnBranch(h: History, q: Query, start: Oid, tip: Oid, c: Oid)
    requires ValidHistory(h) && start < |h| && tip < |h| && Finishes(h, q, start, tip, c)
    ensures Ancestor(h, c, tip) && start in Chain(h, c) && c > start
  {
    AboveParents(h, start, tip, 0);
    AboveInChain(h, start, tip, 0);
    ChainIsAncestor(h, c, tip);
    assert h[c].parents == [start];
    assert start in Chain(h, start);
  }

  lemma {:induction false} AboveInChain(h: History, start: Oid, tip: Oid, k: nat)
    requires ValidHistory(h) && tip < |h| && start in Chain(h, tip) && k < |Above(h, start, tip)|
    ensures Above(h, start, tip)[k] in Chain(h, tip)
    decreases tip
  {
    if k < |Above(h, start, tip)| - 1 {
      AboveInChain(h, start, h[tip].parents[0], k);
    }
  }

  // ---------------------------------------------------------- sealed manifests

  /** What a run froze before committing. Version one predates sealed manifests. */
  datatype Baseline = Baseline(version: nat, stagedPatches: Option<nat>, sealedTree: Option<nat>, manifestParent: Option<Oid>)

  ghost predicate MatchesManifest(h: History, c: Oid, b: Baseline, session: string, task: string)
    requires c < |h|
  {
    if b.stagedPatches.Some? && b.sealedTree.Some? then
      && |h[c].parents| == 1 && b.manifestParent == Some(h[c].parents[0])
      && h[c].tree == b.sealedTree.value
      && Completes(h[c].entries, session, task)
    else b.version == 1
  }

  method CommitMatchesManifest(h: History, c: Oid, b: Baseline, session: string, task: string) returns (ok: bool)
    requires c < |h|
    ensures ok <==> MatchesManifest(h, c, b, session, task)
  {
    if b.stagedPatches.None? || b.sealedTree.None? {
      return b.version == 1;
    }
    if |h[c].parents| != 1 || b.manifestParent != Some(h[c].parents[0]) {
      return false;
    }
    var completed := CompletedIdentity(h[c].entries, session);
    ok := h[c].tree == b.sealedTree.value && completed == Some(task);
  }

  /** The upstream tip publishes the commit with the completed task still in place. */
  ghost predicate UpstreamProves(h: History, upstreamTip: Oid, c: Oid, q: Query)
    requires ValidHistory(h) && upstreamTip < |h|
  {
    Ancestor(h, c, upstreamTip) && TipEvidence(h, q, upstreamTip)
  }

  ghost predicate Retained(h: History, tip: Oid, c: Oid, q: Query)
    requires ValidHistory(h) && tip < |h|
  {
    && Ancestor(h, c, tip) && Completes(h[tip].entries, q.session, q.task)
    && ActiveCount(h[tip].entries, q.task) == 0
  }

  /** The checkout as the retention check reads it; the branch is resolved twice. */
  datatype Checkout = Checkout(
    frozenBranch: Option<string>,
    headBranch: Option<string>,
    worktreeIdentity: Option<string>,
    tip: Oid,
    tipAgain: Oid)

  /** The frozen branch is checked out, did not move, and its files show the task done. */
  predicate Settled(w: Checkout, task: string) {
    && w.frozenBranch.Some? && w.headBranch == w.frozenBranch && w.worktreeIdentity == Some(task)
    && w.tipAgain == w.tip
  }

  method IsRetained(h: History, w: Checkout, c: Oid, q: Query) returns (ok: bool)
    requires ValidHistory(h) && w.tip < |h|
    ensures ok <==> Settled(w, q.task) && Retained(h, w.tip, c, q)
  {
    if w.frozenBranch.None? || w.headBranch != w.frozenBranch || w.worktreeIdentity != Some(q.task) {
      return false;
    }
    var completed := CompletedIdentity(h[w.tip].entries, q.session);
    if !Ancestor(h, c, w.tip) || completed != Some(q.task) || ActiveCount(h[w.tip].entries, q.task) > 0 {
      return false;
    }
    ok := w.tipAgain == w.tip;
  }

  /** What is searched for is also retained, wherever the active-task check applies and
      the checkout is settled; a commit found without a frozen branch never is. */
  lemma FoundCommitIsRetained(h: History, q: Query, start: Oid, w: Checkout, c: Oid)
    requires ValidHistory(h) && start < |h| && w.tip < |h| && Finishes(h, q, start, w.tip, c)
    ensures Settled(w, q.task) && Retained(h, w.tip, c, q)
            <==> Settled(w, q.task) && ActiveCount(h[w.tip].entries, q.task) == 0
    ensures q.legacy && Settled(w, q.task) ==> Retained(h, w.tip, c, q)
  {
    FoundCommitIsOnBranch(h, q, start, w.tip, c);
  }
}
