/** Runs of the whole finalization system: any number of reconcile calls working
    from snapshots that may be stale, every other writer, and a growing history. */
module JournalRuns {
  import opened BoardStatus
  import opened Outcome
  import opened GitHistory
  import opened GitJournal

  function QueryOf(j: Journal): Query
    requires j.identity.Some?
  {
    Query(j.session, j.identity.value, j.baseline.version == 1)
  }

  function ProofStart(j: Journal): Oid
    requires j.startingHead.Some?
  {
    if j.baseline.version >= 2 && j.baseline.manifestParent.Some? then j.baseline.manifestParent.value
    else j.startingHead.value
  }

  // ---------------------------------------------------------- what proofs establish

  ghost predicate FoundAt(h: History, j: Journal, tip: Oid, c: Oid) {
    && ValidHistory(h) && j.identity.Some? && j.startingHead.Some?
    && ProofStart(j) < |h| && tip < |h|
    && Finishes(h, QueryOf(j), ProofStart(j), tip, c)
  }

  ghost predicate SealedAs(h: History, j: Journal, c: Oid) {
    j.identity.Some? && c < |h| && Supported(j.baseline) && MatchesManifest(h, c, j.baseline, j.session, j.identity.value)
  }

  ghost predicate RetainedAt(h: History, j: Journal, tip: Oid, c: Oid) {
    ValidHistory(h) && j.identity.Some? && tip < |h| && Retained(h, tip, c, QueryOf(j))
  }

  ghost predicate PublishedAt(h: History, j: Journal, upstream: Oid, c: Oid) {
    ValidHistory(h) && j.identity.Some? && upstream < |h| && UpstreamProves(h, upstream, c, QueryOf(j))
  }

  ghost predicate Found(h: History, j: Journal, c: Oid) { exists tip: Oid :: FoundAt(h, j, tip, c) }

  ghost predicate Kept(h: History, j: Journal, c: Oid) { exists tip: Oid :: RetainedAt(h, j, tip, c) }

  ghost predicate Published(h: History, j: Journal, c: Oid) { exists tip: Oid :: PublishedAt(h, j, tip, c) }

  ghost predicate Proven(h: History, j: Journal, c: Oid) {
    Found(h, j, c) && SealedAs(h, j, c) && Kept(h, j, c)
  }

  lemma GrowthKeepsProofs(h: History, h': History, j: Journal, c: Oid)
    requires ValidHistory(h) && ValidHistory(h') && h <= h'
    ensures Proven(h, j, c) ==> Proven(h', j, c)
    ensures Published(h, j, c) ==> Published(h', j, c)
  {
    if Proven(h, j, c) {
      var tip: Oid :| FoundAt(h, j, tip, c);
      GrowthKeepsAnswer(h, h', QueryOf(j), ProofStart(j), tip, c);
      assert FoundAt(h', j, tip, c);
      var kept: Oid :| RetainedAt(h, j, kept, c);
      GrowthKeepsAncestors(h, h', c, kept);
      assert h[kept] == h'[kept] && h[c] == h'[c];
      assert RetainedAt(h', j, kept, c);
    }
    if up: Oid :| PublishedAt(h, j, up, c) {
      GrowthKeepsAncestors(h, h', c, up);
      assert h[up] == h'[up];
      assert PublishedAt(h', j, up, c);
    }
  }

  /** An observation is truthful about history: whatever it affirms really was proved. */
  ghost predicate Truthful(h: History, j: Journal, o: Observation) {
    match j.state
    case CommitPending =>
      o.found.Some? ==> && Found(h, j, o.found.value)
                        && (o.matchesManifest && Supported(j.baseline) ==> SealedAs(h, j, o.found.value))
                        && (o.retained ==> Kept(h, j, o.found.value))
    case PushPending => j.commit.Some? && o.published ==> Published(h, j, j.commit.value)
    case _ => true
  }

  // ------------------------------------------------------------------- the system

  datatype Pending = Pending(snapshot: Journal, request: Request)

  datatype World = World(
    row: Option<Journal>,
    history: History,
    read: set<Journal>,
    pending: set<Pending>)

  /** A row is created again only while no call holds a snapshot of a former one;
      a call that ends forgets its snapshots and the requests made from them. */
  datatype Event =
    | Register(created: Journal)
    | Write(writer: Writer)
    | Grow(grown: History)
    | Snapshot
    | Prove(snapshot: Journal, seen: Observation, owner: Option<string>)
    | Apply(proof: Pending)
    | Forget(dropped: Journal)

  /** What the other writers pass: never a commit, never Completed, and a new
      manifest only on the way to Tracking or CommitPending. */
  predicate Disciplined(w: Writer) {
    w.Cas? ==> && w.request.commit.None? && w.request.next != Completed
               && (w.request.baseline.Some? ==> w.request.next in {Tracking, CommitPending})
  }

  ghost predicate Next(w: World, e: Event, w': World) {
    match e
    case Register(j) =>
      && w.row.None? && w.read == {} && j.state == Working && j.commit.None? && j.generation == 0
      && w' == w.(row := Some(j))
    case Write(writer) => Disciplined(writer) && w' == w.(row := AfterWriter(w.row, writer))
    case Grow(h) => ValidHistory(h) && w.history <= h && w' == w.(history := h)
    case Snapshot => w.row.Some? && w' == w.(read := w.read + {w.row.value})
    case Prove(j, o, owner) =>
      && j in w.read && Truthful(w.history, j, o) && Decide(j, o, owner).Try?
      && w' == w.(pending := w.pending + {Pending(j, Decide(j, o, owner).request)})
    case Apply(p) => p in w.pending && w' == w.(row := AfterCas(w.row, p.request, true))
    case Forget(j) =>
      w' == w.(read := w.read - {j}, pending := set p | p in w.pending && p.snapshot != j)
  }

  ghost predicate Start(w: World) {
    w.row.None? && ValidHistory(w.history) && w.read == {} && w.pending == {}
  }

  // ---------------------------------------------------------------- the invariant

  ghost predicate Sound(h: History, j: Journal) {
    && (j.state in {Working, Tracking, CommitPending, Cancelled} ==> j.commit.None?)
    && (j.state in {PushPending, Completed} ==> j.commit.Some?)
    && (j.commit.Some? ==> Proven(h, j, j.commit.value))
    && (j.state == PushPending ==> j.mode == CommitAndPush)
    && (j.state == Completed && j.mode == CommitAndPush ==> Published(h, j, j.commit.value))
  }

  ghost predicate Justified(h: History, p: Pending) {
    var j, rq := p.snapshot, p.request;
    && rq.expected == j.generation && !rq.fenced && rq.baseline.None? && Agree(j.identity, rq.identity)
    && (rq.commit.Some? ==> Proven(h, j, rq.commit.value))
    && (rq.next in {PushPending, Completed} ==> rq.commit.Some?)
    && (rq.next in {Tracking, CommitPending} ==> rq.commit.None?)
    && rq.next !in {Working, Cancelled}
    && (rq.next == Completed && j.mode == CommitAndPush ==> j.state == PushPending && Published(h, j, rq.commit.value))
  }

  ghost predicate Inv(w: World) {
    && ValidHistory(w.history)
    && (w.row.Some? ==> Sound(w.history, w.row.value))
    && (forall j :: j in w.read ==> Later(j, w.row) && Sound(w.history, j))
    && (forall p :: p in w.pending ==> p.snapshot in w.read && Justified(w.history, p))
  }

  lemma WriterKeepsSound(h: History, row: Option<Journal>, w: Writer)
    requires Disciplined(w) && row.Some? && Sound(h, row.value)
    ensures AfterWriter(row, w).Some? ==> Sound(h, AfterWriter(row, w).value)
  {
    var row' := AfterWriter(row, w);
    if row'.Some? && row' != row && row'.value.commit.Some? {
      SameEvidence(h, row.value, row'.value, row'.value.commit.value);
    }
  }

  /** Proofs speak of the session, the identity, the start and the baseline only. */
  lemma SameEvidence(h: History, j: Journal, j': Journal, c: Oid)
    requires j'.session == j.session && j'.identity == j.identity
    requires j'.startingHead == j.startingHead && j'.baseline == j.baseline
    ensures Proven(h, j, c) ==> Proven(h, j', c)
    ensures Published(h, j, c) ==> Published(h, j', c)
  {
    if Proven(h, j, c) {
      var tip: Oid :| FoundAt(h, j, tip, c);
      assert FoundAt(h, j', tip, c);
      var kept: Oid :| RetainedAt(h, j, kept, c);
      assert RetainedAt(h, j', kept, c);
    }
    if up: Oid :| PublishedAt(h, j, up, c) {
      assert PublishedAt(h, j', up, c);
    }
  }

  /** The generation fence: a proof applies only to the very row it was made for. */
  lemma ApplyKeepsSound(w: World, p: Pending)
    requires Inv(w) && p in w.pending && w.row.Some?
    ensures Sound(w.history, AfterCas(w.row, p.request, true).value)
  {
    var j := w.row.value;
    if Fenced(w.row, p.request, true) && Legal(j, p.request) {
      assert Later(p.snapshot, w.row);
      assert j == p.snapshot;
      var j' := Successor(j, p.request);
      if j'.commit.Some? {
        SameEvidence(w.history, j, j', j'.commit.value);
      }
    }
  }

  lemma TriedStepIsJustified(h: History, j: Journal, o: Observation, owner: Option<string>)
    requires Sound(h, j) && Truthful(h, j, o) && Decide(j, o, owner).Try?
    ensures Justified(h, Pending(j, Decide(j, o, owner).request))
  {
  }

  lemma GrowthKeepsSound(h: History, h': History, j: Journal)
    requires ValidHistory(h) && ValidHistory(h') && h <= h' && Sound(h, j)
    ensures Sound(h', j)
  {
    if j.commit.Some? {
      GrowthKeepsProofs(h, h', j, j.commit.value);
    }
  }

  lemma GrowthKeepsInv(w: World, w': World, h: History)
    requires Inv(w) && Next(w, Grow(h), w')
    ensures Inv(w')
  {
    forall j | j in w.read || w.row == Some(j) ensures Sound(h, j) {
      GrowthKeepsSound(w.history, h, j);
    }
    forall p | p in w.pending ensures Justified(h, p) {
      if p.request.commit.Some? {
        GrowthKeepsProofs(w.history, h, p.snapshot, p.request.commit.value);
      }
    }
  }

  lemma StepKeepsInv(w: World, e: Event, w': World)
    requires Inv(w) && Next(w, e, w')
    ensures Inv(w')
  {
    match e {
      case Register(_) =>
      case Write(writer) =>
        if w.row.Some? {
          WriterKeepsSound(w.history, w.row, writer);
        }
        forall j | j in w.read ensures Later(j, w'.row) {
          WriterMovesOn(w.row, writer, j);
        }
      case Grow(h) =>
        GrowthKeepsInv(w, w', h);
      case Snapshot =>
      case Prove(j, o, owner) =>
        TriedStepIsJustified(w.history, j, o, owner);
      case Apply(p) =>
        if w.row.Some? {
          ApplyKeepsSound(w, p);
        }
        forall j | j in w.read ensures Later(j, w'.row) {
          WriterMovesOn(w.row, Cas(p.request, true), j);
        }
      case Forget(_) =>
    }
  }

  ghost predicate IsRun(run: seq<World>, events: seq<Event>) {
    && |run| == |events| + 1 && Start(run[0])
    && forall k :: 0 <= k < |events| ==> Next(run[k], events[k], run[k + 1])
  }

  lemma {:induction false} RunsKeepInv(run: seq<World>, events: seq<Event>, k: nat)
    requires IsRun(run, events) && k < |run|
    ensures Inv(run[k])
  {
    if k > 0 {
      RunsKeepInv(run, events, k - 1);
      assert Next(run[k - 1], events[k - 1], run[k - 1 + 1]);
      StepKeepsInv(run[k - 1], events[k - 1], run[k]);
    }
  }

  // ------------------------------------------------------------------ conclusions

  predicate Retires(e: Event) { e.Write? && e.writer.RetireForRecovery? }

  ghost predicate Moves(run: seq<World>, k: nat) {
    k + 1 < |run| && run[k].row.Some? && run[k + 1].row.Some? && run[k + 1].row != run[k].row
  }

  /** Every change of the journal raises its generation by one and follows the
      transition table, except that recovery may also retire a journal that is
      already Tracking, CommitPending or Cancelled. */
  lemma JournalMovesForward(run: seq<World>, events: seq<Event>, k: nat)
    requires IsRun(run, events) && Moves(run, k)
    ensures var j, j' := run[k].row.value, run[k + 1].row.value;
            && j'.generation == j.generation + 1 && j'.state.Rank() <= j.state.Rank()
            && (j.state.CanTransitionTo(j'.state) <==> !(Retires(events[k]) && j.state != Working))
  {
    RunsKeepInv(run, events, k);
    assert Next(run[k], events[k], run[k + 1]);
  }

  /** Recovery of an idle project cancels a journal in Tracking or CommitPending, a step
      the transition table does not have. */
  lemma RecoveryCanRetire(w: World, reason: string) returns (e: Event, w': World)
    requires Inv(w) && w.row.Some? && w.row.value.state in {Tracking, CommitPending}
    ensures Next(w, e, w') && Retires(e) && w'.row == Some(Cancel(w.row.value, reason))
    ensures !w.row.value.state.CanTransitionTo(w'.row.value.state)
  {
    e := Write(RetireForRecovery(w.row.value, false, reason));
    w' := w.(row := Some(Cancel(w.row.value, reason)));
  }

  function Advance(expected: nat, next: State): Request {
    Request(expected, next, Some("t"), None, false, None, None, None)
  }

  /** The exception is real: a run whose journal is sealed and then cancelled. */
  lemma SealedJournalRetired(reason: string) returns (run: seq<World>, events: seq<Event>)
    ensures IsRun(run, events) && |events| == 4 && Moves(run, 3) && Retires(events[3])
    ensures run[2].row.Some? && run[2].row.value.state == Tracking && run[3].row.value.state == CommitPending
    ensures run[4].row.value.state == Cancelled
  {
    var created := Journal("s", Working, CommitOnly, Some(0), Baseline(1, None, None, None), None, None, None, 0, None);
    var tracked := Successor(created, Advance(0, Tracking));
    var sealed := Successor(tracked, Advance(1, CommitPending));
    var start := World(None, [], {}, {});
    var rows := [start, start.(row := Some(created)), start.(row := Some(tracked)), start.(row := Some(sealed))];
    assert Inv(rows[3]);
    var e, last := RecoveryCanRetire(rows[3], reason);
    events := [Register(created), Write(Cas(Advance(0, Tracking), true)), Write(Cas(Advance(1, CommitPending), true)), e];
    run := rows + [last];
  }

  /** A commit is recorded only out of CommitPending, and by then the first commit
      above the frozen parent, the sealed manifest and its retention were proved. */
  lemma CommitNeedsProof(run: seq<World>, events: seq<Event>, k: nat)
    requires IsRun(run, events) && Moves(run, k)
    requires run[k].row.value.commit.None? && run[k + 1].row.value.commit.Some?
    ensures run[k].row.value.state == CommitPending && events[k].Apply?
    ensures Proven(run[k].history, run[k + 1].row.value, run[k + 1].row.value.commit.value)
  {
    RunsKeepInv(run, events, k);
    RunsKeepInv(run, events, k + 1);
    assert Next(run[k], events[k], run[k + 1]);
  }

  /** Once recorded, the commit and the manifest it was proved against never change. */
  lemma CommitIsFrozen(run: seq<World>, events: seq<Event>, k: nat)
    requires IsRun(run, events) && Moves(run, k) && run[k].row.value.commit.Some?
    ensures run[k + 1].row.value.commit == run[k].row.value.commit
    ensures run[k + 1].row.value.baseline == run[k].row.value.baseline
    ensures run[k + 1].row.value.state in {PushPending, Completed}
  {
    RunsKeepInv(run, events, k);
    assert Next(run[k], events[k], run[k + 1]);
  }

  /** With commit-and-push, Completed is reached only from PushPending, and an
      upstream tip was seen that descends from the recorded commit. */
  lemma PushModeCompletesAfterPush(run: seq<World>, events: seq<Event>, k: nat)
    requires IsRun(run, events) && Moves(run, k)
    requires run[k].row.value.state != Completed && run[k + 1].row.value.state == Completed
    requires run[k + 1].row.value.mode == CommitAndPush
    ensures run[k].row.value.state == PushPending
    ensures run[k + 1].row.value.commit.Some?
    ensures Published(run[k].history, run[k + 1].row.value, run[k + 1].row.value.commit.value)
  {
    RunsKeepInv(run, events, k);
    RunsKeepInv(run, events, k + 1);
    assert Next(run[k], events[k], run[k + 1]);
    assert run[k + 1].history == run[k].history;
  }

  // ---------------------------------------------------- exactly what a seal proves

  /** The sealed tree and parent as the journal names them. */
  ghost predicate SealHolds(h: History, j: Journal, c: Oid) {
    && c < |h| && j.baseline.sealedTree == Some(h[c].tree)
    && |h[c].parents| == 1 && j.baseline.manifestParent == Some(h[c].parents[0])
  }

  /** A proven commit is the sealed one whenever a manifest was sealed, which every
      journal of version two has done by then. */
  lemma ProvenCommitIsSealed(h: History, j: Journal, c: Oid)
    requires Proven(h, j, c)
    ensures j.baseline.stagedPatches.Some? && j.baseline.sealedTree.Some? ==> SealHolds(h, j, c)
    ensures j.baseline.version == 2 ==> SealHolds(h, j, c)
    ensures h[c].parents == [ProofStart(j)]
  {
    var tip: Oid :| FoundAt(h, j, tip, c);
    assert SealedAs(h, j, c);
  }

  const DOING_TASK := ProofEntry(Doing, [], None, false, Some("t"))

  const DONE_TASK := ProofEntry(Done, ["s"], Some("s"), true, Some("t"))

  /** The shortest finished task: one commit that moves it from Doing to Done. */
  function Finishing(tree: nat): History {
    [Commit([], 0, [], false, [DOING_TASK]), Commit([0], tree, [Trailer("s")], true, [DONE_TASK])]
  }

  lemma SingleMarkerCount(e: ProofEntry, session: string)
    ensures MarkerCount([e], session) == Occurrences(e.markers, session)
  {
    assert [e][..0] == [];
    assert MarkerCount([], session) == 0;
  }

  lemma FinishingEvidence(q: Query)
    requires q.session == "s" && q.task == "t"
    ensures Completes([DONE_TASK], q.session, q.task) && ActiveCount([DONE_TASK], q.task) == 0
    ensures !HasCompleted([DOING_TASK], q.session) && ActiveCount([DOING_TASK], q.task) == 1
  {
    assert Occurrences(["s"], "s") == 1;
    SingleMarkerCount(DONE_TASK, "s");
    SingleMarkerCount(DOING_TASK, "s");
    assert FinishedEntry([DONE_TASK][0], "s");
  }

  lemma FinishingIsFound(q: Query, tree: nat)
    requires q.session == "s" && q.task == "t"
    ensures ValidHistory(Finishing(tree)) && Finishes(Finishing(tree), q, 0, 1, 1)
    ensures Retained(Finishing(tree), 1, 1, q)
  {
    var h := Finishing(tree);
    FinishingEvidence(q);
    assert Chain(h, 0) == [0] && Chain(h, 1) == [1, 0];
    assert Above(h, 0, 1) == [1];
    assert Qualifies(h, q, 0, 1) && SoleFirst(h, q, 0, [1], 1);
  }

  /** A version-one journal without a manifest accepts its commit with no tree proof. */
  lemma UnsealedCommitIsAccepted(b: Baseline) returns (h: History, j: Journal, c: Oid)
    requires b.version == 1 && (b.stagedPatches.None? || b.sealedTree.None?)
    ensures j.baseline == b && Proven(h, j, c) && !SealHolds(h, j, c)
  {
    var tree := if b.sealedTree == Some(7) then 8 else 7;
    h := Finishing(tree);
    j := Journal("s", CommitPending, CommitOnly, Some(0), b, Some("t"), None, None, 2, None);
    c := 1;
    assert QueryOf(j) == Query("s", "t", true) && ProofStart(j) == 0;
    FinishingIsFound(QueryOf(j), tree);
    assert FoundAt(h, j, 1, 1);
    assert RetainedAt(h, j, 1, 1);
    assert h[1].tree == tree;
  }

  /** So the seal is certain for exactly the baselines that carry a manifest or are
      of version two. */
  lemma SealIsCertain(b: Baseline)
    requires Supported(b)
    ensures (forall h: History, j: Journal, c: Oid :: j.baseline == b && Proven(h, j, c) ==> SealHolds(h, j, c))
            <==> b.version == 2 || (b.stagedPatches.Some? && b.sealedTree.Some?)
  {
    if b.version == 2 || (b.stagedPatches.Some? && b.sealedTree.Some?) {
      forall h: History, j: Journal, c: Oid | j.baseline == b && Proven(h, j, c) ensures SealHolds(h, j, c) {
        ProvenCommitIsSealed(h, j, c);
      }
    } else {
      var h, j, c := UnsealedCommitIsAccepted(b);
    }
  }
}
