/** The audit of commits made between a run's launch and its sealed manifest, and
    what it adds to the search for the finishing commit. */
module ManifestRange {
  import opened BoardStatus
  import opened Outcome
  import opened GitHistory
  import opened GitJournal

  /** What the audit reads from a commit besides its record: whether either identity
      is the agent's, whether both are with the checkpoint message, and its paths. */
  datatype Audit = Audit(namesAgent: bool, checkpointMessage: bool, paths: seq<string>)

  datatype Evidence = Evidence(audits: Oid -> Audit, journals: map<string, Journal>)

  predicate BoardOnly(paths: seq<string>) {
    paths != [] && forall i :: 0 <= i < |paths| ==> "tasks/" <= paths[i]
  }

  /** Ordinary work of others: no task claim, no completion of ours, one parent, and
      not the agent's own unless it only checkpoints the board. */
  ghost predicate CompatibleWork(h: History, e: Evidence, c: Oid, session: string)
    requires c < |h|
  {
    && h[c].trailers == [] && !HasCompleted(h[c].entries, session) && |h[c].parents| == 1
    && (e.audits(c).namesAgent ==>
          e.audits(c).checkpointMessage && h[c].agentIdentity && BoardOnly(e.audits(c).paths))
  }

  ghost predicate CompletedBy(h: History, e: Evidence, c: Oid, other: string)
    requires c < |h|
  {
    && other in e.journals
    && var j := e.journals[other];
       && j.identity.Some? && j.state == Completed && j.baseline.version >= 2 && j.commit == Some(c)
       && MatchesManifest(h, c, j.baseline, other, j.identity.value)
  }

  /** The finishing commit of another session, proven by that session's own journal. */
  ghost predicate ProvenOther(h: History, e: Evidence, c: Oid, session: string)
    requires c < |h|
  {
    h[c].agentIdentity && exists other :: ClaimedBy(h, c, session, other) && CompletedBy(h, e, c, other)
  }

  predicate ClaimedBy(h: History, c: Oid, session: string, other: string)
    requires c < |h|
  {
    other != "" && other != session && h[c].trailers == [Trailer(other)]
  }

  ghost predicate SafeCommit(h: History, e: Evidence, c: Oid, session: string)
    requires c < |h|
  {
    CompatibleWork(h, e, c, session) || ProvenOther(h, e, c, session)
  }

  ghost predicate SafeRange(h: History, e: Evidence, start: Oid, parent: Oid, session: string)
    requires ValidHistory(h) && parent < |h|
  {
    && start in Chain(h, parent)
    && var range := Above(h, start, parent);
       forall i :: 0 <= i < |range| ==> SafeCommit(h, e, range[i], session)
  }

  lemma TrailerIsInjective(a: string, b: string)
    requires Trailer(a) == Trailer(b)
    ensures a == b
  {
    assert Trailer(a)[6..] == a && Trailer(b)[6..] == b;
  }

  method IsCompatibleWork(h: History, e: Evidence, c: Oid, session: string) returns (ok: bool)
    requires c < |h|
    ensures ok <==> CompatibleWork(h, e, c, session)
  {
    var completed := CompletedIdentity(h[c].entries, session);
    assert completed.Some? <==> HasCompleted(h[c].entries, session) by {
      if completed.Some? {
        assert Completes(h[c].entries, session, completed.value);
      }
    }
    if h[c].trailers != [] || completed.Some? || |h[c].parents| != 1 {
      return false;
    }
    if !e.audits(c).namesAgent {
      return true;
    }
    ok := e.audits(c).checkpointMessage && h[c].agentIdentity && BoardOnly(e.audits(c).paths);
  }

  method IsProvenOther(h: History, e: Evidence, c: Oid, session: string) returns (ok: bool)
    requires c < |h|
    ensures ok <==> ProvenOther(h, e, c, session)
  {
    assert forall s :: "codex:" <= Trailer(s);
    if |h[c].trailers| != 1 || !("codex:" <= h[c].trailers[0]) {
      return false;
    }
    var other := h[c].trailers[0][6..];
    assert h[c].trailers[0] == "codex:" + other;
    forall s | ClaimedBy(h, c, session, s) ensures s == other {
      TrailerIsInjective(s, other);
    }
    assert other != "" && other != session ==> ClaimedBy(h, c, session, other);
    if other == "" || other == session || !h[c].agentIdentity || other !in e.journals {
      return false;
    }
    var j := e.journals[other];
    if j.identity.None? || j.state != Completed || j.baseline.version < 2 || j.commit != Some(c) {
      return false;
    }
    ok := CommitMatchesManifest(h, c, j.baseline, other, j.identity.value);
  }

  method IsSafeCommit(h: History, e: Evidence, c: Oid, session: string) returns (ok: bool)
    requires c < |h|
    ensures ok <==> SafeCommit(h, e, c, session)
  {
    ok := IsCompatibleWork(h, e, c, session);
    if !ok {
      ok := IsProvenOther(h, e, c, session);
    }
  }

  /** Walks the commits between launch and manifest. */
  method RangeIsSafe(h: History, e: Evidence, start: Oid, parent: Oid, session: string) returns (ok: bool)
    requires ValidHistory(h) && start < |h| && parent < |h|
    ensures ok <==> SafeRange(h, e, start, parent, session)
  {
    if start == parent {
      assert Chain(h, parent)[0] == parent;
      return true;
    }
    if start !in Chain(h, parent) {
      return false;
    }
    RangeIsAbove(h, start, parent);
    ok := EverySafe(h, e, Range(h, start, parent), session);
  }

  method EverySafe(h: History, e: Evidence, revisions: seq<Oid>, session: string) returns (ok: bool)
    requires Known(h, revisions)
    ensures ok <==> forall i :: 0 <= i < |revisions| ==> SafeCommit(h, e, revisions[i], session)
  {
    for k := 0 to |revisions|
      invariant forall i :: 0 <= i < k ==> SafeCommit(h, e, revisions[i], session)
    {
      var safe := IsSafeCommit(h, e, revisions[k], session);
      if !safe {
        return false;
      }
    }
    ok := true;
  }

  /** Nothing the audit accepts claims the current session. */
  lemma SafeCommitClaimsNothing(h: History, e: Evidence, c: Oid, session: string)
    requires c < |h| && SafeCommit(h, e, c, session)
    ensures !Claims(h, c, session)
  {
    if ProvenOther(h, e, c, session) {
      var other :| ClaimedBy(h, c, session, other) && CompletedBy(h, e, c, other);
      if Trailer(other) == Trailer(session) {
        TrailerIsInjective(other, session);
      }
    }
  }

  /** Audit and search together: since the run was launched exactly one commit of the
      branch names its session, the one the search found above the manifest's parent. */
  lemma OneCommitSinceLaunch(h: History, e: Evidence, q: Query, launch: Oid, parent: Oid, tip: Oid, c: Oid)
    requires ValidHistory(h) && launch < |h| && parent < |h| && tip < |h|
    requires SafeRange(h, e, launch, parent, q.session) && Finishes(h, q, parent, tip, c)
    ensures launch in Chain(h, tip)
    ensures var all := Above(h, launch, tip);
            && (exists k :: 0 <= k < |all| && all[k] == c && Claims(h, c, q.session))
            && forall k :: 0 <= k < |all| && Claims(h, all[k], q.session) ==> all[k] == c
  {
    AboveComposes(h, launch, parent, tip);
    var before, after := Above(h, launch, parent), Above(h, parent, tip);
    forall i | 0 <= i < |before| ensures !Claims(h, before[i], q.session) {
      SafeCommitClaimsNothing(h, e, before[i], q.session);
    }
    assert (before + after)[|before|] == c;
    forall k | 0 <= k < |before + after| && Claims(h, (before + after)[k], q.session)
      ensures (before + after)[k] == c
    {
      assert forall i :: 0 <= i < |before| ==> (before + after)[i] == before[i];
      assert (before + after)[k] == after[k - |before|];
    }
  }

  /** Without the audit this fails: a commit made before sealing may already name the session. */
  lemma UnauditedRangeMayClaim() returns (h: History, q: Query)
    ensures ValidHistory(h) && |h| == 3 && Finishes(h, q, 1, 2, 2) && 0 in Chain(h, 1)
    ensures Claims(h, 1, q.session) && Claims(h, 2, q.session)
  {
    q := Query("s", "t", false);
    var done := ProofEntry(Done, ["s"], Some("s"), true, Some("t"));
    h := [Commit([], 0, [], false, []), Commit([0], 0, [Trailer("s")], true, []), Commit([1], 0, [Trailer("s")], true, [done])];
    assert Occurrences(["s"], "s") == 1 && MarkerCount([done], "s") == 1 by {
      assert [done][..0] == [] && MarkerCount([], "s") == 0;
    }
    assert FinishedEntry([done][0], "s");
    assert TipEvidence(h, q, 2);
    assert MarkerCount([], "s") == 0 && StartEvidence(h, q, 1);
    assert Chain(h, 1) == [1, 0] && Chain(h, 2) == [2, 1, 0];
    assert Above(h, 1, 2) == [2];
    assert SoleFirst(h, q, 1, [2], 2);
  }
}
