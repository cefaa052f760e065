/** One scheduler pass over all projects: which leases it holds afterwards, on
    success and on every error exit, and how many jobs it may start. */
module SchedulerPass {
  import opened Outcome

  type Project = int

  /** The scheduler's own holder, the Git finalizer it starts, and everybody else. */
  datatype Holder = Ours | Finalizer | Other(id: nat)

  datatype Gate = Normal | Hold | Review | Retry

  /** Where in the visit of a project the next failing store or board call lies. */
  datatype Fault = NoFault | AtScan | AtRecovery | AtGate | AtFinalizerAcquire | AtReconcile | AtFollowUp
                 | AtSelection | BeforeAcquire | AtAcquire | AfterAcquire

  /** Writes of other processes between two of our calls. They may reclaim any lease,
      also one of ours that ran out. */
  datatype Interference = Interference(dropped: set<Project>, taken: map<Project, nat>)

  /** Everything the pass finds out about one project, in the order it asks. */
  datatype Findings = Findings(
    project: Project,
    enabled: bool,
    fault: Fault,
    reclaimable: bool,
    unavailable: bool,
    recovered: bool,
    sealedPending: bool,
    firstGate: Gate,
    pendingJournals: bool,
    branchChanged: bool,
    pushPending: bool,
    stalled: bool,
    secondGate: Gate,
    suspended: bool,
    selected: bool,
    cooldown: bool,
    stillReady: bool,
    suspendedAfter: bool,
    others: Interference,
    late: Interference)

  datatype Counts = Counts(
    scanned: nat,
    pending: nat,
    activeJobs: nat,
    skippedActiveLease: nat,
    deferred: nat,
    runsStarted: nat)

  datatype Acquisition = Acquired | ActiveLease | Suspended

  datatype Visit = Ignored | Skipped(lease: bool, wanted: bool) | Deferred | Started

  type Leases = map<Project, Holder>

  predicate HeldBy(leases: Leases, p: Project, holder: Holder) {
    p in leases && leases[p] == holder
  }

  /** No lease of ours appears except as said for this project, and elsewhere none
      disappears unless another process took it. */
  ghost predicate OnlyTouches(before: Leases, after: Leases, lost: set<Project>, p: Project, mayHold: bool,
                              mayFinalize: bool) {
    && (forall q :: q != p && HeldBy(after, q, Ours) ==> HeldBy(before, q, Ours))
    && (forall q :: q != p && HeldBy(before, q, Ours) ==> HeldBy(after, q, Ours) || q in lost)
    && (forall q :: q != p && HeldBy(after, q, Finalizer) ==> HeldBy(before, q, Finalizer))
    && (HeldBy(after, p, Ours) ==> mayHold || HeldBy(before, p, Ours))
    && (HeldBy(after, p, Finalizer) ==> mayFinalize || HeldBy(before, p, Finalizer))
  }

  class LeaseStore {
    var leases: Leases
    /** Projects for which a release call fails. */
    const stuck: set<Project>
    /** Projects whose lease of ours another process removed during the pass. */
    ghost var lost: set<Project>

    constructor (initial: Leases, stuck: set<Project>)
      ensures leases == initial && this.stuck == stuck && lost == {}
    {
      leases := initial;
      this.stuck := stuck;
      lost := {};
    }

    method OthersAct(i: Interference)
      modifies this
      ensures forall p :: HeldBy(leases, p, Ours) ==> HeldBy(old(leases), p, Ours)
      ensures forall p :: HeldBy(leases, p, Finalizer) ==> HeldBy(old(leases), p, Finalizer)
      ensures forall p :: HeldBy(old(leases), p, Ours) ==> HeldBy(leases, p, Ours) || p in lost
      ensures old(lost) <= lost && forall p :: p in lost - old(lost) ==> HeldBy(old(leases), p, Ours)
    {
      lost := lost + set p | p in leases && p in i.dropped && leases[p] == Ours;
      var kept := map p | p in leases && p !in i.dropped :: leases[p];
      leases := (map p | p in i.taken && p !in kept :: Other(i.taken[p])) + kept;
    }

    method TryAcquire(p: Project, holder: Holder) returns (acquired: bool)
      modifies this`leases
      ensures acquired <==> p !in old(leases)
      ensures leases == if acquired then old(leases)[p := holder] else old(leases)
    {
      acquired := p !in leases;
      if acquired {
        leases := leases[p := holder];
      }
    }

    method Release(p: Project, holder: Holder) returns (r: Result<bool, ()>)
      modifies this`leases
      ensures r.Err? <==> p in stuck
      ensures leases == if r.Ok? && HeldBy(old(leases), p, holder) then old(leases) - {p} else old(leases)
      ensures r.Ok? ==> r.value == HeldBy(old(leases), p, holder)
    {
      if p in stuck {
        return Err(());
      }
      var held := HeldBy(leases, p, holder);
      if held {
        leases := leases - {p};
      }
      r := Ok(held);
    }

    /** Dropping the guard: every tracked lease is released, failures are only reported. */
    method DropGuard(tracked: seq<Project>)
      modifies this`leases
      ensures forall p :: HeldBy(leases, p, Ours) ==> HeldBy(old(leases), p, Ours) && (p in tracked ==> p in stuck)
      ensures forall p :: p !in tracked ==> HeldBy(leases, p, Ours) == HeldBy(old(leases), p, Ours)
      ensures forall p :: HeldBy(leases, p, Finalizer) == HeldBy(old(leases), p, Finalizer)
    {
      for k := 0 to |tracked|
        invariant forall p :: HeldBy(leases, p, Ours) ==> HeldBy(old(leases), p, Ours) && (p in tracked[..k] ==> p in stuck)
        invariant forall p :: p !in tracked ==> HeldBy(leases, p, Ours) == HeldBy(old(leases), p, Ours)
        invariant forall p :: HeldBy(leases, p, Finalizer) == HeldBy(old(leases), p, Finalizer)
      {
        var released := Release(tracked[k], Ours);
        assert tracked[..k + 1] == tracked[..k] + [tracked[k]];
      }
      assert tracked[..|tracked|] == tracked;
    }

    method Reclaim(p: Project, reclaimable: bool) returns (r: Result<bool, ()>)
      modifies this`leases
      ensures OnlyTouches(old(leases), leases, lost, p, false, false)
      ensures r == Ok(true) ==> p !in leases
    {
      if p !in leases || !reclaimable {
        return Ok(false);
      }
      r := Release(p, leases[p]);
    }

    /** Claims the project's lease for one job, rechecking its readiness on both sides. */
    method AcquireJob(f: Findings) returns (r: Result<Acquisition, ()>)
      modifies this
      ensures old(lost) <= lost
      ensures OnlyTouches(old(leases), leases, lost, f.project, r == Ok(Acquired) || f.project in stuck, false)
      ensures r == Ok(Acquired) ==> HeldBy(leases, f.project, Ours) || f.project in lost
    {
      var p := f.project;
      if f.fault == BeforeAcquire {
        return Err(());
      }
      if !f.stillReady {
        return Ok(Suspended);
      }
      OthersAct(f.others);
      var acquired := TryAcquire(p, Ours);
      if !acquired {
        var reclaimed := Reclaim(p, f.reclaimable);
        if reclaimed.Err? {
          return Err(());
        }
        if reclaimed.value {
          acquired := TryAcquire(p, Ours);
        }
        if !acquired {
          return if f.fault == AtAcquire then Err(()) else Ok(ActiveLease);
        }
      }
      r := KeepLease(f);
    }

    /** A fresh lease is kept only if the session may still start. */
    method KeepLease(f: Findings) returns (r: Result<Acquisition, ()>)
      requires HeldBy(leases, f.project, Ours)
      modifies this
      ensures old(lost) <= lost
      ensures OnlyTouches(old(leases), leases, lost, f.project, true, false)
      ensures r.Ok? && r.value == Acquired ==> HeldBy(leases, f.project, Ours) || f.project in lost
      ensures !(r.Ok? && r.value == Acquired) && HeldBy(leases, f.project, Ours) ==> f.project in stuck
      ensures r != Ok(ActiveLease)
    {
      var p := f.project;
      OthersAct(f.late);
      if f.fault == AfterAcquire {
        DropGuard([p]);
        return Err(());
      }
      if f.suspendedAfter {
        var released := Release(p, Ours);
        if released.Err? {
          DropGuard([p]);
          return Err(());
        }
        return Ok(Suspended);
      }
      r := Ok(Acquired);
    }

    /** The guarded reconciliation of pending Git journals under its own lease. */
    method ReconcileJournals(f: Findings) returns (r: Result<bool, ()>)
      modifies this
      ensures old(lost) <= lost
      ensures OnlyTouches(old(leases), leases, lost, f.project, false, f.project in stuck)
    {
      if f.fault == AtFinalizerAcquire {
        return Err(());
      }
      var acquired := TryAcquire(f.project, Finalizer);
      if !acquired {
        return Ok(false);
      }
      assert OnlyTouches(old(leases), leases, lost, f.project, false, true);
      OthersAct(f.others);
      assert OnlyTouches(old(leases), leases, lost, f.project, false, true);
      var released := Release(f.project, Finalizer);
      assert OnlyTouches(old(leases), leases, lost, f.project, false, f.project in stuck);
      if f.fault == AtReconcile || released.Err? {
        var again := Release(f.project, Finalizer);
        return Err(());
      }
      r := Ok(true);
    }

    /** Only ordinary work counts a lease somebody else holds as a skip. */
    method StartOrDefer(f: Findings, capacity: bool, counted: bool) returns (r: Result<Visit, ()>)
      modifies this
      ensures old(lost) <= lost
      ensures OnlyTouches(old(leases), leases, lost, f.project, r == Ok(Started) || f.project in stuck, false)
      ensures r == Ok(Started) ==> (HeldBy(leases, f.project, Ours) || f.project in lost) && capacity
      ensures r == Ok(Deferred) ==> !capacity
      ensures r.Ok? && r.value.Skipped? && r.value.lease ==> counted && r.value.wanted
      ensures r.Ok? ==> r.value != Ignored
    {
      if !capacity {
        return Ok(Deferred);
      }
      var acquisition := AcquireJob(f);
      if acquisition.Err? {
        return Err(());
      }
      r := Ok(if acquisition.value == Acquired then Started
              else Skipped(counted && acquisition.value == ActiveLease, true));
    }

    /** One project, from its scan to its job or the reason it gets none. */
    method VisitProject(f: Findings, busy: set<Project>, capacity: bool) returns (r: Result<Visit, ()>)
      modifies this
      ensures old(lost) <= lost
      ensures OnlyTouches(old(leases), leases, lost, f.project, r == Ok(Started) || f.project in stuck, f.project in stuck)
      ensures r == Ok(Started) ==> (HeldBy(leases, f.project, Ours) || f.project in lost) && capacity && f.project !in busy
      ensures r == Ok(Deferred) ==> !capacity
      ensures r.Ok? && r.value != Ignored ==> f.enabled
      ensures r.Ok? && r.value.Skipped? && r.value.lease ==> f.sealedPending || f.firstGate == Normal
      ensures r == Ok(Skipped(true, false)) ==> f.pendingJournals
      ensures r == Ok(Skipped(true, true)) ==> !f.stalled || f.secondGate == Normal
    {
      if f.project in busy {
        return Ok(Ignored);
      }
      if !f.enabled {
        if f.fault == AtScan {
          return Err(());
        }
        var reclaimed := Reclaim(f.project, f.reclaimable);
        return if reclaimed.Err? then Err(()) else Ok(Ignored);
      }
      if f.fault == AtScan {
        return Err(());
      }
      if f.unavailable {
        return Ok(Skipped(false, false));
      }
      if f.fault == AtRecovery {
        return Err(());
      }
      if f.recovered {
        return Ok(Skipped(false, false));
      }
      if !f.sealedPending {
        if f.fault == AtGate {
          return Err(());
        }
        if f.firstGate == Hold {
          return Ok(Skipped(false, false));
        }
        if f.firstGate in {Review, Retry} {
          r := StartOrDefer(f, capacity, false);
          return;
        }
      }
      r := VisitAfterGate(f, capacity);
    }

    method VisitAfterGate(f: Findings, capacity: bool) returns (r: Result<Visit, ()>)
      modifies this
      ensures old(lost) <= lost
      ensures OnlyTouches(old(leases), leases, lost, f.project, r == Ok(Started) || f.project in stuck, f.project in stuck)
      ensures r == Ok(Started) ==> (HeldBy(leases, f.project, Ours) || f.project in lost) && capacity
      ensures r == Ok(Deferred) ==> !capacity
      ensures r.Ok? ==> r.value != Ignored
      ensures r == Ok(Skipped(true, false)) ==> f.pendingJournals
      ensures r == Ok(Skipped(true, true)) ==> !f.stalled || f.secondGate == Normal
    {
      if f.pendingJournals {
        var reconciled := ReconcileJournals(f);
        if reconciled.Err? {
          return Err(());
        }
        if !reconciled.value {
          return Ok(Skipped(true, false));
        }
      }
      if f.branchChanged {
        return Ok(Skipped(false, false));
      }
      if f.fault == AtFollowUp {
        return Err(());
      }
      if f.pushPending {
        return Ok(Skipped(false, false));
      }
      if f.stalled {
        if f.secondGate == Hold {
          return Ok(Skipped(false, false));
        }
        if f.secondGate in {Review, Retry} {
          r := StartOrDefer(f, capacity, false);
          return;
        }
      }
      if f.fault == AtSelection {
        return Err(());
      }
      if f.suspended || !f.selected || f.cooldown {
        return Ok(Skipped(false, false));
      }
      r := StartOrDefer(f, capacity, true);
    }
  }

  predicate Distinct(projects: seq<Findings>) {
    forall i, j :: 0 <= i < j < |projects| ==> projects[i].project != projects[j].project
  }

  function Max(a: nat, b: nat): nat { if a < b then b else a }

  predicate Listed(projects: seq<Findings>, p: Project) {
    exists i :: 0 <= i < |projects| && projects[i].project == p && projects[i].enabled
  }

  /** `busy` are the projects of durable workers and of jobs already active. */
  method RunPass(store: LeaseStore, projects: seq<Findings>, busy: set<Project>, maxGlobalJobs: nat)
    returns (r: Result<(Counts, seq<Project>), ()>)
    requires Distinct(projects)
    modifies store
    ensures r.Ok? ==>
              var (counts, jobs) := r.value;
              && (forall i, j :: 0 <= i < j < |jobs| ==> jobs[i] != jobs[j])
              && (forall p :: p in jobs ==> p !in busy && Listed(projects, p))
              && (forall p :: p in jobs ==> HeldBy(store.leases, p, Ours) || p in store.lost)
              && (forall p :: HeldBy(store.leases, p, Ours) && !HeldBy(old(store.leases), p, Ours) ==> p in jobs || p in store.stuck)
              && counts.runsStarted == |jobs| && counts.activeJobs == |busy|
              && counts.activeJobs + |jobs| <= Max(|busy|, maxGlobalJobs)
              && (counts.deferred > 0 ==> counts.activeJobs + |jobs| >= maxGlobalJobs)
              && |jobs| + counts.deferred <= counts.pending <= counts.scanned <= |projects|
              && counts.skippedActiveLease + |jobs| + counts.deferred <= counts.scanned
    ensures r.Err? ==> forall p :: HeldBy(store.leases, p, Ours) && !HeldBy(old(store.leases), p, Ours) ==> p in store.stuck
    ensures forall p :: HeldBy(store.leases, p, Finalizer) && !HeldBy(old(store.leases), p, Finalizer) ==> p in store.stuck
  {
    if maxGlobalJobs == 0 {
      return Err(());
    }
    store.lost := {};
    var counts := Counts(0, 0, |busy|, 0, 0, 0);
    var jobs: seq<Project> := [];
    for k := 0 to |projects|
      invariant forall i, j :: 0 <= i < j < |jobs| ==> jobs[i] != jobs[j]
      invariant forall p :: p in jobs ==> p !in busy && Listed(projects, p) && (HeldBy(store.leases, p, Ours) || p in store.lost)
      invariant forall p :: p in jobs ==> exists i :: 0 <= i < k && projects[i].project == p
      invariant forall p :: HeldBy(store.leases, p, Ours) && !HeldBy(old(store.leases), p, Ours) ==> p in jobs || p in store.stuck
      invariant forall p :: HeldBy(store.leases, p, Finalizer) && !HeldBy(old(store.leases), p, Finalizer) ==> p in store.stuck
      invariant counts.runsStarted == |jobs| && counts.activeJobs == |busy|
      invariant counts.activeJobs + |jobs| <= Max(|busy|, maxGlobalJobs)
      invariant counts.deferred > 0 ==> counts.activeJobs + |jobs| >= maxGlobalJobs
      invariant |jobs| + counts.deferred <= counts.pending <= counts.scanned <= k
      invariant counts.skippedActiveLease + |jobs| + counts.deferred <= counts.scanned
    {
      var f := projects[k];
      assert f.project !in jobs;
      if f.enabled {
        counts := counts.(scanned := counts.scanned + 1);
      }
      var visit := store.VisitProject(f, busy, counts.activeJobs + |jobs| < maxGlobalJobs);
      if visit.Err? {
        store.DropGuard(jobs);
        return Err(());
      }
      match visit.value {
        case Ignored =>
        case Skipped(lease, wanted) =>
          counts := counts.(skippedActiveLease := counts.skippedActiveLease + (if lease then 1 else 0),
                            pending := counts.pending + (if wanted then 1 else 0));
        case Deferred =>
          counts := counts.(pending := counts.pending + 1, deferred := counts.deferred + 1);
        case Started =>
          counts := counts.(pending := counts.pending + 1, runsStarted := counts.runsStarted + 1);
          jobs := jobs + [f.project];
      }
    }
    r := Ok((counts, jobs));
  }
}
