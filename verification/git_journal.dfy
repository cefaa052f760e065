/** The finalization journal: a compare-and-set cell fenced by its generation,
    the decisions a reconcile round takes, and the six-round loop. */
module GitJournal {
  import opened Outcome
  import opened GitHistory

  datatype State = Working | Tracking | CommitPending | PushPending | Completed | Cancelled {
    predicate Finalizing() { this in {Tracking, CommitPending, PushPending} }

    predicate CanTransitionTo(next: State) {
      match this
      case Working => next in {Working, Tracking, Cancelled}
      case Tracking => next in {Tracking, CommitPending}
      case CommitPending => next in {CommitPending, PushPending, Completed}
      case PushPending => next in {PushPending, Completed}
      case Completed => false
      case Cancelled => false
    }

    /** How many successful steps may still lie ahead. */
    function Rank(): nat {
      match this
      case Working => 4
      case Tracking => 3
      case CommitPending => 2
      case PushPending => 1
      case Completed => 0
      case Cancelled => 0
    }
  }

  datatype Mode = Off | CommitOnly | CommitAndPush

  datatype Journal = Journal(
    session: string,
    state: State,
    mode: Mode,
    startingHead: Option<Oid>,
    baseline: Baseline,
    identity: Option<string>,
    owner: Option<string>,
    commit: Option<Oid>,
    generation: nat,
    lastError: Option<string>)

  // ------------------------------------------------------------- compare and set

  datatype Request = Request(
    expected: nat,
    next: State,
    identity: Option<string>,
    baseline: Option<Baseline>,
    fenced: bool,
    owner: Option<string>,
    commit: Option<Oid>,
    error: Option<string>)

  datatype CasError =
    | OwnerMissing
    | InvalidTransition
    | PushModeRequired
    | IdentityChanged
    | IdentityMissing
    | CommitChanged
    | CommitMissing
    | StepSkipped

  function Or<T>(first: Option<T>, second: Option<T>): Option<T> {
    if first.Some? then first else second
  }

  predicate Agree<T(==)>(one: Option<T>, other: Option<T>) {
    one.Some? && other.Some? ==> one == other
  }

  predicate Legal(j: Journal, rq: Request) {
    && j.state.CanTransitionTo(rq.next)
    && (rq.next == PushPending ==> j.mode == CommitAndPush)
    && Agree(j.identity, rq.identity)
    && (rq.next.Finalizing() ==> Or(rq.identity, j.identity).Some?)
    && Agree(j.commit, rq.commit)
    && (rq.next in {PushPending, Completed} ==> Or(rq.commit, j.commit).Some?)
    && (rq.next == Completed ==> && (j.mode == CommitOnly ==> j.state == CommitPending)
                                 && (j.mode == CommitAndPush ==> j.state == PushPending))
  }

  function Successor(j: Journal, rq: Request): Journal {
    j.(state := rq.next,
       identity := Or(j.identity, rq.identity),
       baseline := if rq.baseline.Some? then rq.baseline.value else j.baseline,
       owner := rq.owner,
       commit := Or(rq.commit, j.commit),
       generation := j.generation + 1,
       lastError := rq.error)
  }

  predicate Fenced(row: Option<Journal>, rq: Request, ownerRunning: bool) {
    row.Some? && row.value.generation == rq.expected && (rq.fenced ==> rq.owner.Some? && ownerRunning)
  }

  /** The row after the attempt: rewritten when the fence holds and the step is legal. */
  function AfterCas(row: Option<Journal>, rq: Request, ownerRunning: bool): Option<Journal> {
    if Fenced(row, rq, ownerRunning) && Legal(row.value, rq) then Some(Successor(row.value, rq)) else row
  }

  /** The first rule an illegal step breaks, in the order the store checks them. */
  function Refusal(j: Journal, rq: Request): CasError {
    if !j.state.CanTransitionTo(rq.next) then InvalidTransition
    else if rq.next == PushPending && j.mode != CommitAndPush then PushModeRequired
    else if !Agree(j.identity, rq.identity) then IdentityChanged
    else if rq.next.Finalizing() && Or(rq.identity, j.identity).None? then IdentityMissing
    else if !Agree(j.commit, rq.commit) then CommitChanged
    else if rq.next in {PushPending, Completed} && Or(rq.commit, j.commit).None? then CommitMissing
    else StepSkipped
  }

  class Store {
    var row: Option<Journal>

    constructor (initial: Option<Journal>)
      ensures row == initial
    {
      row := initial;
    }

    method CompareAndSet(rq: Request, ownerRunning: bool) returns (r: Result<bool, CasError>)
      modifies this
      ensures row == AfterCas(old(row), rq, ownerRunning)
      ensures r.Ok? && r.value <==> Fenced(old(row), rq, ownerRunning) && Legal(old(row).value, rq)
      ensures r.Ok? && !r.value ==> !Fenced(old(row), rq, ownerRunning)
      ensures r.Err? ==> && old(row).Some? && old(row).value.generation == rq.expected
                         && (if rq.fenced && rq.owner.None? then r.error == OwnerMissing
                             else !Legal(old(row).value, rq) && r.error == Refusal(old(row).value, rq))
    {
      if row.None? {
        return Ok(false);
      }
      var current := row.value;
      if current.generation != rq.expected {
        return Ok(false);
      }
      if rq.fenced {
        if rq.owner.None? {
          return Err(OwnerMissing);
        }
        if !ownerRunning {
          return Ok(false);
        }
      }
      if !current.state.CanTransitionTo(rq.next) {
        return Err(InvalidTransition);
      }
      if rq.next == PushPending && current.mode != CommitAndPush {
        return Err(PushModeRequired);
      }
      if current.identity.Some? && rq.identity.Some? && current.identity != rq.identity {
        return Err(IdentityChanged);
      }
      if rq.next.Finalizing() && Or(rq.identity, current.identity).None? {
        return Err(IdentityMissing);
      }
      if current.commit.Some? && rq.commit.Some? && current.commit != rq.commit {
        return Err(CommitChanged);
      }
      if rq.next in {PushPending, Completed} && Or(rq.commit, current.commit).None? {
        return Err(CommitMissing);
      }
      var early := || (current.mode == CommitOnly && current.state != CommitPending)
                   || (current.mode == CommitAndPush && current.state != PushPending);
      if rq.next == Completed && early {
        return Err(StepSkipped);
      }
      row := Some(Successor(current, rq));
      r := Ok(true);
    }

    /** Retires a journal nobody owns, provided the row is still exactly this one. */
    method CancelExactly(expected: Journal) returns (changed: bool)
      modifies this
      ensures changed <==> old(row) == Some(expected)
      ensures row == if changed then Some(Cancel(expected, ORPHANED)) else old(row)
    {
      changed := row == Some(expected);
      if changed {
        row := Some(Cancel(expected, ORPHANED));
      }
    }

    method OtherWriters(writers: seq<Writer>)
      modifies this
      ensures row == AfterWriters(old(row), writers)
    {
      for k := 0 to |writers|
        invariant row == AfterWriters(old(row), writers[..k])
      {
        assert writers[..k + 1][..k] == writers[..k];
        row := AfterWriter(row, writers[k]);
      }
      assert writers[..|writers|] == writers;
    }
  }

  // ------------------------------------------------------------- the other writers

  /** Everyone else who may touch the row between two steps of a reconcile call. */
  datatype Writer =
    | Cas(request: Request, ownerRunning: bool)
    | CancelWorking(expected: nat, reason: string)
    | RetireForRecovery(expectedRow: Journal, restart: bool, branchReason: string)
    | Unregister

  predicate Retirable(j: Journal, restart: bool, branchReason: string) {
    && j.commit.None?
    && (if restart then j.state == Working
        else j.state in {Working, Tracking, CommitPending}
             || (j.state == Cancelled && j.lastError == Some(branchReason)))
  }

  function AfterWriter(row: Option<Journal>, w: Writer): Option<Journal> {
    match w
    case Cas(rq, running) => AfterCas(row, rq, running)
    case CancelWorking(expected, reason) =>
      if row.Some? && row.value.state == Working && row.value.generation == expected
      then Some(Cancel(row.value, reason)) else row
    case RetireForRecovery(expected, restart, reason) =>
      if row == Some(expected) && Retirable(expected, restart, reason)
      then Some(Cancel(expected, reason)) else row
    case Unregister => None
  }

  function Cancel(j: Journal, reason: string): Journal {
    j.(state := Cancelled, owner := None, generation := j.generation + 1, lastError := Some(reason))
  }

  function AfterWriters(row: Option<Journal>, writers: seq<Writer>): Option<Journal> {
    if writers == [] then row
    else AfterWriter(AfterWriters(row, writers[..|writers| - 1]), writers[|writers| - 1])
  }

  /** A row never goes back: its rank falls weakly, and equal generations mean equal rows. */
  predicate Later(j: Journal, row: Option<Journal>) {
    row.Some? ==> && row.value.state.Rank() <= j.state.Rank()
                  && row.value.generation >= j.generation
                  && (row.value.generation == j.generation ==> row.value == j)
  }

  lemma WriterMovesOn(row: Option<Journal>, w: Writer, j: Journal)
    requires Later(j, row)
    ensures Later(j, AfterWriter(row, w))
  {
  }

  lemma {:induction false} WritersMoveOn(row: Option<Journal>, writers: seq<Writer>, j: Journal)
    requires Later(j, row)
    ensures Later(j, AfterWriters(row, writers))
  {
    if writers != [] {
      var last := |writers| - 1;
      WritersMoveOn(row, writers[..last], j);
      WriterMovesOn(AfterWriters(row, writers[..last]), writers[last], j);
    }
  }

  // ------------------------------------------------------------- one round's decision

  /** What a round sees outside the journal while it looks for its next proof. */
  datatype Observation = Observation(
    orphanable: bool,
    doneInWorktree: bool,
    parentCurrent: bool,
    boardRepaired: bool,
    found: Option<Oid>,
    matchesManifest: bool,
    reordered: bool,
    retained: bool,
    published: bool,
    retainedAfterPush: bool)

  datatype Failure =
    | UnsupportedBaseline
    | ManifestMismatch
    | CommitNotRetained
    | ModeOff
    | StoreRefused(cause: CasError)
    | Disappeared
    | ChangedTooManyTimes

  datatype Decision = Stop | Fail(failure: Failure) | CancelOrphan | LookAgain | Try(request: Request)

  predicate Supported(b: Baseline) { b.version == 1 || b.version == 2 }

  predicate Unsealed(b: Baseline) {
    b.version >= 2 && (b.stagedPatches.None? || b.sealedTree.None? || b.manifestParent.None?)
  }

  /** Journals whose found commit may be amended when it misses the seal by board order only. */
  predicate Reorderable(j: Journal) {
    j.baseline.version >= 2 && j.baseline.sealedTree.Some? && j.commit.None?
  }

  function Step(j: Journal, owner: Option<string>, next: State, identity: Option<string>, commit: Option<Oid>): Request {
    Request(j.generation, next, identity, None, false, Or(owner, j.owner), commit, None)
  }

  function Decide(j: Journal, o: Observation, owner: Option<string>): Decision {
    match j.state
    case Working =>
      if j.identity.None? then (if o.orphanable && j.owner.None? && j.commit.None? then CancelOrphan else Stop)
      else if !Supported(j.baseline) then Fail(UnsupportedBaseline)
      else if Unsealed(j.baseline) || !o.doneInWorktree || !o.parentCurrent then Stop
      else Try(Step(j, owner, Tracking, j.identity, None))
    case Tracking =>
      if j.identity.None? then Stop
      else if !Supported(j.baseline) then Fail(UnsupportedBaseline)
      else if !o.parentCurrent || !o.boardRepaired || !o.doneInWorktree then Stop
      else Try(Step(j, owner, CommitPending, None, None))
    case CommitPending =>
      if j.startingHead.None? || j.identity.None? then Stop
      else if !Supported(j.baseline) then Fail(UnsupportedBaseline)
      else if o.found.None? then Stop
      else if !o.matchesManifest then
        if o.reordered && Reorderable(j) then LookAgain else Fail(ManifestMismatch)
      else if !o.retained then Fail(CommitNotRetained)
      else if j.mode == Off then Fail(ModeOff)
      else Try(Step(j, owner, if j.mode == CommitOnly then Completed else PushPending, None, o.found))
    case PushPending =>
      if j.identity.None? then Stop
      else if !Supported(j.baseline) then Fail(UnsupportedBaseline)
      else if j.commit.None? || !o.matchesManifest || !o.retained || !o.published || !o.retainedAfterPush then Stop
      else Try(Step(j, owner, Completed, None, j.commit))
    case Completed => Stop
    case Cancelled => Stop
  }

  lemma TriedStepDescends(j: Journal, o: Observation, owner: Option<string>)
    requires Decide(j, o, owner).Try?
    ensures var rq := Decide(j, o, owner).request;
            && rq.next.Rank() < j.state.Rank() && j.state.CanTransitionTo(rq.next)
            && rq.expected == j.generation && !rq.fenced
  {
  }

  // ------------------------------------------------------------- the six rounds

  const ROUNDS := 6

  const ORPHANED := "abandoned before it bound a task"

  /** The world around one call: what each round sees, and who writes before each
      of the round's two accesses to the row. */
  datatype Surroundings = Surroundings(
    seen: nat -> Observation,
    beforeCas: nat -> seq<Writer>,
    beforeRead: nat -> seq<Writer>,
    owner: Option<string>)

  /** How a call ends; `idle` counts its rounds without a step of its own: a lost race,
      or the repair of a commit that missed the seal by board order only. */
  datatype Call = Call(row: Option<Journal>, result: Result<Journal, Failure>, idle: nat)

  datatype Round = Ended(call: Call) | Continues(row: Option<Journal>, seen: Journal, idle: nat)

  /** One round with the snapshot `j` in hand: stop, fail, or try a step and look again. */
  function RoundOf(w: Surroundings, k: nat, row: Option<Journal>, j: Journal, idle: nat): Round {
    match Decide(j, w.seen(k), w.owner)
    case Stop => Ended(Call(row, Ok(j), idle))
    case Fail(failure) => Ended(Call(row, Err(failure), idle))
    case CancelOrphan =>
      var before := AfterWriters(row, w.beforeCas(k));
      if before != Some(j) then Ended(Call(before, Ok(j), idle))
      else
        var after := AfterWriters(Some(Cancel(j, ORPHANED)), w.beforeRead(k));
        Ended(Call(after, if after.Some? then Ok(after.value) else Err(Disappeared), idle))
    case LookAgain => Continues(AfterWriters(row, w.beforeCas(k)), j, idle + 1)
    case Try(rq) =>
      var before := AfterWriters(row, w.beforeCas(k));
      var after := AfterWriters(AfterCas(before, rq, true), w.beforeRead(k));
      var won := Fenced(before, rq, true);
      if won && !Legal(before.value, rq) then Ended(Call(before, Err(StoreRefused(Refusal(before.value, rq))), idle))
      else if after.None? then Ended(Call(after, Err(Disappeared), if won then idle else idle + 1))
      else Continues(after, after.value, if won then idle else idle + 1)
  }

  /** The call from round `k` on. */
  function Rounds(w: Surroundings, k: nat, row: Option<Journal>, j: Journal, idle: nat): Call
    decreases ROUNDS - k
  {
    if k >= ROUNDS then Call(row, Err(ChangedTooManyTimes), idle)
    else
      match RoundOf(w, k, row, j, idle)
      case Ended(call) => call
      case Continues(row', j', idle') => Rounds(w, k + 1, row', j', idle')
  }

  /** A round that goes on has either won a step, lowering the rank, or was idle. */
  lemma RoundMakesProgress(w: Surroundings, k: nat, row: Option<Journal>, j: Journal, idle: nat)
    requires Later(j, row) && RoundOf(w, k, row, j, idle).Continues?
    ensures var next := RoundOf(w, k, row, j, idle);
            && Later(next.seen, next.row)
            && next.seen.state.Rank() + 1 + idle <= j.state.Rank() + next.idle
  {
    WritersMoveOn(row, w.beforeCas(k), j);
    if Decide(j, w.seen(k), w.owner).Try? {
      TriedRoundMakesProgress(w, k, row, j, idle);
    }
  }

  lemma TriedRoundMakesProgress(w: Surroundings, k: nat, row: Option<Journal>, j: Journal, idle: nat)
    requires Later(j, row) && RoundOf(w, k, row, j, idle).Continues? && Decide(j, w.seen(k), w.owner).Try?
    ensures var next := RoundOf(w, k, row, j, idle);
            && Later(next.seen, next.row)
            && next.seen.state.Rank() + 1 + idle <= j.state.Rank() + next.idle
  {
    var rq := Decide(j, w.seen(k), w.owner).request;
    TriedStepDescends(j, w.seen(k), w.owner);
    WritersMoveOn(row, w.beforeCas(k), j);
    var written := AfterCas(AfterWriters(row, w.beforeCas(k)), rq, true);
    if written.None? {
      NoRowStaysAbsent(w.beforeRead(k));
    } else {
      WritersMoveOn(written, w.beforeRead(k), written.value);
    }
  }

  lemma RoundEndsOtherwise(w: Surroundings, k: nat, row: Option<Journal>, j: Journal, idle: nat)
    requires RoundOf(w, k, row, j, idle).Ended?
    ensures RoundOf(w, k, row, j, idle).call.result != Err(ChangedTooManyTimes)
  {
  }

  /** A call that gives up spent each of its rounds on a step or idly. */
  lemma {:induction false} RoundsAreSpent(w: Surroundings, k: nat, row: Option<Journal>, j: Journal, idle: nat)
    requires k <= ROUNDS && Later(j, row)
    ensures var call := Rounds(w, k, row, j, idle);
            call.result == Err(ChangedTooManyTimes) ==> call.idle + j.state.Rank() >= idle + ROUNDS - k
    decreases ROUNDS - k
  {
    if k < ROUNDS {
      match RoundOf(w, k, row, j, idle) {
        case Ended(_) =>
          RoundEndsOtherwise(w, k, row, j, idle);
        case Continues(row', j', idle') =>
          RoundMakesProgress(w, k, row, j, idle);
          RoundsAreSpent(w, k + 1, row', j', idle');
      }
    }
  }

  lemma {:induction false} NoRowStaysAbsent(writers: seq<Writer>)
    ensures AfterWriters(None, writers) == None
  {
    if writers != [] {
      NoRowStaysAbsent(writers[..|writers| - 1]);
    }
  }

  /** A call gives up only if its idle rounds and the steps that lay ahead of it fill all
      six: two idle rounds from Working, three from Tracking, and so on, whatever the mode
      and whatever the others write. */
  lemma ExhaustionNeedsIdleRounds(w: Surroundings, row: Option<Journal>, j: Journal)
    requires Later(j, row) && Rounds(w, 0, row, j, 0).result == Err(ChangedTooManyTimes)
    ensures Rounds(w, 0, row, j, 0).idle >= ROUNDS - j.state.Rank() >= 2
  {
    RoundsAreSpent(w, 0, row, j, 0);
  }

  method RetireOrphan(store: Store, j: Journal, before: seq<Writer>, after: seq<Writer>)
    returns (r: Result<Journal, Failure>)
    modifies store
    ensures var found := AfterWriters(old(store.row), before);
            if found != Some(j) then store.row == found && r == Ok(j)
            else && store.row == AfterWriters(Some(Cancel(j, ORPHANED)), after)
                 && r == if store.row.Some? then Ok(store.row.value) else Err(Disappeared)
  {
    store.OtherWriters(before);
    var cancelled := store.CancelExactly(j);
    if !cancelled {
      return Ok(j);
    }
    store.OtherWriters(after);
    r := if store.row.Some? then Ok(store.row.value) else Err(Disappeared);
  }

  method TryStep(store: Store, rq: Request, before: seq<Writer>, after: seq<Writer>)
    returns (r: Result<bool, CasError>)
    requires !rq.fenced
    modifies store
    ensures var found := AfterWriters(old(store.row), before);
            var won := Fenced(found, rq, true);
            if won && !Legal(found.value, rq) then r == Err(Refusal(found.value, rq)) && store.row == found
            else r.Ok? && r.value == won && store.row == AfterWriters(AfterCas(found, rq, true), after)
  {
    store.OtherWriters(before);
    r := store.CompareAndSet(rq, true);
    if r.Ok? {
      store.OtherWriters(after);
    }
  }

  method ReconcileRound(store: Store, w: Surroundings, k: nat, j: Journal, idle: nat) returns (round: Round)
    modifies store
    ensures round == RoundOf(w, k, old(store.row), j, idle)
    ensures store.row == if round.Ended? then round.call.row else round.row
  {
    var decision := Decide(j, w.seen(k), w.owner);
    match decision {
      case Stop => return Ended(Call(store.row, Ok(j), idle));
      case Fail(failure) => return Ended(Call(store.row, Err(failure), idle));
      case CancelOrphan =>
        var r := RetireOrphan(store, j, w.beforeCas(k), w.beforeRead(k));
        return Ended(Call(store.row, r, idle));
      case LookAgain =>
        store.OtherWriters(w.beforeCas(k));
        return Continues(store.row, j, idle + 1);
      case Try(rq) =>
        var changed := TryStep(store, rq, w.beforeCas(k), w.beforeRead(k));
        if changed.Err? {
          return Ended(Call(store.row, Err(StoreRefused(changed.error)), idle));
        }
        var idled := if changed.value then idle else idle + 1;
        return if store.row.None? then Ended(Call(store.row, Err(Disappeared), idled))
               else Continues(store.row, store.row.value, idled);
    }
  }

  method Reconcile(store: Store, initial: Journal, w: Surroundings) returns (r: Result<Journal, Failure>, idle: nat)
    modifies store
    ensures Call(store.row, r, idle) == Rounds(w, 0, old(store.row), initial, 0)
    ensures Later(initial, old(store.row)) && r == Err(ChangedTooManyTimes) ==> idle >= ROUNDS - initial.state.Rank() >= 2
  {
    var finalization := initial;
    idle := 0;
    if Later(initial, store.row) {
      RoundsAreSpent(w, 0, store.row, initial, 0);
    }
    for k := 0 to ROUNDS
      invariant Rounds(w, k, store.row, finalization, idle) == Rounds(w, 0, old(store.row), initial, 0)
    {
      var round := ReconcileRound(store, w, k, finalization, idle);
      if round.Ended? {
        return round.call.result, round.call.idle;
      }
      finalization, idle := round.seen, round.idle;
    }
    r := Err(ChangedTooManyTimes);
  }

  const SEEN := Observation(false, true, true, true, Some(1), true, false, true, true, true)

  const UNORDERED := Observation(false, true, true, true, Some(1), false, true, true, true, true)

  function Sealed(state: State, commit: Option<Oid>, generation: nat): Journal {
    Journal("s", state, CommitAndPush, Some(0), Baseline(2, Some(0), Some(0), Some(0)), Some("t"), None, commit, generation, None)
  }

  /** A journal that is sealed with two rounds left is completed, but nobody reads it. */
  lemma CompletedUnread(w: Surroundings, j: Journal, idle: nat)
    requires j == Sealed(CommitPending, None, j.generation) && w.owner == None
    requires QuietFrom(w, 4)
    ensures Rounds(w, 4, Some(j), j, idle)
            == Call(Some(Sealed(Completed, Some(1), j.generation + 2)), Err(ChangedTooManyTimes), idle)
  {
    var pushing := Sealed(PushPending, Some(1), j.generation + 1);
    var completed := Sealed(Completed, Some(1), j.generation + 2);
    assert Rounds(w, 6, Some(completed), completed, idle) == Call(Some(completed), Err(ChangedTooManyTimes), idle);
    assert Rounds(w, 5, Some(pushing), pushing, idle) == Rounds(w, 6, Some(completed), completed, idle);
    assert Rounds(w, 4, Some(j), j, idle) == Rounds(w, 5, Some(pushing), pushing, idle);
  }

  function Rebind(generation: nat): seq<Writer> {
    [Cas(Request(generation, Working, None, None, false, None, None, None), true)]
  }

  lemma LostToRebind(w: Surroundings, k: nat, generation: nat, idle: nat)
    requires w.seen(k) == SEEN && w.beforeCas(k) == Rebind(generation) && w.beforeRead(k) == [] && w.owner == None
    requires k < ROUNDS
    ensures var j, j' := Sealed(Working, None, generation), Sealed(Working, None, generation + 1);
            Rounds(w, k, Some(j), j, idle) == Rounds(w, k + 1, Some(j'), j', idle + 1)
  {
    SingleWriter(Some(Sealed(Working, None, generation)), Rebind(generation)[0]);
  }

  /** Two quiet rounds take a sealed journal from Working to CommitPending. */
  lemma ReachesPending(w: Surroundings, k: nat, generation: nat, idle: nat)
    requires k + 2 <= ROUNDS && w.owner == None
    requires forall i :: k <= i < k + 2 ==> w.seen(i) == SEEN && w.beforeCas(i) == [] && w.beforeRead(i) == []
    ensures var j, j' := Sealed(Working, None, generation), Sealed(CommitPending, None, generation + 2);
            Rounds(w, k, Some(j), j, idle) == Rounds(w, k + 2, Some(j'), j', idle)
  {
    var j, j', j'' := Sealed(Working, None, generation), Sealed(Tracking, None, generation + 1), Sealed(CommitPending, None, generation + 2);
    assert Rounds(w, k + 1, Some(j'), j', idle) == Rounds(w, k + 2, Some(j''), j'', idle);
    assert Rounds(w, k, Some(j), j, idle) == Rounds(w, k + 1, Some(j'), j', idle);
  }

  lemma ReorderDecision(j: Journal)
    requires j == Sealed(CommitPending, None, j.generation)
    ensures Decide(j, UNORDERED, None) == LookAgain
  {
  }

  lemma SpentOnReorder(w: Surroundings, j: Journal, idle: nat)
    requires w.owner == None && w.beforeCas(3) == [] && w.seen(3) == UNORDERED
    requires Decide(j, UNORDERED, None) == LookAgain
    ensures Rounds(w, 3, Some(j), j, idle) == Rounds(w, 4, Some(j), j, idle + 1)
  {
  }

  /** The call, from a sealed journal at Working, ends with its own completion unread. */
  ghost predicate EndsUnread(w: Surroundings, j: Journal) {
    var call := Rounds(w, 0, Some(j), j, 0);
    && j == Sealed(Working, None, 0)
    && call.result == Err(ChangedTooManyTimes) && call.idle == 2
    && call.row.Some? && call.row.value.state == Completed
  }

  function Unread(generation: nat): Call {
    Call(Some(Sealed(Completed, Some(1), generation)), Err(ChangedTooManyTimes), 2)
  }

  ghost predicate QuietFrom(w: Surroundings, k: nat) {
    forall i: nat :: i >= k ==> w.seen(i) == SEEN && w.beforeCas(i) == [] && w.beforeRead(i) == []
  }

  lemma UnreadFromTwo(w: Surroundings)
    requires w.owner == None && QuietFrom(w, 2)
    ensures Rounds(w, 2, Some(Sealed(Working, None, 2)), Sealed(Working, None, 2), 2) == Unread(6)
  {
    ReachesPending(w, 2, 2, 2);
    CompletedUnread(w, Sealed(CommitPending, None, 4), 2);
  }

  lemma UnreadFromOne(w: Surroundings)
    requires w.owner == None && QuietFrom(w, 2) && w.seen(1) == SEEN && w.beforeCas(1) == Rebind(1) && w.beforeRead(1) == []
    ensures Rounds(w, 1, Some(Sealed(Working, None, 1)), Sealed(Working, None, 1), 1) == Unread(6)
  {
    LostToRebind(w, 1, 1, 1);
    UnreadFromTwo(w);
  }

  lemma UnreadFromThree(w: Surroundings)
    requires w.owner == None && QuietFrom(w, 4) && w.seen(3) == UNORDERED && w.beforeCas(3) == []
    ensures Rounds(w, 3, Some(Sealed(CommitPending, None, 3)), Sealed(CommitPending, None, 3), 1) == Unread(5)
  {
    ReorderDecision(Sealed(CommitPending, None, 3));
    SpentOnReorder(w, Sealed(CommitPending, None, 3), 1);
    CompletedUnread(w, Sealed(CommitPending, None, 3), 2);
  }

  lemma UnreadAfterReorder(w: Surroundings)
    requires w.owner == None && QuietFrom(w, 4) && w.seen(3) == UNORDERED && w.beforeCas(3) == []
    requires forall i: nat :: 1 <= i < 3 ==> w.seen(i) == SEEN && w.beforeCas(i) == [] && w.beforeRead(i) == []
    ensures Rounds(w, 1, Some(Sealed(Working, None, 1)), Sealed(Working, None, 1), 1) == Unread(5)
  {
    ReachesPending(w, 1, 1, 1);
    UnreadFromThree(w);
  }

  lemma UnreadFromZero(w: Surroundings, generation: nat)
    requires w.owner == None && w.seen(0) == SEEN && w.beforeCas(0) == Rebind(0) && w.beforeRead(0) == []
    requires Rounds(w, 1, Some(Sealed(Working, None, 1)), Sealed(Working, None, 1), 1) == Unread(generation)
    ensures EndsUnread(w, Sealed(Working, None, 0))
  {
    LostToRebind(w, 0, 0, 0);
  }

  /** The bound is tight: two lost races make the call give up although by then its
      own last write has completed the journal. */
  lemma TwoLossesCanExhaust() returns (w: Surroundings, j: Journal)
    ensures Later(j, Some(j)) && EndsUnread(w, j) && forall k: nat :: !w.seen(k).reordered
  {
    j := Sealed(Working, None, 0);
    w := Surroundings(_ => SEEN, (k: nat) => if k < 2 then Rebind(k) else [], _ => [], None);
    UnreadFromOne(w);
    UnreadFromZero(w, 6);
  }

  /** So do one lost race and one repair of the board's order. */
  lemma LossAndRepairCanExhaust() returns (w: Surroundings, j: Journal)
    ensures Later(j, Some(j)) && EndsUnread(w, j) && forall k: nat :: k > 0 ==> w.beforeCas(k) == []
  {
    j := Sealed(Working, None, 0);
    w := Surroundings((k: nat) => if k == 3 then UNORDERED else SEEN, (k: nat) => if k == 0 then Rebind(0) else [], _ => [], None);
    UnreadAfterReorder(w);
    UnreadFromZero(w, 5);
  }

  lemma SingleWriter(row: Option<Journal>, w: Writer)
    ensures AfterWriters(row, [w]) == AfterWriter(row, w)
  {
    assert [w][..0] == [];
    assert AfterWriters(row, []) == row;
  }
}
