/** Who may run Codex for one session: gated launches, registration before release,
    guardians, and stale recovery by others, on a system that reuses process IDs. */
module SessionOwnership {
  import opened Outcome

  type Pid = nat

  /** Run tokens and guardian holders; each launch takes one nobody used before. */
  type Token = nat

  datatype ControlState =
    | Running
    | StopRequested
    | InterruptRequested
    | ReadyInteractive
    | Interactive
    | Stopped
    | ResumeRequested

  /** The session's control row. `launch` is the guardian entitled to register a child. */
  datatype Row = Row(
    state: ControlState,
    child: Option<Pid>,
    token: Option<Token>,
    holder: Option<Token>,
    launch: Option<Token>)

  /** Known: automated, its session ID given at launch. Fresh: automated, its session
      announced by the running child. Guarded: launched by an interactive guardian. */
  datatype LaunchKind = Known | Fresh | Guarded

  /** Gated: waiting at the gate. Approved: the release byte is written. Released: may
      execute Codex. Gone: no process of the group is left. */
  datatype Phase = Gated | Approved | Released | Gone

  datatype Registration = Unregistered | Registered | Refused

  datatype Process = Process(pid: Pid, kind: LaunchKind, token: Token, phase: Phase, registration: Registration)

  datatype World = World(
    row: Option<Row>,
    known: bool,
    procs: seq<Process>,
    used: set<Token>,
    closed: set<Token>,
    foreign: set<Pid>,
    snaps: set<Row>,
    absent: set<Row>)

  const IDLE_STATES := {Stopped, ResumeRequested, ReadyInteractive}

  const AUTOMATED_STATES := {Running, StopRequested, InterruptRequested}

  predicate Idle(row: Option<Row>) {
    row.Some? ==> row.value.state in IDLE_STATES && row.value.child.None?
  }

  /** Process `p` is the one the row names: same number and same generation. */
  predicate Fence(row: Row, p: Process) {
    if p.kind == Guarded then row.launch == Some(p.token)
    else row.launch.None? && row.token == Some(p.token)
  }

  predicate Owns(row: Row, p: Process) {
    row.child == Some(p.pid) && Fence(row, p)
  }

  predicate Present(w: World, pid: Pid) {
    pid in w.foreign || exists i :: 0 <= i < |w.procs| && w.procs[i].phase != Gone && w.procs[i].pid == pid
  }

  predicate AllGone(w: World, token: Token) {
    forall i :: 0 <= i < |w.procs| && w.procs[i].token == token ==> w.procs[i].phase == Gone
  }

  // ---------------------------------------------------------------------- the steps

  /** One atomic step of somebody: a guarded store update, a process changing its
      phase, or an observation. Parents, guardians, supervisors and other schedulers
      may interleave freely, and any of them may simply take no further step. */
  datatype Event =
    // Reservations, resume requests and retirements: they start and end without a child.
    | Rewrite(idle: Option<Row>)
    // A fresh conversation that never registered becomes known once its process is gone.
    | Publish
    // A gated child is started under a token or guardian holder of its own.
    | Spawn(kind: LaunchKind, pid: Pid, token: Token)
    | RegisterKnown(at: nat, claim: bool, leased: bool)
    | RegisterGuarded(at: nat, leased: bool)
    // Marking a session running: a fresh child's registration, a known one's renewal.
    // `fenced` says whether a worker record exists, whose run token is then compared.
    | Mark(at: nat, leased: bool, fenced: bool)
    // The release byte is written; then the gate opens.
    | Approve(at: nat)
    | Exec(at: nat)
    // A group disappears: gate closed, child finished, stopped or killed.
    | Vanish(at: nat)
    | Adopt(from: Token, guardian: Token)
    | RequestStop(pid: Pid, token: Token)
    | RequestInteractiveStop(pid: Pid, token: Token)
    | RequestInterrupt(pid: Pid, token: Token, requester: Token)
    | CancelInterrupt(requester: Token)
    // Stale recovery reads the row, later finds the recorded number absent, and later
    // still updates the row if it is unchanged in the compared columns.
    | Snapshot
    | ProbeAbsent(snap: Row)
    | RecoverAutomated(snap: Row)
    | RecoverGuarded(snap: Row, resume: bool)
    // Clean-ups by, or on behalf of, a run whose own group is gone.
    | FinalizeReaped(at: nat)
    | CompleteStop(at: nat)
    | CompleteInterrupt(at: nat)
    | ClearRunning(at: nat)
    | FinishGuarded(guardian: Token, resume: bool)
    // Other processes of the system come and go, under any number not in use.
    | ForeignChange(pids: set<Pid>)

  function Update(w: World, i: nat, p: Process): World
    requires i < |w.procs|
  {
    w.(procs := w.procs[i := p])
  }

  /** Conditional update: the row changes when the guard holds, otherwise nothing does. */
  function Cas(w: World, guard: bool, row: Option<Row>): World {
    if guard then w.(row := row) else w
  }

  predicate KnownGuard(row: Option<Row>, claim: bool) {
    if claim then row.Some? && row.value.state == ResumeRequested
    else row.None? || row.value == Row(Stopped, None, None, None, None)
  }

  function Refuse(w: World, i: nat): World
    requires i < |w.procs|
  {
    Update(w, i, w.procs[i].(registration := Refused))
  }

  function Accept(w: World, i: nat, row: Row): World
    requires i < |w.procs|
  {
    Update(w, i, w.procs[i].(registration := Registered)).(row := Some(row), known := true)
  }

  predicate MarkGuard(row: Option<Row>, token: Token, fenced: bool) {
    fenced ==> row.None? || row.value.token.None? || row.value.token == Some(token)
  }

  function Marked(row: Option<Row>, p: Process): Row {
    var same := row.Some? && row.value.token == Some(p.token);
    Row(if same && row.value.state in {StopRequested, InterruptRequested} then row.value.state else Running,
        Some(p.pid), Some(p.token),
        if same && row.value.state == InterruptRequested then row.value.holder else None,
        if row.Some? then row.value.launch else None)
  }

  function AutomatedMatch(row: Option<Row>, pid: Pid, token: Token): bool {
    row.Some? && row.value.child == Some(pid) && row.value.token == Some(token)
  }

  /** What becomes of the row once its automated child is proven gone. */
  function AfterExit(row: Row): Row {
    match row.state
    case StopRequested => row.(state := Stopped, child := None, holder := None)
    case InterruptRequested => row.(state := ReadyInteractive, child := None)
    case _ => row.(state := ResumeRequested, child := None, holder := None)
  }

  function Ended(state: ControlState, token: Option<Token>): Row {
    Row(state, None, token, None, None)
  }

  function AfterGuardian(row: Row, resume: bool): Row {
    Ended(if resume && row.state != StopRequested then ResumeRequested else Stopped, row.token)
  }

  predicate At(w: World, i: nat) { w.known && i < |w.procs| }

  /** Is the row, at this moment, what the event's guarded update asks for? */
  predicate Hits(w: World, e: Event) {
    match e
    case RecoverAutomated(s) =>
      w.row.Some? && w.row.value.state == s.state && w.row.value.child == s.child && w.row.value.token == s.token
    case FinalizeReaped(i) =>
      && i < |w.procs| && AutomatedMatch(w.row, w.procs[i].pid, w.procs[i].token)
      && w.row.value.state in AUTOMATED_STATES
      && (w.row.value.state == InterruptRequested ==> w.row.value.holder.Some?)
    case CompleteStop(i) =>
      i < |w.procs| && w.row.Some? && w.row.value.state == StopRequested && w.row.value.token == Some(w.procs[i].token)
    case CompleteInterrupt(i) =>
      && i < |w.procs| && w.row.Some? && w.row.value.state == InterruptRequested
      && w.row.value.token == Some(w.procs[i].token) && w.row.value.holder.Some?
    case ClearRunning(i) =>
      i < |w.procs| && w.row.Some? && w.row.value.state == Running && w.row.value.token == Some(w.procs[i].token)
    case _ => false
  }

  predicate Automated(w: World, i: nat) {
    At(w, i) && w.procs[i].kind != Guarded && w.procs[i].phase == Gone
  }

  ghost predicate Next(w: World, e: Event, w': World) {
    match e
    case Rewrite(row) =>
      && w.known && Idle(w.row) && Idle(row) && (row.Some? ==> row.value.launch.None?)
      && w' == w.(row := row)
    case Publish => !w.known && (forall i :: 0 <= i < |w.procs| ==> w.procs[i].phase == Gone) && w' == w.(known := true)
    case Spawn(kind, pid, token) =>
      && !Present(w, pid)
      && (match kind
          case Fresh => !w.known && w.procs == [] && token !in w.used
          case Known => w.known && token !in w.used
          case Guarded => && w.known && token in w.used && token !in w.closed
                          && forall i :: 0 <= i < |w.procs| ==> w.procs[i].token != token)
      && w' == w.(procs := w.procs + [Process(pid, kind, token, Gated, Unregistered)], used := w.used + {token})
    case RegisterKnown(i, claim, leased) =>
      && At(w, i) && w.procs[i].kind == Known && w.procs[i].registration == Unregistered && w.procs[i].phase == Gated
      && w' == if leased && KnownGuard(w.row, claim)
               then Accept(w, i, Row(Running, Some(w.procs[i].pid), Some(w.procs[i].token), None, None))
               else Refuse(w, i)
    case RegisterGuarded(i, leased) =>
      && At(w, i) && w.procs[i].kind == Guarded && w.procs[i].registration == Unregistered && w.procs[i].phase == Gated
      && var t := Some(w.procs[i].token);
         w' == if && leased && w.row.Some? && w.row.value.state == Interactive && w.row.value.child.None?
                  && w.row.value.holder == t && w.row.value.launch == t
               then Accept(w, i, w.row.value.(child := Some(w.procs[i].pid)))
               else Refuse(w, i)
    case Mark(i, leased, fenced) =>
      && i < |w.procs| && w.procs[i].phase != Gone
      && (if w.procs[i].kind == Fresh then w.procs[i].registration == Unregistered && w.procs[i].phase == Released
          else w.procs[i].kind == Known && w.procs[i].registration == Registered)
      && w' == if leased && MarkGuard(w.row, w.procs[i].token, fenced) then Accept(w, i, Marked(w.row, w.procs[i]))
               else if w.procs[i].kind == Fresh then Refuse(w, i)
               else w
    case Approve(i) =>
      && i < |w.procs| && w.procs[i].phase == Gated
      && (w.procs[i].kind == Fresh || w.procs[i].registration == Registered)
      && w' == Update(w, i, w.procs[i].(phase := Approved))
    case Exec(i) =>
      i < |w.procs| && w.procs[i].phase == Approved && w' == Update(w, i, w.procs[i].(phase := Released))
    case Vanish(i) => i < |w.procs| && w' == Update(w, i, w.procs[i].(phase := Gone))
    case Adopt(from, guardian) =>
      && w.known && guardian !in w.used
      && w' == Cas(w, w.row.Some? && w.row.value.state == ReadyInteractive && w.row.value.holder == Some(from),
                   if w.row.None? then None
                   else Some(Row(Interactive, None, w.row.value.token, Some(guardian), Some(guardian))))
               .(used := w.used + {guardian})
    case RequestStop(pid, token) =>
      w' == Cas(w, AutomatedMatch(w.row, pid, token) && w.row.value.state == Running,
                if w.row.None? then None else Some(w.row.value.(state := StopRequested)))
    case RequestInteractiveStop(pid, token) =>
      w' == Cas(w, && w.row.Some? && w.row.value.state == Interactive && w.row.value.child == Some(pid)
                   && w.row.value.holder == Some(token) && w.row.value.launch == Some(token),
                if w.row.None? then None else Some(w.row.value.(state := StopRequested)))
    case RequestInterrupt(pid, token, requester) =>
      w' == Cas(w, AutomatedMatch(w.row, pid, token) && w.row.value.state == Running,
                if w.row.None? then None
                else Some(w.row.value.(state := InterruptRequested, holder := Some(requester))))
    case CancelInterrupt(requester) =>
      w' == Cas(w, w.row.Some? && w.row.value.state == InterruptRequested && w.row.value.holder == Some(requester),
                if w.row.None? then None else Some(w.row.value.(state := Running, holder := None, launch := None)))
    case Snapshot => w.row.Some? && w' == w.(snaps := w.snaps + {w.row.value})
    case ProbeAbsent(s) =>
      s in w.snaps && (s.child.Some? ==> !Present(w, s.child.value)) && w' == w.(absent := w.absent + {s})
    case RecoverAutomated(s) =>
      && s in w.absent && s.state in {Running, StopRequested} && s.child.Some? && s.launch.None?
      && w' == Cas(w, Hits(w, e), Some(Ended(if s.state == Running then ResumeRequested else Stopped, s.token)))
    case RecoverGuarded(s, resume) =>
      && s in w.absent && s.launch.Some? && s.holder == s.launch && s.state in {Interactive, StopRequested}
      && w' == Cas(w, && w.row.Some? && w.row.value.state in {Interactive, StopRequested}
                      && w.row.value.holder == s.launch && w.row.value.launch == s.launch && w.row.value.child == s.child,
                   if w.row.None? then None else Some(AfterGuardian(w.row.value, resume)))
    case FinalizeReaped(i) =>
      Automated(w, i) && w' == Cas(w, Hits(w, e), if w.row.None? then None else Some(AfterExit(w.row.value)))
    case CompleteStop(i) =>
      Automated(w, i) && w' == Cas(w, Hits(w, e), Some(Ended(Stopped, Some(w.procs[i].token))))
    case CompleteInterrupt(i) =>
      && Automated(w, i)
      && w' == Cas(w, Hits(w, e), if w.row.None? then None
                                  else Some(w.row.value.(state := ReadyInteractive, child := None, launch := None)))
    case ClearRunning(i) =>
      Automated(w, i) && w' == Cas(w, Hits(w, e), None)
    case FinishGuarded(guardian, resume) =>
      && guardian in w.used && AllGone(w, guardian)
      && w' == Cas(w, && w.row.Some? && w.row.value.state in {Interactive, StopRequested}
                      && w.row.value.holder == Some(guardian),
                   if w.row.None? then None else Some(AfterGuardian(w.row.value, resume)))
               .(closed := w.closed + {guardian})
    case ForeignChange(pids) =>
      && (forall i :: 0 <= i < |w.procs| && w.procs[i].phase != Gone ==> w.procs[i].pid !in pids)
      && w' == w.(foreign := pids)
  }

  // ------------------------------------------------------------------ the invariant

  predicate Shape(row: Row) {
    && (row.child.Some? ==> row.state !in IDLE_STATES)
    && (row.launch.Some? ==> || (row.state in {Interactive, StopRequested} && row.holder == row.launch)
                             || (row.state == Stopped && row.holder.None?))
    && (row.state == Interactive ==> row.launch.Some?)
    && (row.state in {Running, StopRequested} && row.launch.None? ==> row.holder.None?)
  }

  /** Live processes have distinct numbers, tokens are never shared, and nothing passes
      the gate unregistered except a fresh child whose session nobody knows yet. */
  ghost predicate ProcsOk(w: World) {
    && (forall i, j :: && 0 <= i < j < |w.procs| && w.procs[i].phase != Gone && w.procs[j].phase != Gone
                       ==> w.procs[i].pid != w.procs[j].pid)
    && (forall i :: 0 <= i < |w.procs| && w.procs[i].phase != Gone ==> w.procs[i].pid !in w.foreign)
    && (forall i, j :: 0 <= i < j < |w.procs| ==> w.procs[i].token != w.procs[j].token)
    && (forall i :: 0 <= i < |w.procs| ==> w.procs[i].token in w.used)
    && (forall i :: && 0 <= i < |w.procs| && w.procs[i].phase in {Approved, Released}
                    ==> w.procs[i].registration == Registered || w.procs[i].kind == Fresh)
    && (forall i :: && 0 <= i < |w.procs| && w.procs[i].kind == Fresh && w.procs[i].registration != Registered && w.known
                    ==> w.procs[i].phase == Gone)
    && w.closed <= w.used
    && (forall i :: 0 <= i < |w.procs| && w.procs[i].token in w.closed ==> w.procs[i].phase == Gone)
  }

  /** Before a fresh session is announced there is one process at most and no row. */
  ghost predicate UnbornOk(w: World) {
    !w.known ==> && w.row.None? && |w.procs| <= 1 && w.snaps == {} && w.absent == {}
                 && forall i :: 0 <= i < |w.procs| ==> w.procs[i].kind == Fresh && w.procs[i].registration != Registered
  }

  /** Every registered live process is the row's child, and every child has an owner. */
  ghost predicate Owned(w: World) {
    && (forall i :: 0 <= i < |w.procs| && w.procs[i].registration == Registered && w.procs[i].phase != Gone
                    ==> w.row.Some? && Owns(w.row.value, w.procs[i]))
    && (w.row.Some? && w.row.value.child.Some? ==> HasOwner(w, w.row.value))
  }

  ghost predicate HasOwner(w: World, row: Row) {
    exists i :: 0 <= i < |w.procs| && w.procs[i].registration == Registered && Owns(row, w.procs[i])
  }

  ghost predicate EvidenceOk(w: World) {
    && w.absent <= w.snaps
    && (forall s :: s in w.snaps && s.child.Some? ==> HasOwner(w, s))
    && (forall s, i :: s in w.absent && 0 <= i < |w.procs| && Owns(s, w.procs[i]) ==> w.procs[i].phase == Gone)
  }

  ghost predicate Inv(w: World) {
    && (w.row.Some? ==> Shape(w.row.value)) && ProcsOk(w) && UnbornOk(w) && Owned(w) && EvidenceOk(w)
  }

  /** No registered process of the session is alive. */
  ghost predicate Vacant(w: World) {
    forall i :: 0 <= i < |w.procs| && w.procs[i].registration == Registered ==> w.procs[i].phase == Gone
  }

  /** An automated clean-up empties the row of a child that is still alive. */
  ghost predicate Forgets(w: World, e: Event) {
    Hits(w, e) && !Vacant(w)
  }

  // -------------------------------------------------------------------- preservation

  /** Processes keep who they are; registered stays registered and gone stays gone. */
  ghost predicate Continues(w: World, w': World) {
    && |w.procs| <= |w'.procs|
    && forall i :: 0 <= i < |w.procs| ==>
                     var p, p' := w.procs[i], w'.procs[i];
                     && p'.pid == p.pid && p'.kind == p.kind && p'.token == p.token
                     && (p.registration == Registered ==> p'.registration == Registered)
                     && (p.phase == Gone ==> p'.phase == Gone)
  }

  lemma OwnerContinues(w: World, w': World, row: Row)
    requires Continues(w, w') && HasOwner(w, row)
    ensures HasOwner(w', row)
  {
    var i :| 0 <= i < |w.procs| && w.procs[i].registration == Registered && Owns(row, w.procs[i]);
    assert Owns(row, w'.procs[i]);
  }

  lemma EvidenceContinues(w: World, w': World)
    requires EvidenceOk(w) && Continues(w, w') && |w'.procs| == |w.procs|
    requires w'.snaps == w.snaps && w'.absent == w.absent
    ensures EvidenceOk(w')
  {
    forall s | s in w'.snaps && s.child.Some? ensures HasOwner(w', s) {
      OwnerContinues(w, w', s);
    }
    forall s, i | s in w'.absent && 0 <= i < |w'.procs| && Owns(s, w'.procs[i]) ensures w'.procs[i].phase == Gone {
      assert Owns(s, w.procs[i]);
    }
  }

  lemma ChildlessIsVacant(w: World)
    requires Owned(w) && (w.row.Some? ==> w.row.value.child.None?)
    ensures Vacant(w)
  {
  }

  lemma ClearingKeepsInv(w: World, w': World)
    requires Inv(w) && Vacant(w) && w.known && w' == w.(row := w'.row)
    requires w'.row.Some? ==> Shape(w'.row.value) && w'.row.value.child.None?
    ensures Inv(w')
  {
    EvidenceContinues(w, w');
  }

  lemma RequestKeepsInv(w: World, w': World)
    requires Inv(w) && w.row.Some? && w'.row.Some? && w' == w.(row := w'.row)
    requires w'.row.value.child == w.row.value.child && w'.row.value.token == w.row.value.token
    requires w'.row.value.launch == w.row.value.launch && Shape(w'.row.value)
    ensures Inv(w')
  {
    EvidenceContinues(w, w');
    forall p ensures Owns(w'.row.value, p) == Owns(w.row.value, p) {
    }
    if w.row.value.child.Some? {
      var i :| 0 <= i < |w.procs| && w.procs[i].registration == Registered && Owns(w.row.value, w.procs[i]);
      assert Owns(w'.row.value, w'.procs[i]);
    }
  }

  /** The guard a caller can check: on a row without a launch token each clean-up is
      justified, for whoever such a row names is gone. */
  lemma CleanupFindsNobody(w: World, e: Event)
    requires Inv(w) && Hits(w, e) && w.row.value.launch.None?
    requires e.RecoverAutomated? ==> e.snap in w.absent && e.snap.launch.None?
    requires !e.RecoverAutomated? ==> Automated(w, e.at)
    ensures Vacant(w)
  {
    var row := w.row.value;
    forall i | 0 <= i < |w.procs| && w.procs[i].registration == Registered ensures w.procs[i].phase == Gone {
      var p := w.procs[i];
      assert p.phase != Gone ==> Owns(row, p);
      if e.RecoverAutomated? {
        assert Owns(row, p) ==> Owns(e.snap, p);
      } else {
        assert Owns(row, p) ==> p.token == w.procs[e.at].token;
        assert p.token == w.procs[e.at].token ==> i == e.at;
      }
    }
  }

  lemma GuardianCleanupFindsNobody(w: World, guardian: Token)
    requires Inv(w) && AllGone(w, guardian) && w.row.Some?
    requires w.row.value.state in {Interactive, StopRequested} && w.row.value.holder == Some(guardian)
    ensures Vacant(w)
  {
    forall i | 0 <= i < |w.procs| && w.procs[i].registration == Registered ensures w.procs[i].phase == Gone {
      assert w.procs[i].phase != Gone ==> Owns(w.row.value, w.procs[i]);
    }
  }

  lemma StaleGuardianFindsNobody(w: World, s: Row)
    requires Inv(w) && s in w.absent && s.launch.Some? && w.row.Some?
    requires w.row.value.launch == s.launch && w.row.value.child == s.child
    ensures Vacant(w)
  {
    forall i | 0 <= i < |w.procs| && w.procs[i].registration == Registered ensures w.procs[i].phase == Gone {
      assert w.procs[i].phase != Gone ==> Owns(w.row.value, w.procs[i]);
      assert Owns(w.row.value, w.procs[i]) ==> Owns(s, w.procs[i]);
    }
  }

  /** A newcomer takes an unused token, so no old evidence speaks of it. */
  lemma SpawnKeepsEvidence(w: World, e: Event, w': World)
    requires Inv(w) && e.Spawn? && Next(w, e, w')
    ensures EvidenceOk(w')
  {
    var n := |w.procs|;
    forall s | s in w'.snaps && s.child.Some? ensures HasOwner(w', s) {
      OwnerContinues(w, w', s);
    }
    forall s, i | s in w'.absent && 0 <= i < |w'.procs| && Owns(s, w'.procs[i]) ensures w'.procs[i].phase == Gone {
      var owner :| 0 <= owner < |w.procs| && w.procs[owner].registration == Registered && Owns(s, w.procs[owner]);
      assert i < n ==> Owns(s, w.procs[i]);
      assert w.procs[owner].token != e.token;
    }
  }

  lemma SpawnKeepsInv(w: World, e: Event, w': World)
    requires Inv(w) && e.Spawn? && Next(w, e, w')
    ensures Inv(w')
  {
    SpawnKeepsEvidence(w, e, w');
    if w.row.Some? && w.row.value.child.Some? {
      OwnerContinues(w, w', w.row.value);
    }
  }

  lemma PhaseKeepsInv(w: World, w': World, i: nat, phase: Phase)
    requires Inv(w) && i < |w.procs| && w' == Update(w, i, w.procs[i].(phase := phase))
    requires w.procs[i].phase == Gone ==> phase == Gone
    requires phase in {Approved, Released} ==>
               w.procs[i].registration == Registered || w.procs[i].kind == Fresh
    ensures Inv(w')
  {
    EvidenceContinues(w, w');
    if w.row.Some? && w.row.value.child.Some? {
      OwnerContinues(w, w', w.row.value);
    }
  }

  lemma RefuseKeepsInv(w: World, w': World, i: nat)
    requires Inv(w) && i < |w.procs| && w.procs[i].registration == Unregistered && w' == Refuse(w, i)
    ensures Inv(w')
  {
    EvidenceContinues(w, w');
    if w.row.Some? && w.row.value.child.Some? {
      OwnerContinues(w, w', w.row.value);
    }
  }

  lemma AcceptKeepsInv(w: World, w': World, i: nat, row: Row)
    requires Inv(w) && i < |w.procs| && w' == Accept(w, i, row) && w.procs[i].phase != Gone
    requires forall j :: 0 <= j < |w.procs| && j != i && w.procs[j].registration == Registered ==> w.procs[j].phase == Gone
    requires Shape(row) && Owns(row, w.procs[i])
    requires !w.known ==> w.snaps == {}
    ensures Inv(w')
  {
    EvidenceContinues(w, w');
    assert Owns(row, w'.procs[i]);
  }

  lemma RegistrationKeepsInv(w: World, e: Event, w': World)
    requires Inv(w) && Next(w, e, w') && (e.RegisterKnown? || e.RegisterGuarded?)
    ensures Inv(w')
  {
    if w' == Refuse(w, e.at) {
      RefuseKeepsInv(w, w', e.at);
    } else {
      ChildlessIsVacant(w);
      AcceptKeepsInv(w, w', e.at, w'.row.value);
    }
  }

  /** A registered process owns the row alone. */
  lemma OwnsAlone(w: World, i: nat)
    requires Inv(w) && i < |w.procs| && w.procs[i].registration == Registered && w.procs[i].phase != Gone
    ensures w.row.Some? && Owns(w.row.value, w.procs[i])
    ensures forall j :: && 0 <= j < |w.procs| && j != i && w.procs[j].registration == Registered
                        ==> w.procs[j].phase == Gone
  {
    forall j | 0 <= j < |w.procs| && j != i && w.procs[j].registration == Registered
      ensures w.procs[j].phase == Gone
    {
      assert w.procs[j].phase != Gone ==> Owns(w.row.value, w.procs[j]);
    }
  }

  lemma MarkKeepsInv(w: World, e: Event, w': World)
    requires Inv(w) && Next(w, e, w') && e.Mark?
    ensures Inv(w')
  {
    var i := e.at;
    if !(e.leased && MarkGuard(w.row, w.procs[i].token, e.fenced)) {
      if w.procs[i].kind == Fresh {
        RefuseKeepsInv(w, w', i);
      }
    } else {
      if w.procs[i].kind == Known {
        OwnsAlone(w, i);
      }
      AcceptKeepsInv(w, w', i, Marked(w.row, w.procs[i]));
    }
  }

  lemma SameProcsSameOwners(w: World, w': World)
    requires w'.procs == w.procs && w'.row == w.row && Owned(w)
    ensures Owned(w') && forall r :: HasOwner(w, r) ==> HasOwner(w', r)
  {
    forall r | HasOwner(w, r) ensures HasOwner(w', r) {
      OwnerContinues(w, w', r);
    }
  }

  lemma AbsentOwnerIsGone(w: World, s: Row)
    requires s.child.Some? ==> !Present(w, s.child.value)
    ensures forall i :: 0 <= i < |w.procs| && Owns(s, w.procs[i]) ==> w.procs[i].phase == Gone
  {
  }

  lemma ProbeKeepsInv(w: World, w': World, s: Row)
    requires Inv(w) && Next(w, ProbeAbsent(s), w')
    ensures Inv(w')
  {
    SameProcsSameOwners(w, w');
    AbsentOwnerIsGone(w, s);
  }

  lemma SnapshotKeepsInv(w: World, w': World)
    requires Inv(w) && Next(w, Snapshot, w')
    ensures Inv(w')
  {
    forall r | r in w'.snaps && r.child.Some? ensures HasOwner(w', r) {
      if r in w.snaps {
        OwnerContinues(w, w', r);
      } else {
        OwnerContinues(w, w', w.row.value);
      }
    }
  }

  lemma ForeignKeepsInv(w: World, w': World, pids: set<Pid>)
    requires Inv(w) && Next(w, ForeignChange(pids), w')
    ensures Inv(w')
  {
    EvidenceContinues(w, w');
    if w.row.Some? && w.row.value.child.Some? {
      OwnerContinues(w, w', w.row.value);
    }
  }

  lemma CleanupKeepsInv(w: World, e: Event, w': World)
    requires Inv(w) && Next(w, e, w') && !Forgets(w, e) && IsCleanup(e)
    ensures Inv(w')
  {
    if Hits(w, e) {
      ClearingKeepsInv(w, w');
    }
  }

  lemma BookkeepingKeepsInv(w: World, w': World)
    requires Inv(w) && w' == w.(used := w'.used, closed := w'.closed) && w.used <= w'.used && w'.closed <= w'.used
    requires forall i :: 0 <= i < |w.procs| && w.procs[i].token in w'.closed ==> w.procs[i].phase == Gone
    ensures Inv(w')
  {
    EvidenceContinues(w, w');
    if w.row.Some? && w.row.value.child.Some? {
      OwnerContinues(w, w', w.row.value);
    }
  }

  lemma AdoptKeepsInv(w: World, e: Event, w': World)
    requires Inv(w) && Next(w, e, w') && e.Adopt?
    ensures Inv(w')
  {
    var middle := w.(row := w'.row);
    if w'.row != w.row {
      ChildlessIsVacant(w);
      ClearingKeepsInv(w, middle);
    }
    BookkeepingKeepsInv(middle, w');
  }

  lemma FinishKeepsInv(w: World, e: Event, w': World)
    requires Inv(w) && Next(w, e, w') && e.FinishGuarded?
    ensures Inv(w')
  {
    var middle := w.(row := w'.row);
    if w'.row != w.row {
      GuardianCleanupFindsNobody(w, e.guardian);
      ClearingKeepsInv(w, middle);
    }
    BookkeepingKeepsInv(middle, w');
  }

  lemma RecoverGuardedKeepsInv(w: World, e: Event, w': World)
    requires Inv(w) && Next(w, e, w') && e.RecoverGuarded?
    ensures Inv(w')
  {
    if w'.row != w.row {
      StaleGuardianFindsNobody(w, e.snap);
      ClearingKeepsInv(w, w');
    }
  }

  lemma RequestStepKeepsInv(w: World, e: Event, w': World)
    requires Inv(w) && Next(w, e, w')
    requires IsRequest(e)
    ensures Inv(w')
  {
    if w' != w {
      RequestKeepsInv(w, w');
    }
  }

  lemma ProcessStepKeepsInv(w: World, e: Event, w': World)
    requires Inv(w) && Next(w, e, w') && (e.Approve? || e.Exec? || e.Vanish?)
    ensures Inv(w')
  {
    match e {
      case Approve(i) => PhaseKeepsInv(w, w', i, Approved);
      case Exec(i) => PhaseKeepsInv(w, w', i, Released);
      case Vanish(i) => PhaseKeepsInv(w, w', i, Gone);
    }
  }

  lemma RewriteKeepsInv(w: World, e: Event, w': World)
    requires Inv(w) && Next(w, e, w') && (e.Rewrite? || e.Publish?)
    ensures Inv(w')
  {
    if e.Rewrite? {
      ChildlessIsVacant(w);
      ClearingKeepsInv(w, w');
    } else {
      EvidenceContinues(w, w');
    }
  }

  predicate IsCleanup(e: Event) {
    e.RecoverAutomated? || e.FinalizeReaped? || e.CompleteStop? || e.CompleteInterrupt? || e.ClearRunning?
  }

  predicate IsRequest(e: Event) {
    e.RequestStop? || e.RequestInteractiveStop? || e.RequestInterrupt? || e.CancelInterrupt?
  }

  predicate IsLaunch(e: Event) {
    e.Spawn? || e.RegisterKnown? || e.RegisterGuarded? || e.Mark? || e.Approve? || e.Exec? || e.Vanish?
  }

  lemma LaunchKeepsInv(w: World, e: Event, w': World)
    requires Inv(w) && Next(w, e, w') && IsLaunch(e)
    ensures Inv(w')
  {
    if e.Spawn? {
      SpawnKeepsInv(w, e, w');
    } else if e.Approve? || e.Exec? || e.Vanish? {
      ProcessStepKeepsInv(w, e, w');
    } else if e.Mark? {
      MarkKeepsInv(w, e, w');
    } else {
      RegistrationKeepsInv(w, e, w');
    }
  }

  lemma GuardianStepKeepsInv(w: World, e: Event, w': World)
    requires Inv(w) && Next(w, e, w') && (e.Adopt? || e.FinishGuarded? || e.RecoverGuarded?)
    ensures Inv(w')
  {
    if e.Adopt? {
      AdoptKeepsInv(w, e, w');
    } else if e.FinishGuarded? {
      FinishKeepsInv(w, e, w');
    } else {
      RecoverGuardedKeepsInv(w, e, w');
    }
  }

  lemma ObservationKeepsInv(w: World, e: Event, w': World)
    requires Inv(w) && Next(w, e, w') && (e.Snapshot? || e.ProbeAbsent? || e.ForeignChange?)
    ensures Inv(w')
  {
    match e {
      case Snapshot => SnapshotKeepsInv(w, w');
      case ProbeAbsent(s) => ProbeKeepsInv(w, w', s);
      case ForeignChange(pids) => ForeignKeepsInv(w, w', pids);
    }
  }

  lemma StepKeepsInv(w: World, e: Event, w': World)
    requires Inv(w) && Next(w, e, w') && !Forgets(w, e)
    ensures Inv(w')
  {
    if IsCleanup(e) {
      CleanupKeepsInv(w, e, w');
    } else if IsRequest(e) {
      RequestStepKeepsInv(w, e, w');
    } else if IsLaunch(e) {
      LaunchKeepsInv(w, e, w');
    } else if e.Rewrite? || e.Publish? {
      RewriteKeepsInv(w, e, w');
    } else if e.Adopt? || e.FinishGuarded? || e.RecoverGuarded? {
      GuardianStepKeepsInv(w, e, w');
    } else {
      ObservationKeepsInv(w, e, w');
    }
  }

  // -------------------------------------------------------------------------- runs

  /** A session that may or may not be known yet, with nothing running for it. */
  predicate Start(w: World) {
    w.row.None? && w.procs == [] && w.used == {} && w.closed == {} && w.snaps == {} && w.absent == {}
  }

  ghost predicate IsRun(run: seq<World>, events: seq<Event>) {
    && |run| == |events| + 1 && Start(run[0])
    && forall k :: 0 <= k < |events| ==> Next(run[k], events[k], run[k + 1])
  }

  ghost predicate ForgetsNobody(run: seq<World>, events: seq<Event>)
    requires |run| == |events| + 1
  {
    forall k :: 0 <= k < |events| ==> !Forgets(run[k], events[k])
  }

  predicate TwoLeaders(w: World) {
    exists i, j :: 0 <= i < j < |w.procs| && w.procs[i].phase == Released && w.procs[j].phase == Released
  }

  lemma InvMeansOneLeader(w: World)
    requires Inv(w)
    ensures !TwoLeaders(w)
  {
    forall i, j | 0 <= i < j < |w.procs| && w.procs[i].phase == Released ensures w.procs[j].phase != Released {
      assert w.known;
      assert w.row.Some? && Owns(w.row.value, w.procs[i]);
      assert w.procs[j].phase == Released ==> Owns(w.row.value, w.procs[j]);
    }
  }

  ghost predicate IsPath(run: seq<World>, events: seq<Event>, w: World) {
    && |run| == |events| + 1 && run[0] == w
    && forall k :: 0 <= k < |events| ==> Next(run[k], events[k], run[k + 1])
  }

  lemma {:induction false} PathsKeepInv(run: seq<World>, events: seq<Event>, k: nat)
    requires k < |run| && Inv(run[0]) && IsPath(run, events, run[0]) && ForgetsNobody(run, events)
    ensures Inv(run[k])
  {
    if k > 0 {
      PathsKeepInv(run, events, k - 1);
      assert Next(run[k - 1], events[k - 1], run[k - 1 + 1]) && !Forgets(run[k - 1], events[k - 1]);
      StepKeepsInv(run[k - 1], events[k - 1], run[k]);
    }
  }

  /** In every interleaving at most one released leader is not yet gone, as long as no
      automated clean-up empties the row of a live child. */
  lemma AtMostOneLeader(run: seq<World>, events: seq<Event>, k: nat)
    requires IsRun(run, events) && ForgetsNobody(run, events) && k < |run|
    ensures Inv(run[k]) && !TwoLeaders(run[k])
  {
    PathsKeepInv(run, events, k);
    InvMeansOneLeader(run[k]);
  }

  /** Only a guardian's child can be forgotten, while it is asked to stop, and it is
      forgotten exactly when it has not gone yet. */
  lemma HitForgetsLiveChild(w: World, e: Event, w': World)
    requires Inv(w) && Next(w, e, w') && Hits(w, e) && w.row.value.launch.Some?
    ensures w.row.value.state == StopRequested && w'.row.Some? && Idle(w'.row)
    ensures Owned(w') <==> Vacant(w)
  {
    if !Vacant(w) {
      var i :| 0 <= i < |w.procs| && w.procs[i].registration == Registered && w.procs[i].phase != Gone;
      assert w'.procs[i].registration == Registered && w'.procs[i].phase != Gone;
    }
  }

  // ------------------------------------------------------- exactly when two can run

  /** Two leaders can come about without anybody being forgotten any more. */
  ghost predicate CanReachTwoLeaders(w: World) {
    exists run, events :: LeadsToTwo(run, events, w)
  }

  ghost predicate LeadsToTwo(run: seq<World>, events: seq<Event>, w: World) {
    IsPath(run, events, w) && ForgetsNobody(run, events) && TwoLeaders(run[|run| - 1])
  }

  lemma InvCannotReachTwoLeaders(w: World)
    requires Inv(w)
    ensures !CanReachTwoLeaders(w)
  {
    forall run, events | IsPath(run, events, w) && ForgetsNobody(run, events) ensures !TwoLeaders(run[|run| - 1]) {
      PathsKeepInv(run, events, |run| - 1);
      InvMeansOneLeader(run[|run| - 1]);
    }
  }

  lemma Before(w: World, e: Event, w': World)
    requires Next(w, e, w') && !Forgets(w, e) && CanReachTwoLeaders(w')
    ensures CanReachTwoLeaders(w)
  {
    var run, events :| LeadsToTwo(run, events, w');
    var run', events' := [w] + run, [e] + events;
    forall k | 0 <= k < |events'| ensures Next(run'[k], events'[k], run'[k + 1]) && !Forgets(run'[k], events'[k]) {
      if k > 0 {
        assert run'[k] == run[k - 1] && events'[k] == events[k - 1] && run'[k + 1] == run[k];
      }
    }
    assert run'[|run'| - 1] == run[|run| - 1];
    assert LeadsToTwo(run', events', w);
  }

  lemma Arrived(w: World)
    requires TwoLeaders(w)
    ensures CanReachTwoLeaders(w)
  {
    assert LeadsToTwo([w], [], w);
  }

  lemma {:induction false} UnusedNumber(taken: set<nat>) returns (n: nat)
    ensures n !in taken && forall m :: m in taken ==> m < n
    decreases |taken|
  {
    if taken == {} {
      n := 0;
    } else {
      var m :| m in taken;
      var rest := UnusedNumber(taken - {m});
      assert taken == (taken - {m}) + {m};
      n := if rest > m then rest else m + 1;
    }
  }

  lemma UnusedPid(w: World) returns (pid: Pid)
    ensures !Present(w, pid)
  {
    pid := UnusedNumber(w.foreign + set i | 0 <= i < |w.procs| :: w.procs[i].pid);
  }

  /** Beside a released process that the row does not name another one can be launched. */
  lemma SecondLaunch(w: World, i: nat)
    requires w.known && w.row == Some(Row(ResumeRequested, None, None, None, None))
    requires i < |w.procs| && w.procs[i].phase == Released
    ensures CanReachTwoLeaders(w)
  {
    var n := |w.procs|;
    var pid := UnusedPid(w);
    var token := UnusedNumber(w.used);
    var p := Process(pid, Known, token, Gated, Unregistered);
    var spawned := Spawned(w, p);
    var registered := Accept(spawned, n, Row(Running, Some(pid), Some(token), None, None));
    var approved := Update(registered, n, registered.procs[n].(phase := Approved));
    var released := Update(approved, n, approved.procs[n].(phase := Released));
    assert released.procs[i].phase == Released && released.procs[n].phase == Released;
    Arrived(released);
    Before(approved, Exec(n), released);
    Before(registered, Approve(n), approved);
    Before(spawned, RegisterKnown(n, true, true), registered);
    Before(w, Spawn(Known, pid, token), spawned);
  }

  lemma ResumeBesideReleased(w: World, i: nat)
    requires w.known && Idle(w.row) && i < |w.procs| && w.procs[i].phase == Released
    ensures CanReachTwoLeaders(w)
  {
    var resumed := w.(row := Some(Row(ResumeRequested, None, None, None, None)));
    SecondLaunch(resumed, i);
    Before(w, Rewrite(resumed.row), resumed);
  }

  lemma ResumeBesideAlive(w: World, i: nat)
    requires w.known && Idle(w.row) && i < |w.procs|
    requires w.procs[i].registration == Registered && w.procs[i].phase != Gone
    ensures CanReachTwoLeaders(w)
  {
    var approved := Update(w, i, w.procs[i].(phase := Approved));
    var released := Update(w, i, w.procs[i].(phase := Released));
    ResumeBesideReleased(released, i);
    if w.procs[i].phase == Released {
      assert released.procs == w.procs;
      assert released == w;
    } else {
      assert released == Update(approved, i, approved.procs[i].(phase := Released));
      Before(approved, Exec(i), released);
      if w.procs[i].phase == Approved {
        assert approved.procs == w.procs;
        assert approved == w;
      } else {
        Before(w, Approve(i), approved);
      }
    }
  }

  lemma ForgottenChildAllowsTwoLeaders(w: World, e: Event, w': World)
    requires Inv(w) && Next(w, e, w') && Forgets(w, e)
    ensures CanReachTwoLeaders(w')
  {
    if w.row.value.launch.None? {
      CleanupFindsNobody(w, e);
    } else {
      HitForgetsLiveChild(w, e, w');
      var i :| 0 <= i < |w.procs| && w.procs[i].registration == Registered && w.procs[i].phase != Gone;
      assert w'.procs == w.procs && w'.known;
      ResumeBesideAlive(w', i);
    }
  }

  /** After a run in which nobody was forgotten, one more step makes two leaders
      possible exactly when it forgets a live child. */
  lemma TwoLeadersExactly(run: seq<World>, events: seq<Event>, e: Event, w': World)
    requires IsRun(run, events) && ForgetsNobody(run, events) && Next(run[|run| - 1], e, w')
    ensures CanReachTwoLeaders(w') <==> Forgets(run[|run| - 1], e)
  {
    var w := run[|run| - 1];
    AtMostOneLeader(run, events, |run| - 1);
    if Forgets(w, e) {
      ForgottenChildAllowsTwoLeaders(w, e, w');
    } else {
      StepKeepsInv(w, e, w');
      InvCannotReachTwoLeaders(w');
    }
  }

  /** Somewhere in the run a stopped run's own completion forgot a guardian's child. */
  ghost predicate HasLateCompletion(run: seq<World>, events: seq<Event>) {
    exists k :: 0 <= k < |events| < |run| && LateCompletion(run[k], events[k])
  }

  ghost predicate LateCompletion(w: World, e: Event) {
    e.CompleteStop? && Forgets(w, e)
  }

  lemma Extend(run: seq<World>, events: seq<Event>, e: Event, w: World) returns (run': seq<World>, events': seq<Event>)
    requires IsRun(run, events) && Next(run[|run| - 1], e, w)
    ensures IsRun(run', events') && run'[|run'| - 1] == w && |run'| == |run| + 1
    ensures HasLateCompletion(run, events) || LateCompletion(run[|run| - 1], e) ==> HasLateCompletion(run', events')
  {
    run', events' := run + [w], events + [e];
    forall k | 0 <= k < |events'| ensures Next(run'[k], events'[k], run'[k + 1]) {
      if k < |events| {
        assert Next(run[k], events[k], run[k + 1]);
      }
    }
    if k :| 0 <= k < |events| < |run| && LateCompletion(run[k], events[k]) {
      assert LateCompletion(run'[k], events'[k]);
    } else if LateCompletion(run[|run| - 1], e) {
      assert LateCompletion(run'[|events|], events'[|events|]);
    }
  }

  // ------------------------------------------------------------- refused children

  ghost predicate GateHeld(w: World) {
    forall i :: 0 <= i < |w.procs| && w.procs[i].phase in {Approved, Released} ==>
                  w.procs[i].registration == Registered || w.procs[i].kind == Fresh
  }

  lemma StepKeepsGate(w: World, e: Event, w': World)
    requires GateHeld(w) && Next(w, e, w')
    ensures GateHeld(w') && Settled(w, w')
  {
    StepSettles(w, e, w');
  }

  lemma StepSettles(w: World, e: Event, w': World)
    requires Next(w, e, w')
    ensures Settled(w, w')
  {
  }

  /** Processes are never removed, and a registration once decided stays decided. */
  ghost predicate Settled(w: World, w': World) {
    && |w.procs| <= |w'.procs|
    && forall i :: 0 <= i < |w.procs| ==>
                     && w'.procs[i].kind == w.procs[i].kind
                     && (w.procs[i].kind != Fresh && w.procs[i].registration != Unregistered
                         ==> w'.procs[i].registration == w.procs[i].registration)
  }

  lemma {:induction false} RunKeepsGate(run: seq<World>, events: seq<Event>, first: nat, last: nat)
    requires IsRun(run, events) && first <= last < |run|
    ensures GateHeld(run[last]) && Settled(run[first], run[last])
    decreases last
  {
    if last > 0 {
      assert Next(run[last - 1], events[last - 1], run[last - 1 + 1]);
      RunKeepsGate(run, events, if first < last then first else last - 1, last - 1);
      StepKeepsGate(run[last - 1], events[last - 1], run[last]);
    }
  }

  ghost predicate RefusedYetExecuted(run: seq<World>, i: nat, kind: LaunchKind) {
    exists k, m :: 0 <= k < |run| && 0 <= m < |run| && RefusedAt(run[k], i, kind) && ExecutedAt(run[m], i)
  }

  predicate RefusedAt(w: World, i: nat, kind: LaunchKind) {
    i < |w.procs| && w.procs[i].kind == kind && w.procs[i].registration == Refused
  }

  predicate ExecutedAt(w: World, i: nat) {
    i < |w.procs| && w.procs[i].phase == Released
  }

  lemma RefusedNeverExecutes(run: seq<World>, events: seq<Event>, i: nat, kind: LaunchKind)
    requires IsRun(run, events) && kind != Fresh
    ensures !RefusedYetExecuted(run, i, kind)
  {
    if k, m :| 0 <= k < |run| && 0 <= m < |run| && RefusedAt(run[k], i, kind) && ExecutedAt(run[m], i) {
      RunKeepsGate(run, events, if k < m then k else m, if k < m then m else k);
      RunKeepsGate(run, events, m, m);
    }
  }

  function FreshWorld(phase: Phase, registration: Registration): World {
    World(None, false, [Process(1, Fresh, 1, phase, registration)], {1}, {}, {}, {}, {})
  }

  lemma FreshApproved() returns (run: seq<World>, events: seq<Event>)
    ensures IsRun(run, events) && run[|run| - 1] == FreshWorld(Approved, Unregistered)
  {
    var w0 := World(None, false, [], {}, {}, {}, {}, {});
    run, events := [w0], [];
    run, events := Extend(run, events, Spawn(Fresh, 1, 1), FreshWorld(Gated, Unregistered));
    run, events := Extend(run, events, Approve(0), FreshWorld(Approved, Unregistered));
  }

  lemma FreshRefusal() returns (run: seq<World>, events: seq<Event>)
    ensures IsRun(run, events) && RefusedYetExecuted(run, 0, Fresh)
  {
    run, events := FreshApproved();
    run, events := Extend(run, events, Exec(0), FreshWorld(Released, Unregistered));
    run, events := Extend(run, events, Mark(0, false, true), FreshWorld(Released, Refused));
    assert RefusedAt(run[|run| - 1], 0, Fresh) && ExecutedAt(run[|run| - 1], 0);
  }

  /** A child whose registration is refused never executes, in any interleaving,
      exactly when its launch knows the session: a fresh conversation is already
      running when its announced session is registered. */
  lemma RefusedExecutesOnlyFresh(kind: LaunchKind)
    ensures (exists run, events, i :: IsRun(run, events) && RefusedYetExecuted(run, i, kind)) <==> kind == Fresh
  {
    if kind == Fresh {
      var run, events := FreshRefusal();
    } else {
      forall run, events, i | IsRun(run, events) ensures !RefusedYetExecuted(run, i, kind) {
        RefusedNeverExecutes(run, events, i, kind);
      }
    }
  }

  // --------------------------------------------------------- a recovered guardian

  /** The row's guardian is `t`, and this step recovers it as stale. */
  predicate RecoversGuardian(w: World, e: Event, t: Token) {
    && e.RecoverGuarded? && e.snap.launch == Some(t) && w.row.Some? && w.row.value.state in {Interactive, StopRequested}
    && w.row.value.holder == Some(t) && w.row.value.launch == Some(t) && w.row.value.child == e.snap.child
  }

  /** The guardian's token is spent: its children are gone, or wait at the gate and can
      no longer register. */
  ghost predicate CutOff(w: World, t: Token) {
    && t in w.used && (w.row.Some? ==> w.row.value.launch != Some(t))
    && forall i :: 0 <= i < |w.procs| && w.procs[i].kind == Guarded && w.procs[i].token == t ==>
                     w.procs[i].phase == Gone || (w.procs[i].phase == Gated && w.procs[i].registration != Registered)
  }

  lemma StepKeepsCutOff(w: World, e: Event, w': World, t: Token)
    requires CutOff(w, t) && Next(w, e, w')
    ensures CutOff(w', t)
  {
  }

  ghost predicate LaunchUsed(w: World) {
    w.row.Some? && w.row.value.launch.Some? ==> w.row.value.launch.value in w.used
  }

  lemma {:induction false} RunKeepsLaunchUsed(run: seq<World>, events: seq<Event>, k: nat)
    requires IsRun(run, events) && k < |run|
    ensures LaunchUsed(run[k])
  {
    if k > 0 {
      RunKeepsLaunchUsed(run, events, k - 1);
      assert Next(run[k - 1], events[k - 1], run[k - 1 + 1]);
    }
  }

  lemma RecoveryCutsOff(w: World, e: Event, w': World, t: Token)
    requires Inv(w) && GateHeld(w) && LaunchUsed(w) && Next(w, e, w') && RecoversGuardian(w, e, t)
    ensures CutOff(w', t)
  {
    StaleGuardianFindsNobody(w, e.snap);
  }

  /** Once a stale guardian was recovered, none of its children executes any more:
      registered ones are gone, and the others, started before or after, stay gated. */
  lemma {:induction false} RecoveredGuardianNeverExecutes(run: seq<World>, events: seq<Event>, k: nat, later: nat, t: Token)
    requires IsRun(run, events) && ForgetsNobody(run, events)
    requires k < later < |run| && RecoversGuardian(run[k], events[k], t)
    ensures CutOff(run[later], t)
    decreases later
  {
    assert Next(run[later - 1], events[later - 1], run[later - 1 + 1]);
    if later == k + 1 {
      AtMostOneLeader(run, events, k);
      RunKeepsGate(run, events, k, k);
      RunKeepsLaunchUsed(run, events, k);
      RecoveryCutsOff(run[k], events[k], run[later], t);
    } else {
      RecoveredGuardianNeverExecutes(run, events, k, later - 1, t);
      StepKeepsCutOff(run[later - 1], events[later - 1], run[later], t);
    }
  }

  // ------------------------------------------------------- the clean-up that is late

  /** Some run ends in this world, having met such a completion if `late` says so. */
  ghost predicate Reachable(w: World, late: bool) {
    exists run, events :: EndsIn(run, events, w, late)
  }

  ghost predicate EndsIn(run: seq<World>, events: seq<Event>, w: World, late: bool) {
    IsRun(run, events) && run[|run| - 1] == w && (late ==> HasLateCompletion(run, events))
  }

  lemma Step(w: World, e: Event, w': World, late: bool)
    requires Reachable(w, late) && Next(w, e, w')
    ensures Reachable(w', late) && (LateCompletion(w, e) ==> Reachable(w', true))
  {
    var run, events :| EndsIn(run, events, w, late);
    var run', events' := Extend(run, events, e, w');
    assert EndsIn(run', events', w', late);
    if LateCompletion(w, e) {
      assert EndsIn(run', events', w', true);
    }
  }

  function Spawned(w: World, p: Process): World {
    w.(procs := w.procs + [p], used := w.used + {p.token})
  }

  function Launched(w: World, p: Process, row: Row): World {
    w.(procs := w.procs + [p.(phase := Released, registration := Registered)], used := w.used + {p.token}, row := Some(row))
  }

  /** One process waits at the gate, registers through `e`, and is released. */
  lemma Launch(w: World, p: Process, e: Event, row: Row, late: bool)
    requires Reachable(w, late) && w.known && p.phase == Gated && p.registration == Unregistered
    requires Next(w, Spawn(p.kind, p.pid, p.token), Spawned(w, p))
    requires Next(Spawned(w, p), e, Accept(Spawned(w, p), |w.procs|, row))
    ensures Reachable(Launched(w, p, row), late)
  {
    var i, q := |w.procs|, p.(registration := Registered);
    Step(w, Spawn(p.kind, p.pid, p.token), Spawned(w, p), late);
    var registered := Accept(Spawned(w, p), i, row);
    Step(Spawned(w, p), e, registered, late);
    var approved := Update(registered, i, q.(phase := Approved));
    Step(registered, Approve(i), approved, late);
    var released := Update(approved, i, q.(phase := Released));
    Step(approved, Exec(i), released, late);
    assert released.procs == w.procs + [q.(phase := Released)];
  }

  const GONE_RUN := Process(1, Known, 1, Gone, Registered)

  lemma RunningRun()
    ensures Reachable(World(Some(Row(Running, Some(1), Some(1), None, None)), true,
                            [GONE_RUN.(phase := Released)], {1}, {}, {}, {}, {}), false)
  {
    var w0 := World(None, true, [], {}, {}, {}, {}, {});
    var p, row := Process(1, Known, 1, Gated, Unregistered), Row(Running, Some(1), Some(1), None, None);
    assert EndsIn([w0], [], w0, false);
    Launch(w0, p, RegisterKnown(0, false, true), row, false);
    assert Launched(w0, p, row).used == {1} && Launched(w0, p, row).procs == [GONE_RUN.(phase := Released)];
  }

  /** An automated run was stopped and its group proven gone; its token stays in the row. */
  lemma StoppedRun()
    ensures Reachable(World(Some(Row(Stopped, None, Some(1), None, None)), true, [GONE_RUN], {1}, {}, {}, {}, {}), false)
  {
    RunningRun();
    var w1 := World(Some(Row(Running, Some(1), Some(1), None, None)), true,
                    [GONE_RUN.(phase := Released)], {1}, {}, {}, {}, {});
    var w2 := w1.(row := Some(Row(StopRequested, Some(1), Some(1), None, None)));
    Step(w1, RequestStop(1, 1), w2, false);
    var w3 := w2.(procs := [GONE_RUN]);
    Step(w2, Vanish(0), w3, false);
    var w4 := w3.(row := Some(Row(Stopped, None, Some(1), None, None)));
    Step(w3, FinalizeReaped(0), w4, false);
  }

  const LIVE_GUARDED := Process(2, Guarded, 2, Released, Registered)

  /** The user then opened the session: the guardian's child runs under the old token. */
  lemma ReopenedAfterStop()
    ensures Reachable(World(Some(Row(Interactive, Some(2), Some(1), Some(2), Some(2))), true,
                            [GONE_RUN, LIVE_GUARDED], {1, 2}, {}, {}, {}, {}), false)
  {
    StoppedRun();
    var w0 := World(Some(Row(Stopped, None, Some(1), None, None)), true, [GONE_RUN], {1}, {}, {}, {}, {});
    var w1 := w0.(row := Some(Row(ReadyInteractive, None, Some(1), Some(9), None)));
    Step(w0, Rewrite(w1.row), w1, false);
    var w2 := w1.(row := Some(Row(Interactive, None, Some(1), Some(2), Some(2))), used := {1} + {2});
    Step(w1, Adopt(9, 2), w2, false);
    var q, row := Process(2, Guarded, 2, Gated, Unregistered), Row(Interactive, Some(2), Some(1), Some(2), Some(2));
    Launch(w2, q, RegisterGuarded(1, true), row, false);
    assert Launched(w2, q, row).used == {1, 2};
    assert Launched(w2, q, row).procs == [GONE_RUN, LIVE_GUARDED];
  }

  /** The late completion meets the user's request to stop the guardian and empties the row. */
  lemma ForgottenGuardian()
    ensures Reachable(World(Some(Row(ResumeRequested, None, Some(1), None, None)), true,
                            [GONE_RUN, LIVE_GUARDED], {1, 2}, {}, {}, {}, {}), true)
  {
    ReopenedAfterStop();
    var w0 := World(Some(Row(Interactive, Some(2), Some(1), Some(2), Some(2))), true,
                    [GONE_RUN, LIVE_GUARDED], {1, 2}, {}, {}, {}, {});
    var w1 := w0.(row := Some(Row(StopRequested, Some(2), Some(1), Some(2), Some(2))));
    Step(w0, RequestInteractiveStop(2, 2), w1, false);
    var w2 := w1.(row := Some(Row(Stopped, None, Some(1), None, None)));
    assert w1.procs[1] == LIVE_GUARDED && !Vacant(w1);
    assert LateCompletion(w1, CompleteStop(0));
    Step(w1, CompleteStop(0), w2, false);
    var w3 := w2.(row := Some(Row(ResumeRequested, None, Some(1), None, None)));
    Step(w2, Rewrite(w3.row), w3, true);
  }

  /** So the condition above is needed: a second leader can be released after it. */
  lemma LateCompletionAllowsTwoLeaders() returns (w: World)
    ensures Reachable(w, true) && TwoLeaders(w)
  {
    ForgottenGuardian();
    var w0 := World(Some(Row(ResumeRequested, None, Some(1), None, None)), true,
                    [GONE_RUN, LIVE_GUARDED], {1, 2}, {}, {}, {}, {});
    var p, row := Process(3, Known, 3, Gated, Unregistered), Row(Running, Some(3), Some(3), None, None);
    Launch(w0, p, RegisterKnown(2, true, true), row, true);
    w := Launched(w0, p, row);
    assert w.procs[1].phase == Released && w.procs[2].phase == Released;
  }
}
