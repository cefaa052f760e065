/** Shutting down a child's process group on a system that recycles group IDs.
    Only an unreaped leader keeps the group's number from being given away. */
module ProcessGroup {
  import opened Outcome

  datatype Leader = Running | Zombie | Reaped

  datatype Syscall = Signal(hitStranger: bool) | Reap | Probe(present: bool)

  /** What the rest of the system does before one system call, and how that call fares. */
  datatype Turn = Turn(leaderExits: bool, members: nat, recycled: bool, fails: bool)

  /** The numbered group: our leader, our other members, or a stranger's group under
      the same number. The number is free for others once nobody of ours anchors it. */
  datatype Group = Group(leader: Leader, members: nat, stranger: bool) {
    predicate Valid() { stranger ==> leader == Reaped && members == 0 }

    predicate Exists() { leader != Reaped || members > 0 || stranger }

    /** Only live processes of the group fork into it; a stranger needs a free number. */
    function After(t: Turn): (g: Group)
      requires Valid()
      ensures g.Valid()
      ensures leader == Reaped && members == 0 ==> g.leader == Reaped && g.members == 0
      ensures leader != Reaped ==> g.leader != Reaped
    {
      var leader' := if leader == Running && t.leaderExits then Zombie else leader;
      var members' := if leader == Running || members > 0 then t.members else 0;
      Group(leader', members', leader' == Reaped && members' == 0 && t.recycled)
    }
  }

  ghost predicate NoSignalAfterReap(calls: seq<Syscall>) {
    forall i, j :: 0 <= i < j < |calls| && calls[i] == Reap ==> !calls[j].Signal?
  }

  ghost predicate NoStrangerHit(calls: seq<Syscall>) {
    Signal(true) !in calls
  }

  /** The log itself shows it: some call reaped the leader, a later one found the group gone. */
  ghost predicate ProvenAbsent(calls: seq<Syscall>) {
    exists i, j :: 0 <= i < j < |calls| && calls[i] == Reap && calls[j] == Probe(false)
  }

  lemma OneMoreCall(calls: seq<Syscall>, c: Syscall)
    ensures NoSignalAfterReap(calls + [c]) <==> NoSignalAfterReap(calls) && (c.Signal? ==> Reap !in calls)
    ensures NoStrangerHit(calls + [c]) <==> NoStrangerHit(calls) && c != Signal(true)
  {
    var more := calls + [c];
    if NoSignalAfterReap(more) {
      forall i, j | 0 <= i < j < |calls| && calls[i] == Reap ensures !calls[j].Signal? {
        assert more[i] == Reap && more[j] == calls[j];
      }
      assert more[|calls|] == c;
      forall i | 0 <= i < |calls| && calls[i] == Reap ensures !c.Signal? {
        assert more[i] == Reap;
      }
    }
    if Signal(true) in calls {
      assert Signal(true) in more;
    }
    assert c in more;
  }

  datatype SignalReply = Sent | NoGroup | Rejected

  datatype StopError = SignalRejected | PollFailed | WaitFailed | ProbeFailed | StillPresent

  /** What the shutdown loop writes to standard error; each write may panic. */
  datatype Report = StopReport | PollReport | ProbeReport

  datatype Ending = Stopped | Waiting | Panicked

  /** A signal sent to the group at this moment is delivered to somebody. */
  predicate Answers(g: Group, t: Turn)
    requires g.Valid()
  {
    g.After(t).Exists() && !t.fails
  }

  /** And that somebody is a stranger. */
  predicate AnswersStrange(g: Group, t: Turn)
    requires g.Valid()
  {
    g.After(t).stranger && !t.fails
  }

  // ------------------------------------------------ what the calls do to the group

  type Turns = nat -> Turn

  /** The group between two system calls. */
  datatype Moment = Moment(group: Group, clock: nat) {
    predicate Valid() { group.Valid() }

    predicate IsReaped() { group.leader == Reaped }

    function Next(turns: Turns): (m: Moment)
      requires Valid()
      ensures m.Valid() && (IsReaped() <==> m.IsReaped())
    {
      Moment(group.After(turns(clock)), clock + 1)
    }

    function Reaping(): (m: Moment)
      requires Valid()
      ensures m.Valid() && m.IsReaped()
    {
      Moment(group.(leader := Reaped), clock)
    }

    /** A shutdown attempt started now signals a stranger: first to terminate, then to kill. */
    predicate HitsStranger(turns: Turns)
      requires Valid()
    {
      || AnswersStrange(group, turns(clock))
      || (Answers(group, turns(clock)) && AnswersStrange(Next(turns).group, turns(clock + 1)))
    }
  }

  datatype Attempt = Attempt(moment: Moment, stopped: bool)

  function AfterTryWait(m: Moment, turns: Turns): (n: Moment)
    requires m.Valid()
    ensures n.Valid() && (m.IsReaped() ==> n.IsReaped())
  {
    if m.IsReaped() then m
    else
      var n := m.Next(turns);
      if !turns(m.clock).fails && n.group.leader == Zombie then n.Reaping() else n
  }

  function Watch(m: Moment, turns: Turns, patience: nat): (a: Attempt)
    requires m.Valid() && m.IsReaped()
    ensures a.moment.Valid() && a.moment.IsReaped()
    decreases patience
  {
    if patience == 0 then Attempt(m, false)
    else
      var n := m.Next(turns);
      if turns(m.clock).fails then Attempt(n, false)
      else if !n.group.Exists() then Attempt(n, true)
      else Watch(n, turns, patience - 1)
  }

  function AfterRejection(m: Moment, turns: Turns): (a: Attempt)
    requires m.Valid()
    ensures a.moment.Valid() && (m.IsReaped() ==> a.moment.IsReaped())
  {
    var n := AfterTryWait(m, turns);
    if !n.IsReaped() then Attempt(n, false)
    else Attempt(n.Next(turns), !turns(n.clock).fails && !n.Next(turns).group.Exists())
  }

  function ReapAndWatch(m: Moment, turns: Turns, patience: nat): (a: Attempt)
    requires m.Valid()
    ensures a.moment.Valid() && (m.IsReaped() ==> a.moment.IsReaped())
  {
    if m.IsReaped() then Watch(m, turns, patience)
    else if turns(m.clock).fails then Attempt(m.Next(turns), false)
    else Watch(m.Next(turns).Reaping(), turns, patience)
  }

  function KillAttempt(m: Moment, turns: Turns, patience: nat): (a: Attempt)
    requires m.Valid()
    ensures a.moment.Valid() && (m.IsReaped() ==> a.moment.IsReaped())
  {
    var n := m.Next(turns);
    if n.group.Exists() && turns(m.clock).fails then AfterRejection(n, turns) else ReapAndWatch(n, turns, patience)
  }

  function StopAttempt(m: Moment, turns: Turns, patience: nat): (a: Attempt)
    requires m.Valid()
    ensures a.moment.Valid() && (m.IsReaped() ==> a.moment.IsReaped())
  {
    var n := m.Next(turns);
    if !n.group.Exists() then ReapAndWatch(n, turns, patience)
    else if turns(m.clock).fails then AfterRejection(n, turns)
    else KillAttempt(n, turns, patience)
  }

  datatype Pass = Pass(moment: Moment, ending: Ending)

  /** One round of the shutdown loop; `known` once it holds the leader's status. */
  function PassRound(m: Moment, turns: Turns, patience: nat, round: nat, known: bool, panics: (nat, Report) -> bool): (p: Pass)
    requires m.Valid() && (known ==> m.IsReaped())
    ensures p.moment.Valid() && (m.IsReaped() ==> p.moment.IsReaped())
  {
    if known then
      var n := m.Next(turns);
      if !turns(m.clock).fails && !n.group.Exists() then Pass(n, Stopped)
      else if turns(m.clock).fails && panics(round, ProbeReport) then Pass(n, Panicked)
      else Pass(n, Waiting)
    else
      var a := StopAttempt(m, turns, patience);
      var n := AfterTryWait(a.moment, turns);
      if a.stopped then Pass(a.moment, Stopped)
      else if panics(round, StopReport) then Pass(a.moment, Panicked)
      else if !a.moment.IsReaped() && turns(a.moment.clock).fails && panics(round, PollReport) then Pass(n, Panicked)
      else Pass(n, Waiting)
  }

  /** The shutdown loop from one of its rounds on. */
  function StopPass(m: Moment, turns: Turns, patience: nat, round: nat, rounds: nat, known: bool,
                    panics: (nat, Report) -> bool): (p: Pass)
    requires m.Valid() && round <= rounds && (known ==> m.IsReaped())
    ensures p.moment.Valid()
    decreases rounds - round
  {
    if round == rounds then Pass(m, Waiting)
    else
      var p := PassRound(m, turns, patience, round, known, panics);
      if p.ending.Waiting? then StopPass(p.moment, turns, patience, round + 1, rounds, p.moment.IsReaped(), panics) else p
  }

  lemma {:induction false} PanicNeedsReport(m: Moment, turns: Turns, patience: nat, round: nat, rounds: nat, known: bool,
                                            panics: (nat, Report) -> bool)
    requires m.Valid() && round <= rounds && (known ==> m.IsReaped())
    requires StopPass(m, turns, patience, round, rounds, known, panics).ending == Panicked
    ensures exists k, report :: round <= k < rounds && panics(k, report)
    decreases rounds - round
  {
    var p := PassRound(m, turns, patience, round, known, panics);
    if p.ending.Waiting? {
      PanicNeedsReport(p.moment, turns, patience, round + 1, rounds, p.moment.IsReaped(), panics);
    }
  }

  /** Where the supervisor enters its loop for a second time, if it does. */
  function Relapse(m: Moment, turns: Turns, patience: nat, rounds: nat, early: bool, panics: (nat, Report) -> bool): (r: Option<Moment>)
    requires m.Valid()
    ensures r.Some? ==> r.value.Valid() && rounds > 0
  {
    var first := StopPass(m, turns, patience, 0, rounds, false, panics);
    if !early && first.ending.Panicked? then Some(first.moment) else None
  }

  function SupervisedPass(m: Moment, turns: Turns, patience: nat, rounds: nat, early: bool, panics: (nat, Report) -> bool,
                          panicsAgain: (nat, Report) -> bool): Pass
    requires m.Valid()
  {
    var relapse := Relapse(m, turns, patience, rounds, early, panics);
    if early then StopPass(m, turns, patience, 0, rounds, false, panicsAgain)
    else if relapse.Some? then StopPass(relapse.value, turns, patience, 0, rounds, false, panicsAgain)
    else StopPass(m, turns, patience, 0, rounds, false, panics)
  }

  /** Without a panic there is no second entry. */
  lemma RelapseNeedsReport(m: Moment, turns: Turns, patience: nat, rounds: nat, early: bool, panics: (nat, Report) -> bool)
    requires m.Valid() && Relapse(m, turns, patience, rounds, early, panics).Some?
    ensures !early && exists k, report :: 0 <= k < rounds && panics(k, report)
  {
    PanicNeedsReport(m, turns, patience, 0, rounds, false, panics);
  }

  /** No call fails for a while and some member outlives every signal. */
  ghost predicate Clings(m: Moment, turns: Turns, n: nat) {
    m.group.members > 0 && forall k :: m.clock <= k < m.clock + n ==> !turns(k).fails && turns(k).members > 0
  }

  lemma {:induction false} ClingingMemberWatched(m: Moment, turns: Turns, patience: nat)
    requires m.Valid() && m.IsReaped() && Clings(m, turns, patience)
    ensures var a := Watch(m, turns, patience);
            !a.stopped && a.moment.group.members > 0 && a.moment.clock == m.clock + patience
    decreases patience
  {
    if patience > 0 {
      ClingingMemberWatched(m.Next(turns), turns, patience - 1);
    }
  }

  /** Then an attempt gives up with the leader reaped and the group still there. */
  lemma ClingingMemberStays(m: Moment, turns: Turns, patience: nat)
    requires m.Valid() && !m.IsReaped() && Clings(m, turns, patience + 3)
    ensures var a := StopAttempt(m, turns, patience);
            && !a.stopped && a.moment.IsReaped()
            && a.moment.group.members > 0 && a.moment.clock == m.clock + patience + 3
  {
    var reaped := m.Next(turns).Next(turns).Next(turns).Reaping();
    ClingingMemberWatched(reaped, turns, patience);
  }

  class Kernel {
    const exitStatus: int
    const turns: nat -> Turn
    var clock: nat
    var group: Group
    /** What the parent's handle remembers of a finished wait. */
    var cached: Option<int>
    ghost var calls: seq<Syscall>

    ghost predicate Valid()
      reads this
    {
      && group.Valid()
      && (cached.Some? <==> group.leader == Reaped)
      && (cached.Some? ==> cached.value == exitStatus)
      && (Reap in calls <==> group.leader == Reaped)
    }

    /** Every signal so far was sent while the leader still held the number. */
    ghost predicate Anchored()
      reads this
    {
      NoSignalAfterReap(calls)
    }

    ghost predicate StrangersSpared()
      reads this
    {
      NoStrangerHit(calls)
    }

    ghost predicate GoneForGood()
      reads this
    {
      group.leader == Reaped && group.members == 0 && ProvenAbsent(calls)
    }

    ghost function Now(): Moment
      reads this
    {
      Moment(group, clock)
    }

    constructor (exitStatus: int, turns: nat -> Turn, members: nat)
      ensures Valid() && Anchored() && StrangersSpared() && group == Group(Running, members, false) && clock == 0
      ensures this.exitStatus == exitStatus && this.turns == turns && calls == []
    {
      this.exitStatus, this.turns := exitStatus, turns;
      clock, group, cached, calls := 0, Group(Running, members, false), None, [];
    }

    method Tick() returns (t: Turn)
      requires Valid()
      modifies this`clock, this`group
      ensures Valid() && t == turns(old(clock)) && clock == old(clock) + 1 && group == old(group).After(t)
    {
      t := turns(clock);
      group := group.After(t);
      clock := clock + 1;
    }

    /** Signals whatever carries the group's number at that moment. */
    method SignalGroup() returns (reply: SignalReply)
      requires Valid()
      modifies this
      ensures Valid() && cached == old(cached) && clock == old(clock) + 1 && group == old(group).After(turns(old(clock)))
      ensures reply == if !group.Exists() then NoGroup else if turns(old(clock)).fails then Rejected else Sent
      ensures calls == old(calls) + (if reply == Sent then [Signal(group.stranger)] else [])
      ensures Anchored() <==> old(Anchored()) && (reply == Sent ==> old(group.leader) != Reaped)
      ensures StrangersSpared() <==> old(StrangersSpared()) && (reply == Sent ==> !group.stranger)
    {
      var t := Tick();
      if !group.Exists() {
        return NoGroup;
      }
      if t.fails {
        return Rejected;
      }
      OneMoreCall(calls, Signal(group.stranger));
      calls := calls + [Signal(group.stranger)];
      reply := Sent;
    }

    /** The handle answers from memory once the leader was reaped. */
    method TryWait() returns (r: Result<Option<int>, ()>)
      requires Valid()
      modifies this
      ensures Valid() && old(calls) <= calls
      ensures Anchored() == old(Anchored()) && StrangersSpared() == old(StrangersSpared())
      ensures Now() == AfterTryWait(old(Now()), turns)
      ensures r.Err? <==> old(group.leader) != Reaped && turns(old(clock)).fails
      ensures old(group.leader) == Reaped ==> r == Ok(Some(exitStatus)) && calls == old(calls)
      ensures r.Ok? && r.value.Some? ==> group.leader == Reaped && r.value.value == exitStatus
      ensures r.Err? || r.value.None? ==> group.leader != Reaped && calls == old(calls)
    {
      if cached.Some? {
        return Ok(cached);
      }
      var t := Tick();
      if t.fails {
        return Err(());
      }
      if group.leader != Zombie {
        return Ok(None);
      }
      ReapLeader();
      r := Ok(cached);
    }

    /** Blocks until the leader exits; also answered from memory. */
    method Wait() returns (r: Result<int, ()>)
      requires Valid()
      modifies this
      ensures Valid() && old(calls) <= calls
      ensures Anchored() == old(Anchored()) && StrangersSpared() == old(StrangersSpared())
      ensures Now() == if old(group.leader) == Reaped then old(Now())
                       else if r.Err? then old(Now()).Next(turns) else old(Now()).Next(turns).Reaping()
      ensures r.Err? <==> old(group.leader) != Reaped && turns(old(clock)).fails
      ensures r.Ok? ==> group.leader == Reaped && r.value == exitStatus
      ensures r.Err? ==> group.leader != Reaped && calls == old(calls)
    {
      if cached.Some? {
        return Ok(cached.value);
      }
      var t := Tick();
      if t.fails {
        return Err(());
      }
      group := group.(leader := Zombie);
      ReapLeader();
      r := Ok(exitStatus);
    }

    method ReapLeader()
      requires Valid() && group.leader == Zombie
      modifies this`group, this`cached, this`calls
      ensures Valid() && cached == Some(exitStatus) && calls == old(calls) + [Reap]
      ensures group == old(group).(leader := Reaped)
      ensures Anchored() == old(Anchored()) && StrangersSpared() == old(StrangersSpared())
    {
      OneMoreCall(calls, Reap);
      group := group.(leader := Reaped);
      cached := Some(exitStatus);
      calls := calls + [Reap];
    }

    /** Signal zero: observes, delivers nothing. */
    method GroupExists() returns (r: Result<bool, ()>)
      requires Valid()
      modifies this
      ensures Valid() && cached == old(cached) && (group.leader == Reaped <==> old(group.leader) == Reaped)
      ensures clock == old(clock) + 1 && group == old(group).After(turns(old(clock)))
      ensures if turns(old(clock)).fails then r.Err? else r.Ok? && r.value == group.Exists()
      ensures calls == old(calls) + (if r.Ok? then [Probe(r.value)] else [])
      ensures Anchored() == old(Anchored()) && StrangersSpared() == old(StrangersSpared())
      ensures r.Ok? && !r.value ==> GoneForGood()
    {
      var t := Tick();
      if t.fails {
        return Err(());
      }
      var present := group.Exists();
      ghost var before := calls;
      OneMoreCall(calls, Probe(present));
      calls := calls + [Probe(present)];
      if !present {
        ghost var i :| 0 <= i < |before| && before[i] == Reap;
        assert calls[i] == Reap && calls[|before|] == Probe(false);
      }
      r := Ok(present);
    }

    /** After a rejected signal: accept the rejection only for a reaped leader whose
        group is gone. */
    method RecoverRejectedSignal() returns (r: Result<int, StopError>)
      requires Valid()
      modifies this
      ensures Valid() && old(calls) <= calls && (old(group.leader) == Reaped ==> group.leader == Reaped)
      ensures Anchored() == old(Anchored()) && StrangersSpared() == old(StrangersSpared())
      ensures Attempt(Now(), r.Ok?) == AfterRejection(old(Now()), turns)
      ensures r.Ok? ==> r.value == exitStatus && GoneForGood()
    {
      var polled := TryWait();
      if polled.Err? {
        return Err(PollFailed);
      }
      if polled.value.None? {
        return Err(SignalRejected);
      }
      var present := GroupExists();
      if present.Ok? && !present.value {
        return Ok(polled.value.value);
      }
      r := Err(if present.Err? then ProbeFailed else SignalRejected);
    }

    /** One attempt: terminate, grace period, kill, reap, then watch the group go.
        `patience` probes fit into the time allowed for that. Started on an unreaped
        leader it signals only our own group; started on a reaped one its first signal
        goes to whoever answers. */
    method StopChild(patience: nat) returns (r: Result<int, StopError>)
      requires Valid()
      modifies this
      ensures Valid() && old(calls) <= calls && (old(group.leader) == Reaped ==> group.leader == Reaped)
      ensures Attempt(Now(), r.Ok?) == StopAttempt(old(Now()), turns, patience)
      ensures Anchored() <==> old(Anchored()) && !(old(group.leader) == Reaped && Answers(old(group), turns(old(clock))))
      ensures StrangersSpared() <==> old(StrangersSpared()) && !old(Now()).HitsStranger(turns)
      ensures r.Ok? ==> r.value == exitStatus && GoneForGood()
    {
      var term := SignalGroup();
      if term == Rejected {
        r := RecoverRejectedSignal();
      } else if term == Sent {
        r := KillChild(patience);
      } else {
        r := ReapChild(patience);
      }
    }

    /** The second half of an attempt, once the request to terminate was sent. */
    method KillChild(patience: nat) returns (r: Result<int, StopError>)
      requires Valid()
      modifies this
      ensures Valid() && old(calls) <= calls && (old(group.leader) == Reaped ==> group.leader == Reaped)
      ensures Attempt(Now(), r.Ok?) == KillAttempt(old(Now()), turns, patience)
      ensures Anchored() <==> old(Anchored()) && !(old(group.leader) == Reaped && Answers(old(group), turns(old(clock))))
      ensures StrangersSpared() <==> old(StrangersSpared()) && !AnswersStrange(old(group), turns(old(clock)))
      ensures r.Ok? ==> r.value == exitStatus && GoneForGood()
    {
      var kill := SignalGroup();
      if kill == Rejected {
        r := RecoverRejectedSignal();
      } else {
        r := ReapChild(patience);
      }
    }

    method ReapChild(patience: nat) returns (r: Result<int, StopError>)
      requires Valid()
      modifies this
      ensures Valid() && old(calls) <= calls && (old(group.leader) == Reaped ==> group.leader == Reaped)
      ensures Attempt(Now(), r.Ok?) == ReapAndWatch(old(Now()), turns, patience)
      ensures Anchored() == old(Anchored()) && StrangersSpared() == old(StrangersSpared())
      ensures r.Ok? ==> r.value == exitStatus && GoneForGood()
    {
      var status := Wait();
      if status.Err? {
        return Err(WaitFailed);
      }
      r := WatchGroup(patience, status.value);
    }

    /** Probes the group of a reaped leader until it is gone. */
    method WatchGroup(patience: nat, status: int) returns (r: Result<int, StopError>)
      requires Valid() && group.leader == Reaped && status == exitStatus
      modifies this
      ensures Valid() && old(calls) <= calls && group.leader == Reaped
      ensures Anchored() == old(Anchored()) && StrangersSpared() == old(StrangersSpared())
      ensures Attempt(Now(), r.Ok?) == Watch(old(Now()), turns, patience)
      ensures r.Ok? ==> r.value == exitStatus && GoneForGood()
    {
      for k := 0 to patience
        invariant Valid() && group.leader == Reaped && old(calls) <= calls
        invariant Anchored() == old(Anchored()) && StrangersSpared() == old(StrangersSpared())
        invariant Watch(Now(), turns, patience - k) == Watch(old(Now()), turns, patience)
      {
        var present := GroupExists();
        if present.Err? {
          return Err(ProbeFailed);
        }
        if !present.value {
          return Ok(status);
        }
      }
      r := Err(StillPresent);
    }

    /** Signals only while the leader's status is not known. */
    method StopRound(patience: nat, round: nat, leaderStatus: Option<int>, panics: (nat, Report) -> bool)
      returns (ending: Ending, status: Option<int>)
      requires Valid() && (leaderStatus.Some? ==> leaderStatus.value == exitStatus && group.leader == Reaped)
      modifies this
      ensures Valid() && old(calls) <= calls
      ensures Pass(Now(), ending) == PassRound(old(Now()), turns, patience, round, leaderStatus.Some?, panics)
      ensures Anchored() <==> old(Anchored()) && !(leaderStatus.None? && old(group.leader) == Reaped
                                                   && Answers(old(group), turns(old(clock))))
      ensures StrangersSpared() <==> old(StrangersSpared()) && !(leaderStatus.None? && old(Now()).HitsStranger(turns))
      ensures status == if group.leader == Reaped && !ending.Panicked? then Some(exitStatus) else None
      ensures ending.Stopped? ==> GoneForGood()
    {
      if leaderStatus.Some? {
        var present := GroupExists();
        if present.Ok? && !present.value {
          return Stopped, leaderStatus;
        }
        if present.Err? && panics(round, ProbeReport) {
          return Panicked, None;
        }
        return Waiting, leaderStatus;
      }
      var stopped := StopChild(patience);
      if stopped.Ok? {
        return Stopped, Some(stopped.value);
      }
      if panics(round, StopReport) {
        return Panicked, None;
      }
      var polled := TryWait();
      if polled.Err? {
        return if panics(round, PollReport) then Panicked else Waiting, None;
      }
      return Waiting, polled.value;
    }

    /** The supervisors' loop: signal only while no status is known, afterwards only
        observe. Each report of a failure may panic; `rounds` passes may not be enough. */
    method StopUntilReaped(patience: nat, rounds: nat, panics: (nat, Report) -> bool) returns (ending: Ending, status: Option<int>)
      requires Valid()
      modifies this
      ensures Valid() && old(calls) <= calls && (old(group.leader) == Reaped ==> group.leader == Reaped)
      ensures Pass(Now(), ending) == StopPass(old(Now()), turns, patience, 0, rounds, false, panics)
      ensures Anchored() <==> old(Anchored()) && !(rounds > 0 && old(group.leader) == Reaped
                                                   && Answers(old(group), turns(old(clock))))
      ensures StrangersSpared() <==> old(StrangersSpared()) && !(rounds > 0 && old(Now()).HitsStranger(turns))
      ensures status == (if ending.Stopped? then Some(exitStatus) else None) && (ending.Stopped? ==> GoneForGood())
    {
      status := None;
      for round := 0 to rounds
        invariant Valid() && old(calls) <= calls && (old(group.leader) == Reaped ==> group.leader == Reaped)
        invariant status == if group.leader == Reaped && round > 0 then Some(exitStatus) else None
        invariant round == 0 ==> Now() == old(Now())
        invariant StopPass(Now(), turns, patience, round, rounds, status.Some?, panics)
                  == StopPass(old(Now()), turns, patience, 0, rounds, false, panics)
        invariant Anchored() <==> old(Anchored()) && !(round > 0 && old(group.leader) == Reaped
                                                       && Answers(old(group), turns(old(clock))))
        invariant StrangersSpared() <==> old(StrangersSpared()) && !(round > 0 && old(Now()).HitsStranger(turns))
      {
        ending, status := StopRound(patience, round, status, panics);
        if !ending.Waiting? {
          return;
        }
      }
      ending, status := Waiting, None;
    }

    /** The automated supervisor. A panic is caught once and the loop entered again, with
        the leader's status forgotten. `Relapse` says from the schedule alone where that
        happens. A signal then follows the reaping exactly when the leader was reaped
        before the panic and somebody answers under its number, and a stranger is
        signalled exactly when one answers. `early` is a panic before the first entry. */
    method SuperviseStop(patience: nat, rounds: nat, early: bool, panics: (nat, Report) -> bool,
                         panicsAgain: (nat, Report) -> bool) returns (ending: Ending, status: Option<int>)
      requires Valid() && group.leader != Reaped && Anchored() && StrangersSpared()
      modifies this
      ensures Valid() && status == (if ending.Stopped? then Some(exitStatus) else None) && (ending.Stopped? ==> GoneForGood())
      ensures var relapse := Relapse(old(Now()), turns, patience, rounds, early, panics);
              && (Anchored() <==> !(relapse.Some? && relapse.value.IsReaped()
                                    && Answers(relapse.value.group, turns(relapse.value.clock))))
              && (StrangersSpared() <==> !(relapse.Some? && relapse.value.IsReaped() && relapse.value.HitsStranger(turns)))
      ensures Pass(Now(), ending) == SupervisedPass(old(Now()), turns, patience, rounds, early, panics, panicsAgain)
    {
      if early {
        ending, status := StopUntilReaped(patience, rounds, panicsAgain);
        return;
      }
      ending, status := StopUntilReaped(patience, rounds, panics);
      if ending.Panicked? {
        ending, status := StopUntilReaped(patience, rounds, panicsAgain);
      }
    }
  }

  /** One member outlives the kill signal and the five seconds of watching, writing that
      down panics, and by then the number belongs to a stranger. */
  lemma ClingingMemberRelapses(m: Moment, turns: Turns, patience: nat, rounds: nat, panics: (nat, Report) -> bool)
    requires m.Valid() && !m.IsReaped() && Clings(m, turns, patience + 3)
    requires rounds > 0 && panics(0, StopReport)
    requires var t := turns(m.clock + patience + 3); !t.fails && t.members == 0 && t.recycled
    ensures var relapse := Relapse(m, turns, patience, rounds, false, panics);
            relapse.Some? && relapse.value.IsReaped() && relapse.value.HitsStranger(turns)
  {
    ClingingMemberStays(m, turns, patience);
  }

  /** Such a schedule, with its run: the stranger's group is signalled. */
  method StrangerIsHit(patience: nat, rounds: nat) returns (k: Kernel)
    requires rounds > 0
    ensures !k.Anchored() && !k.StrangersSpared()
  {
    var turns: Turns := now => if now < patience + 3 then Turn(false, 1, false, false) else Turn(false, 0, true, false);
    var panics: (nat, Report) -> bool := (round, report) => true;
    k := new Kernel(0, turns, 1);
    ClingingMemberRelapses(k.Now(), turns, patience, rounds, panics);
    var ending, status := k.SuperviseStop(patience, rounds, false, panics, panics);
  }

  // --------------------------------------------------------- why anchoring matters

  /** Once reaped and seen empty, no later moment holds a member of ours again:
      whatever answers under the number from then on is a stranger. */
  lemma {:induction false} AbsenceIsFinal(g: Group, turns: seq<Turn>)
    requires g.Valid() && g.leader == Reaped && g.members == 0
    ensures Later(g, turns).leader == Reaped && Later(g, turns).members == 0
    decreases turns
  {
    if turns != [] {
      AbsenceIsFinal(g.After(turns[0]), turns[1..]);
    }
  }

  function Later(g: Group, turns: seq<Turn>): (g': Group)
    requires g.Valid()
    ensures g'.Valid()
    decreases turns
  {
    if turns == [] then g else Later(g.After(turns[0]), turns[1..])
  }

  /** The number can pass to a stranger exactly when the leader has been reaped, which
      is why the loops above stop signalling at that moment and not earlier. */
  lemma StrangerIffReaped(g: Group)
    requires g.Valid()
    ensures CanTurnStrange(g) <==> g.leader == Reaped
  {
    if g.leader == Reaped {
      var path := [Turn(false, 0, true, false)];
      assert Later(g, path) == Later(g.After(path[0]), []);
    } else {
      forall turns ensures !Later(g, turns).stranger {
        AnchoredStaysOurs(g, turns);
      }
    }
  }

  ghost predicate CanTurnStrange(g: Group)
    requires g.Valid()
  {
    exists turns :: Later(g, turns).stranger
  }

  lemma {:induction false} AnchoredStaysOurs(g: Group, turns: seq<Turn>)
    requires g.Valid() && g.leader != Reaped
    ensures Later(g, turns).leader != Reaped
    decreases turns
  {
    if turns != [] {
      AnchoredStaysOurs(g.After(turns[0]), turns[1..]);
    }
  }
}
