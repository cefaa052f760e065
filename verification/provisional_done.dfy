/** Completing a Git-managed task: the journal and the board move together, one
    durable write at a time, and a reconcile call finishes what a crash cut short. */
module ProvisionalDone {
  import opened BoardStatus
  import opened Outcome
  import opened GitHistory
  import opened GitJournal
  import opened TaskBoard
  import opened TaskText

  datatype World = World(row: Journal, board: Columns)

  // ----------------------------------------------------- what a reconcile call sees

  function FirstMarked(r: Reader, column: seq<Entry>): Option<Entry> {
    if column == [] then None
    else if Marked(r, column[0]) then Some(column[0])
    else FirstMarked(r, column[1..])
  }

  /** The session's task is searched in Doing, Todo, Backlog and Done, in that order. */
  predicate DoneInWorktree(r: Reader, b: Columns) {
    && FirstMarked(r, b.doing).None? && FirstMarked(r, b.todo).None? && FirstMarked(r, b.backlog).None?
    && var e := FirstMarked(r, b.done);
       e.Some? && r.finished(TrimEnd(e.value.content))
  }

  /** A reconcile round after a crash, its manifest parent still current. Tracking
      repairs the board first; CommitPending has nothing left to do on the board. */
  function Recover(r: Reader, w: World): World {
    if w.row.state != Tracking then w
    else
      var (board, verdict) := RepairedBoard(r, w.board);
      var o := Observation(false, DoneInWorktree(r, board), true, verdict == Repaired, None, false, false, false, false, false);
      match Decide(w.row, o, None)
      case Try(rq) => World(AfterCas(Some(w.row), rq, true).value, board)
      case Stop => World(w.row, board)
      case Fail(_) => World(w.row, board)
      case CancelOrphan => World(w.row, board)
      case LookAgain => World(w.row, board)
  }

  // ------------------------------------------------------------- the protocol's steps

  /** What the caller holds: its run token, the task it finishes and where it lies. */
  datatype Completion = Completion(token: string, task: string, manifest: Baseline, from: Status, index: nat)

  /** From Working the manifest is sealed; a retry from Tracking only takes ownership. */
  function Begin(j: Journal, c: Completion): Request {
    if j.state == Working
    then Request(j.generation, Tracking, Some(c.task), Some(c.manifest), true, Some(c.token), None, None)
    else Request(j.generation, Tracking, None, None, true, Some(c.token), None, None)
  }

  function Seal(j: Journal, c: Completion): Request {
    Request(j.generation, CommitPending, None, None, true, Some(c.token), None, None)
  }

  predicate Ready(w: World, c: Completion) {
    && w.row.state in {Working, Tracking} && w.row.identity == Some(c.task) && w.row.commit.None?
    && Supported(c.manifest) && (w.row.state == Tracking ==> Supported(w.row.baseline))
  }

  predicate Placed(r: Reader, b: Columns, c: Completion) {
    && c.from != Done && c.index < |b.Of(c.from)|
    && Moved(r, b.doneLayout, b.Of(c.from)[c.index]).Some?
  }

  function Tracked(w: World, c: Completion): Journal { Successor(w.row, Begin(w.row, c)) }

  function Goal(r: Reader, w: World, c: Completion): World
    requires Placed(r, w.board, c)
  {
    var tracked := Tracked(w, c);
    World(Successor(tracked, Seal(tracked, c)), AfterMove(r, w.board, c.from, c.index))
  }

  /** Every state the disk can be in after completion intent was recorded. */
  function Stages(r: Reader, w: World, c: Completion): seq<World>
    requires Placed(r, w.board, c)
  {
    var tracked, e := Tracked(w, c), w.board.Of(c.from)[c.index];
    [World(tracked, w.board)]
    + (if e.kind == Line then [World(tracked, Published(r, w.board, e))] else [])
    + [World(tracked, AfterMove(r, w.board, c.from, c.index)), Goal(r, w, c)]
  }

  lemma StageMembers(r: Reader, w: World, c: Completion)
    requires Placed(r, w.board, c)
    ensures var stages, tracked, e := Stages(r, w, c), Tracked(w, c), w.board.Of(c.from)[c.index];
            && World(tracked, w.board) in stages && Goal(r, w, c) in stages
            && World(tracked, AfterMove(r, w.board, c.from, c.index)) in stages
            && (e.kind == Line ==> World(tracked, Published(r, w.board, e)) in stages)
  {
    var stages := Stages(r, w, c);
    assert stages[0] in stages && stages[1] in stages && stages[|stages| - 2] in stages && stages[|stages| - 1] in stages;
  }

  method CompleteTask(store: Store, files: BoardFiles, r: Reader, c: Completion, running: bool, stillRunning: bool,
                      diesAt: nat) returns (ok: bool)
    requires store.row.Some? && Ready(World(store.row.value, files.b), c)
    requires c.from != Done && c.index < |files.b.Of(c.from)|
    modifies store, files
    ensures store.row.Some?
    ensures var before, after := World(old(store.row.value), old(files.b)), World(store.row.value, files.b);
            && (Placed(r, before.board, c) ==> after == before || after in Stages(r, before, c))
            && (!Placed(r, before.board, c) ==> after == before || after == World(Tracked(before, c), before.board))
            && (ok ==> Placed(r, before.board, c) && after == Goal(r, before, c))
  {
    if Placed(r, files.b, c) {
      StageMembers(r, World(store.row.value, files.b), c);
    }
    if diesAt == 0 {
      return false;
    }
    var tracked := store.CompareAndSet(Begin(store.row.value, c), running);
    if tracked.Err? || !tracked.value {
      return false;
    }
    if diesAt == 1 {
      return false;
    }
    var moved := files.MoveToDone(r, c.from, c.index, if diesAt == 2 then 1 else 2);
    if !moved.Through? || diesAt == 3 {
      return false;
    }
    var current := store.row.value;
    var sealed := store.CompareAndSet(Seal(current, c), stillRunning);
    ok := sealed.Ok? && sealed.value;
  }

  // ------------------------------------------------------------------ crash safety

  /** The selected entry is the session's finished task. */
  predicate Chosen(r: Reader, b: Columns, c: Completion) {
    c.index < |b.Of(c.from)| && Matches(r, b.Of(c.from)[c.index])
  }

  /** An entry that would get in the way of recovery: the same finished task once more, or
      anything carrying the session outside Done. */
  predicate Rival(r: Reader, status: Status, e: Entry) { Matches(r, e) || (status != Done && Marked(r, e)) }

  predicate IsRival(r: Reader, b: Columns, c: Completion, status: Status, k: nat) {
    k < |b.Of(status)| && (status != c.from || k != c.index) && Rival(r, status, b.Of(status)[k])
  }

  ghost predicate Alone(r: Reader, b: Columns, c: Completion) {
    forall status, k: nat :: !IsRival(r, b, c, status, k)
  }

  lemma {:induction false} NoneMatching(r: Reader, column: seq<Entry>)
    requires forall k :: 0 <= k < |column| ==> !Matches(r, column[k])
    ensures Matching(r, column) == []
  {
    if column != [] {
      NoneMatching(r, column[1..]);
    }
  }

  lemma {:induction false} NoneMarked(r: Reader, column: seq<Entry>)
    requires forall k :: 0 <= k < |column| ==> !Marked(r, column[k])
    ensures Matching(r, column) == [] && FirstMarked(r, column) == None
  {
    if column != [] {
      NoneMarked(r, column[1..]);
    }
  }

  lemma OneMarked(r: Reader, column: seq<Entry>, k: nat)
    requires k < |column| && Matches(r, column[k])
    requires forall j :: 0 <= j < |column| && j != k ==> !Marked(r, column[j])
    ensures Matching(r, column) == [column[k]]
    ensures Matching(r, RemoveAt(column, k)) == [] && FirstMarked(r, RemoveAt(column, k)) == None
    ensures Without(r, column) == RemoveAt(column, k)
    ensures LastMatch(r, column) == k
  {
    var less := RemoveAt(column, k);
    forall j | 0 <= j < |less| ensures !Marked(r, less[j]) {
      assert less[j] == if j < k then column[j] else column[j + 1];
    }
    NoneMarked(r, less);
    NoneMarked(r, column[k + 1..]);
    RemovingMatchAt(r, column, k);
    NothingToRemove(r, less);
    assert LastMatch(r, column) == k by {
      var last := LastMatch(r, column);
      assert Matches(r, column[last]);
    }
  }

  lemma MarkedInFront(r: Reader, e: Entry, column: seq<Entry>)
    ensures FirstMarked(r, [e] + column) == if Marked(r, e) then Some(e) else FirstMarked(r, column)
  {
    assert ([e] + column)[1..] == column;
  }

  /** The situation before completion starts. */
  predicate Scene(r: Reader, w: World, c: Completion) {
    Ready(w, c) && Placed(r, w.board, c) && Chosen(r, w.board, c)
  }

  lemma OtherColumns(r: Reader, w: World, c: Completion, status: Status)
    requires Scene(r, w, c) && Alone(r, w.board, c) && status != c.from
    ensures Matching(r, w.board.Of(status)) == []
    ensures status != Done ==> FirstMarked(r, w.board.Of(status)) == None
  {
    var column := w.board.Of(status);
    forall k | 0 <= k < |column| ensures !Rival(r, status, column[k]) {
      assert !IsRival(r, w.board, c, status, k);
    }
    NoneMatching(r, column);
    if status != Done {
      NoneMarked(r, column);
    }
  }

  lemma FromColumn(r: Reader, w: World, c: Completion)
    requires Scene(r, w, c) && Alone(r, w.board, c)
    ensures Matching(r, w.board.Of(c.from)) == [w.board.Of(c.from)[c.index]]
    ensures LastMatch(r, w.board.Of(c.from)) == c.index
    ensures var less := RemoveAt(w.board.Of(c.from), c.index); Matching(r, less) == [] && FirstMarked(r, less) == None
  {
    var column := w.board.Of(c.from);
    forall k | 0 <= k < |column| && k != c.index ensures !Marked(r, column[k]) {
      assert !IsRival(r, w.board, c, c.from, k);
    }
    OneMarked(r, column, c.index);
  }

  /** After the move nothing outside Done carries the session. */
  lemma ActiveColumnsCleared(r: Reader, w: World, c: Completion, status: Status)
    requires Scene(r, w, c) && Alone(r, w.board, c) && status != Done
    ensures var b := AfterMove(r, w.board, c.from, c.index);
            Matching(r, b.Of(status)) == [] && FirstMarked(r, b.Of(status)) == None
  {
    var b := AfterMove(r, w.board, c.from, c.index);
    if status == c.from {
      FromColumn(r, w, c);
      assert b.Of(status) == RemoveAt(w.board.Of(c.from), c.index);
    } else {
      OtherColumns(r, w, c, status);
      assert b.Of(status) == w.board.Of(status);
    }
  }

  lemma FrontOfDone(r: Reader, w: World, c: Completion)
    requires Scene(r, w, c) && Alone(r, w.board, c)
    ensures var b, m := AfterMove(r, w.board, c.from, c.index), Moved(r, w.board.doneLayout, w.board.Of(c.from)[c.index]).value;
            && b.done == [m] + w.board.done
            && Matching(r, b.done) == (if Matches(r, m) then [m] else [])
            && (Marked(r, m) ==> FirstMarked(r, b.done) == Some(m))
  {
    var m := Moved(r, w.board.doneLayout, w.board.Of(c.from)[c.index]).value;
    OtherColumns(r, w, c, Done);
    MovedInFront(r, m, w.board.done);
    MarkedInFront(r, m, w.board.done);
  }

  /** The board once the move is through: the task can only be in front of Done. */
  lemma MovedBoard(r: Reader, w: World, c: Completion)
    requires Scene(r, w, c) && Alone(r, w.board, c)
    ensures var b := AfterMove(r, w.board, c.from, c.index);
            var m := Moved(r, w.board.doneLayout, w.board.Of(c.from)[c.index]).value;
            && Matching(r, b.done) == (if Matches(r, m) then [m] else [])
            && Matching(r, b.todo) == [] && Matching(r, b.doing) == [] && Matching(r, b.backlog) == []
            && (Matches(r, m) ==> DoneInWorktree(r, b))
  {
    ActiveColumnsCleared(r, w, c, Todo);
    ActiveColumnsCleared(r, w, c, Doing);
    ActiveColumnsCleared(r, w, c, Backlog);
    FrontOfDone(r, w, c);
  }

  /** The repair of the unmoved board plans exactly the move that was cut short. */
  lemma PlansTheMove(r: Reader, w: World, c: Completion)
    requires Scene(r, w, c) && Alone(r, w.board, c)
    ensures PlanOf(r, w.board) == if c.from == Backlog then Refuse else Move(c.from, c.index)
  {
    FromColumn(r, w, c);
    OtherColumns(r, w, c, Done);
    if c.from != Backlog {
      OtherColumns(r, w, c, Backlog);
      OtherColumns(r, w, c, if c.from == Todo then Doing else Todo);
      SoleActive(r, w.board, c.from);
    }
  }

  lemma SoleActive(r: Reader, b: Columns, from: Status)
    requires from in {Todo, Doing} && |Matching(r, b.Of(from))| == 1
    requires Matching(r, b.Of(if from == Todo then Doing else Todo)) == []
    ensures |Active(r, b)| == 1 && ActiveStatus(r, b) == from
  {
  }

  /** The step a reconcile round takes from Tracking is the protocol's own last step. */
  lemma SameLastStep(w: World, c: Completion)
    requires Ready(w, c)
    ensures var tracked := Tracked(w, c);
            AfterCas(Some(tracked), Step(tracked, None, CommitPending, None, None), true)
            == Some(Successor(tracked, Seal(tracked, c)))
  {
    var tracked := Tracked(w, c);
    assert tracked.state == Tracking && tracked.identity == Some(c.task) && tracked.owner == Some(c.token);
  }

  lemma TrackingDecision(w: World, c: Completion, o: Observation)
    requires Ready(w, c) && o.parentCurrent
    ensures Decide(Tracked(w, c), o, None) ==
            if o.boardRepaired && o.doneInWorktree then Try(Step(Tracked(w, c), None, CommitPending, None, None)) else Stop
  {
  }

  /** A round that finds the board repaired takes the protocol's own last step. */
  lemma RecoverRepaired(r: Reader, w: World, c: Completion, b: Columns)
    requires Ready(w, c) && RepairedBoard(r, b).1 == Repaired
    ensures var tracked, repaired := Tracked(w, c), RepairedBoard(r, b).0;
            Recover(r, World(tracked, b)) ==
            World(if DoneInWorktree(r, repaired) then Successor(tracked, Seal(tracked, c)) else tracked, repaired)
  {
    var repaired := RepairedBoard(r, b).0;
    var o := Observation(false, DoneInWorktree(r, repaired), true, true, None, false, false, false, false, false);
    SameLastStep(w, c);
    TrackingDecision(w, c, o);
  }

  lemma RecoverRefused(r: Reader, w: World, c: Completion, b: Columns)
    requires Ready(w, c) && RepairedBoard(r, b).1 != Repaired
    ensures Recover(r, World(Tracked(w, c), b)).row == Tracked(w, c)
  {
  }

  lemma RecoverUnmoved(r: Reader, w: World, c: Completion)
    requires Scene(r, w, c) && Alone(r, w.board, c)
    ensures Recover(r, World(Tracked(w, c), w.board)) == Goal(r, w, c)
            <==> c.from != Backlog && DoneInWorktree(r, AfterMove(r, w.board, c.from, c.index))
  {
    PlansTheMove(r, w, c);
    if c.from == Backlog {
      RecoverRefused(r, w, c, w.board);
    } else {
      MovedBoard(r, w, c);
      RecoverRepaired(r, w, c, w.board);
    }
  }

  lemma RecoverMoved(r: Reader, w: World, c: Completion)
    requires Scene(r, w, c) && Alone(r, w.board, c)
    ensures Recover(r, World(Tracked(w, c), AfterMove(r, w.board, c.from, c.index))) == Goal(r, w, c)
            <==> Matches(r, Moved(r, w.board.doneLayout, w.board.Of(c.from)[c.index]).value)
  {
    var b := AfterMove(r, w.board, c.from, c.index);
    MovedBoard(r, w, c);
    if Matching(r, b.done) == [] {
      RecoverRefused(r, w, c, b);
    } else {
      KeptOnce(r, b.done);
      NothingToRemove(r, b.todo);
      NothingToRemove(r, b.doing);
      assert RepairedBoard(r, b) == (b, Repaired);
      RecoverRepaired(r, w, c, b);
    }
  }

  lemma HalfMovedIsNotRepairedFromBacklog(r: Reader, w: World, c: Completion)
    requires Scene(r, w, c) && Alone(r, w.board, c) && c.from == Backlog
    ensures RepairedBoard(r, Published(r, w.board, w.board.Of(c.from)[c.index])).1 == Refused
  {
    FromColumn(r, w, c);
    assert Published(r, w.board, w.board.Of(c.from)[c.index]).backlog == w.board.backlog;
  }

  lemma RecoverHalfMoved(r: Reader, w: World, c: Completion)
    requires Scene(r, w, c) && Alone(r, w.board, c) && w.board.Of(c.from)[c.index].kind == Line
    ensures var e := w.board.Of(c.from)[c.index];
            Recover(r, World(Tracked(w, c), Published(r, w.board, e))) == Goal(r, w, c)
            <==> c.from != Backlog && Faithful(r, w.board.doneLayout, e)
  {
    var e := w.board.Of(c.from)[c.index];
    var half := Published(r, w.board, e);
    if c.from == Backlog {
      HalfMovedIsNotRepairedFromBacklog(r, w, c);
      RecoverRefused(r, w, c, half);
    } else {
      PlansTheMove(r, w, c);
      InterruptedMove(r, w.board, c.from, c.index);
      MovedReadsTheSame(r, w.board.doneLayout, e);
      MovedBoard(r, w, c);
      if RepairedBoard(r, half).1 == Repaired {
        RecoverRepaired(r, w, c, half);
      } else {
        RecoverRefused(r, w, c, half);
      }
    }
  }

  /** What a caller can check beforehand: the task is not in Backlog, its copy keeps the
      text, and nothing on the board rivals it. */
  ghost predicate Recoverable(r: Reader, w: World, c: Completion)
    requires Scene(r, w, c)
  {
    c.from != Backlog && Faithful(r, w.board.doneLayout, w.board.Of(c.from)[c.index]) && Alone(r, w.board, c)
  }

  lemma StageCases(r: Reader, w: World, c: Completion, stage: World)
    requires Placed(r, w.board, c) && stage in Stages(r, w, c)
    ensures || stage == World(Tracked(w, c), w.board)
            || stage == World(Tracked(w, c), AfterMove(r, w.board, c.from, c.index))
            || stage == Goal(r, w, c)
            || (&& w.board.Of(c.from)[c.index].kind == Line
                && stage == World(Tracked(w, c), Published(r, w.board, w.board.Of(c.from)[c.index])))
  {
  }

  lemma GoalStays(r: Reader, w: World, c: Completion)
    requires Placed(r, w.board, c)
    ensures Recover(r, Goal(r, w, c)) == Goal(r, w, c)
  {
    assert Goal(r, w, c).row.state == CommitPending;
  }

  lemma EveryStageRecovers(r: Reader, w: World, c: Completion, stage: World)
    requires Scene(r, w, c) && Recoverable(r, w, c) && stage in Stages(r, w, c)
    ensures Recover(r, stage) == Goal(r, w, c)
  {
    var e := w.board.Of(c.from)[c.index];
    StageCases(r, w, c, stage);
    MovedReadsTheSame(r, w.board.doneLayout, e);
    MovedBoard(r, w, c);
    GoalStays(r, w, c);
    RecoverUnmoved(r, w, c);
    RecoverMoved(r, w, c);
    if e.kind == Line {
      RecoverHalfMoved(r, w, c);
    }
  }

  // ----------------------------------------------------------------- rivals

  lemma {:induction false} FoundIfMarked(r: Reader, column: seq<Entry>, k: nat)
    requires k < |column| && Marked(r, column[k])
    ensures FirstMarked(r, column).Some?
  {
    if k > 0 {
      FoundIfMarked(r, column[1..], k - 1);
    }
  }

  lemma {:induction false} FoundIfMatching(r: Reader, column: seq<Entry>, k: nat)
    requires k < |column| && Matches(r, column[k])
    ensures Matching(r, column) != []
  {
    if k > 0 {
      FoundIfMatching(r, column[1..], k - 1);
    }
  }

  lemma TwoMatches(r: Reader, column: seq<Entry>, i: nat, j: nat)
    requires i < j < |column| && Matches(r, column[i]) && Matches(r, column[j])
    ensures |Matching(r, column)| >= 2
  {
    FoundIfMatching(r, column[..j], i);
    FoundIfMatching(r, column[j..], 0);
    MatchingConcat(r, column[..j], column[j..]);
    assert column == column[..j] + column[j..];
  }

  lemma {:induction false} KeepFirstIsNoLonger(r: Reader, column: seq<Entry>)
    ensures |KeepFirst(r, column)| <= |column| && |Without(r, column)| <= |column|
  {
    if column != [] {
      KeepFirstIsNoLonger(r, column[1..]);
    }
  }

  /** A repair that does not move leaves Done too short for the finished move. */
  lemma UnplannedMoveIsStuck(r: Reader, w: World, c: Completion)
    requires Scene(r, w, c) && !PlanOf(r, w.board).Move?
    ensures Recover(r, World(Tracked(w, c), w.board)) != Goal(r, w, c)
  {
    KeepFirstIsNoLonger(r, w.board.done);
    assert |AfterMove(r, w.board, c.from, c.index).done| == |w.board.done| + 1;
  }

  /** A planned move is the chosen one, and every other match is ruled out by the plan. */
  lemma PlannedIsChosen(r: Reader, w: World, c: Completion)
    requires Scene(r, w, c) && PlanOf(r, w.board).Move?
    ensures PlanOf(r, w.board) == Move(c.from, c.index)
    ensures forall status, k: nat :: IsRival(r, w.board, c, status, k) ==> status != Done && Marked(r, w.board.Of(status)[k])
  {
    var b, p := w.board, PlanOf(r, w.board);
    PlannedMove(r, b, p.from, p.index);
    FoundIfMatching(r, b.Of(c.from), c.index);
    assert p.from == c.from;
    if p.index != c.index {
      TwoMatches(r, b.Of(c.from), if p.index < c.index then p.index else c.index, if p.index < c.index then c.index else p.index);
    }
    forall k: nat | IsRival(r, b, c, Done, k) ensures false {
      FoundIfMatching(r, b.done, k);
    }
  }

  /** Something else that carries the session outside Done is still there after the move. */
  lemma RivalStays(r: Reader, w: World, c: Completion, status: Status, k: nat)
    requires Scene(r, w, c) && IsRival(r, w.board, c, status, k) && status != Done && Marked(r, w.board.Of(status)[k])
    ensures !DoneInWorktree(r, AfterMove(r, w.board, c.from, c.index))
  {
    var b := AfterMove(r, w.board, c.from, c.index);
    if status == c.from {
      assert b.Of(status) == RemoveAt(w.board.Of(status), c.index);
      FoundIfMarked(r, b.Of(status), if k < c.index then k else k - 1);
    } else {
      assert b.Of(status) == w.board.Of(status);
      FoundIfMarked(r, b.Of(status), k);
    }
  }

  lemma RivalIsStuck(r: Reader, w: World, c: Completion, status: Status, k: nat)
    requires Scene(r, w, c) && IsRival(r, w.board, c, status, k)
    ensures Recover(r, World(Tracked(w, c), w.board)) != Goal(r, w, c)
  {
    if PlanOf(r, w.board).Move? {
      PlannedIsChosen(r, w, c);
      RivalStays(r, w, c, status, k);
      RecoverRepaired(r, w, c, w.board);
      assert Tracked(w, c).state == Tracking && Goal(r, w, c).row.state == CommitPending;
    } else {
      UnplannedMoveIsStuck(r, w, c);
    }
  }

  lemma SomeStageIsStuck(r: Reader, w: World, c: Completion)
    requires Scene(r, w, c) && !Recoverable(r, w, c)
    ensures exists stage :: stage in Stages(r, w, c) && Recover(r, stage) != Goal(r, w, c)
  {
    StageMembers(r, w, c);
    if status, k: nat :| IsRival(r, w.board, c, status, k) {
      RivalIsStuck(r, w, c, status, k);
    } else if c.from == Backlog {
      RecoverUnmoved(r, w, c);
    } else {
      RecoverHalfMoved(r, w, c);
    }
  }

  /** A crash anywhere after sealing is undone by recovery, ending in the very board
      and journal of an uninterrupted run. This holds for exactly the moves out of
      Todo or Doing whose copy keeps the text and which have no rival: nothing recovers
      a move out of Backlog, a Markdown list that rewrites the line leaves two copies,
      and another entry of the session is mistaken for the task. */
  lemma CrashSafe(r: Reader, w: World, c: Completion)
    requires Scene(r, w, c)
    ensures (forall stage :: stage in Stages(r, w, c) ==> Recover(r, stage) == Goal(r, w, c))
            <==> c.from != Backlog && Faithful(r, w.board.doneLayout, w.board.Of(c.from)[c.index]) && Alone(r, w.board, c)
  {
    if Recoverable(r, w, c) {
      forall stage | stage in Stages(r, w, c) ensures Recover(r, stage) == Goal(r, w, c) {
        EveryStageRecovers(r, w, c, stage);
      }
    } else {
      SomeStageIsStuck(r, w, c);
    }
  }

  /** The order of the two records: no finished task lies in Done before intent is
      tracked, and once the journal waits for its commit Done holds it exactly once,
      unless the copy stopped reading as the task. */
  lemma DoneImpliesTracked(r: Reader, w: World, c: Completion, stage: World)
    requires Scene(r, w, c) && Alone(r, w.board, c) && (stage == w || stage in Stages(r, w, c))
    ensures Matching(r, stage.board.done) != [] ==> stage.row.state in {Tracking, CommitPending}
    ensures stage.row.state == CommitPending ==>
              (ExactlyOnce(r, stage.board)
               <==> Matches(r, Moved(r, w.board.doneLayout, w.board.Of(c.from)[c.index]).value))
  {
    if stage == w {
      OtherColumns(r, w, c, Done);
      assert w.board.Of(Done) == w.board.done;
    } else if stage == Goal(r, w, c) {
      MovedBoard(r, w, c);
    } else {
      assert stage.row == Tracked(w, c);
    }
  }
}
