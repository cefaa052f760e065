/** The task board as lists of entries, the move to Done, and the repair that
    undoes the duplicates an interrupted move leaves behind. */
module TaskBoard {
  import opened BoardStatus
  import opened Outcome
  import opened TaskText

  datatype Kind = Line | File | Directory

  datatype Layout = Markdown | Folder

  datatype Entry = Entry(content: string, kind: Kind)

  datatype Columns = Columns(todo: seq<Entry>, doing: seq<Entry>, done: seq<Entry>, backlog: seq<Entry>, doneLayout: Layout) {
    function Of(status: Status): seq<Entry> {
      match status
      case Todo => todo
      case Doing => doing
      case Done => done
      case Backlog => backlog
    }

    function With(status: Status, entries: seq<Entry>): Columns {
      match status
      case Todo => this.(todo := entries)
      case Doing => this.(doing := entries)
      case Done => this.(done := entries)
      case Backlog => this.(backlog := entries)
    }
  }

  /** How the text of a task is read. `marked` finds the session's marker at its end,
      `finished` its dated note, `copied` is what a Markdown list makes of the text. */
  datatype Reader = Reader(
    marked: string -> bool,
    sameTask: string -> bool,
    finished: string -> bool,
    copied: string -> string)

  // -------------------------------------------------------------------- matching

  predicate Marked(r: Reader, e: Entry) { r.marked(TrimEnd(e.content)) }

  /** The entry is the finished task of this session and identity. */
  predicate Matches(r: Reader, e: Entry) {
    var text := TrimEnd(e.content);
    r.marked(text) && r.sameTask(text) && r.finished(text)
  }

  function Without(r: Reader, column: seq<Entry>): seq<Entry> {
    if column == [] then []
    else (if Matches(r, column[0]) then [] else [column[0]]) + Without(r, column[1..])
  }

  function KeepFirst(r: Reader, column: seq<Entry>): seq<Entry> {
    if column == [] then []
    else if Matches(r, column[0]) then [column[0]] + Without(r, column[1..])
    else [column[0]] + KeepFirst(r, column[1..])
  }

  function Matching(r: Reader, column: seq<Entry>): seq<Entry> {
    if column == [] then []
    else (if Matches(r, column[0]) then [column[0]] else []) + Matching(r, column[1..])
  }

  function LastMatch(r: Reader, column: seq<Entry>): (k: nat)
    requires Matching(r, column) != []
    ensures k < |column| && Matches(r, column[k]) && Matching(r, column[k + 1..]) == []
  {
    if Matching(r, column[1..]) == [] then 0
    else
      var k := LastMatch(r, column[1..]);
      assert column[k + 2..] == column[1..][k + 1..];
      k + 1
  }

  lemma Regrouped(a: seq<Entry>, b: seq<Entry>, c: seq<Entry>)
    ensures a + (b + c) == (a + b) + c
  {
  }

  lemma {:induction false} MatchingConcat(r: Reader, a: seq<Entry>, b: seq<Entry>)
    ensures Matching(r, a + b) == Matching(r, a) + Matching(r, b)
  {
    if a == [] {
      assert a + b == b;
    } else {
      var first := if Matches(r, a[0]) then [a[0]] else [];
      MatchingConcat(r, a[1..], b);
      assert (a + b)[0] == a[0] && (a + b)[1..] == a[1..] + b;
      Regrouped(first, Matching(r, a[1..]), Matching(r, b));
    }
  }

  lemma {:induction false} WithoutConcat(r: Reader, a: seq<Entry>, b: seq<Entry>)
    ensures Without(r, a + b) == Without(r, a) + Without(r, b)
  {
    if a == [] {
      assert a + b == b;
    } else {
      var first := if Matches(r, a[0]) then [] else [a[0]];
      WithoutConcat(r, a[1..], b);
      assert (a + b)[0] == a[0] && (a + b)[1..] == a[1..] + b;
      Regrouped(first, Without(r, a[1..]), Without(r, b));
    }
  }

  lemma {:induction false} KeepFirstConcat(r: Reader, a: seq<Entry>, b: seq<Entry>)
    ensures KeepFirst(r, a + b) ==
            if Matching(r, a) != [] then KeepFirst(r, a) + Without(r, b) else a + KeepFirst(r, b)
  {
    if a == [] {
      assert a + b == b;
    } else {
      var first, rest := [a[0]], a[1..];
      assert (a + b)[0] == a[0] && (a + b)[1..] == rest + b;
      if Matches(r, a[0]) {
        WithoutConcat(r, rest, b);
        Regrouped(first, Without(r, rest), Without(r, b));
      } else {
        KeepFirstConcat(r, rest, b);
        assert Matching(r, a) == Matching(r, rest);
        Regrouped(first, KeepFirst(r, rest), Without(r, b));
        Regrouped(first, rest, KeepFirst(r, b));
        assert first + rest == a;
      }
    }
  }

  lemma {:induction false} NothingToRemove(r: Reader, column: seq<Entry>)
    requires Matching(r, column) == []
    ensures Without(r, column) == column && KeepFirst(r, column) == column
  {
    if column != [] {
      NothingToRemove(r, column[1..]);
      assert !Matches(r, column[0]);
    }
  }

  lemma {:induction false} WithoutHasNone(r: Reader, column: seq<Entry>)
    ensures Matching(r, Without(r, column)) == []
    ensures Without(r, Without(r, column)) == Without(r, column)
  {
    if column != [] {
      WithoutHasNone(r, column[1..]);
      var first := if Matches(r, column[0]) then [] else [column[0]];
      MatchingConcat(r, first, Without(r, column[1..]));
    }
    NothingToRemove(r, Without(r, column));
  }

  lemma {:induction false} KeptOnce(r: Reader, column: seq<Entry>)
    ensures Without(r, KeepFirst(r, column)) == Without(r, column)
    ensures Matching(r, KeepFirst(r, column)) ==
            if Matching(r, column) == [] then [] else [Matching(r, column)[0]]
    ensures |Matching(r, column)| <= 1 ==> KeepFirst(r, column) == column
  {
    if column != [] {
      var rest := column[1..];
      if Matches(r, column[0]) {
        WithoutHasNone(r, rest);
        MatchingConcat(r, [column[0]], Without(r, rest));
        WithoutConcat(r, [column[0]], Without(r, rest));
        if |Matching(r, column)| <= 1 {
          assert Matching(r, column) == [column[0]] + Matching(r, rest);
          NothingToRemove(r, rest);
        }
      } else {
        KeptOnce(r, rest);
        MatchingConcat(r, [column[0]], KeepFirst(r, rest));
        WithoutConcat(r, [column[0]], KeepFirst(r, rest));
      }
    }
  }

  function RemoveAt(column: seq<Entry>, k: nat): seq<Entry>
    requires k < |column|
  {
    column[..k] + column[k + 1..]
  }

  lemma DroppedBetween(r: Reader, before: seq<Entry>, e: Entry, after: seq<Entry>)
    requires Matches(r, e) && Matching(r, after) == []
    ensures Matching(r, before + [e] + after) == Matching(r, before) + [e]
    ensures Matching(r, before + after) == Matching(r, before)
    ensures Without(r, before + after) == Without(r, before + [e] + after)
  {
    MatchingConcat(r, before + [e], after);
    MatchingConcat(r, before, [e]);
    MatchingConcat(r, before, after);
    WithoutConcat(r, before + [e], after);
    WithoutConcat(r, before, [e]);
    WithoutConcat(r, before, after);
  }

  lemma DroppedBetweenKeepsFirst(r: Reader, before: seq<Entry>, e: Entry, after: seq<Entry>)
    requires Matches(r, e) && Matching(r, before) != []
    ensures KeepFirst(r, before + after) == KeepFirst(r, before + [e] + after)
  {
    KeepFirstConcat(r, before + [e], after);
    KeepFirstConcat(r, before, [e]);
    KeepFirstConcat(r, before, after);
    MatchingConcat(r, before, [e]);
  }

  /** Dropping the last of several matches changes neither what the repair keeps
      nor what it leaves alone. */
  lemma RemovingMatchAt(r: Reader, column: seq<Entry>, k: nat)
    requires k < |column| && Matches(r, column[k]) && Matching(r, column[k + 1..]) == []
    ensures Without(r, RemoveAt(column, k)) == Without(r, column)
    ensures Matching(r, column) == Matching(r, RemoveAt(column, k)) + [column[k]]
    ensures |Matching(r, column)| > 1 ==> KeepFirst(r, RemoveAt(column, k)) == KeepFirst(r, column)
  {
    var before, e, after := column[..k], column[k], column[k + 1..];
    assert column == before + [e] + after;
    DroppedBetween(r, before, e, after);
    if |Matching(r, column)| > 1 {
      DroppedBetweenKeepsFirst(r, before, e, after);
    }
  }

  // ------------------------------------------------------------------ moving to Done

  /** How an entry looks once it is in Done; a folder task has no place in a Markdown list. */
  function Moved(r: Reader, layout: Layout, e: Entry): Option<Entry> {
    if e.kind != Line then (if layout == Folder then Some(e) else None)
    else if layout == Folder then Some(Entry(TrimEnd(e.content) + "\n", File))
    else Some(Entry(r.copied(e.content), Line))
  }

  /** The copy a Markdown list makes keeps the trimmed text. Other moves always do. */
  predicate Faithful(r: Reader, layout: Layout, e: Entry) {
    e.kind == Line && layout == Markdown ==> TrimEnd(r.copied(e.content)) == TrimEnd(e.content)
  }

  lemma MovedReadsTheSame(r: Reader, layout: Layout, e: Entry)
    requires Moved(r, layout, e).Some?
    ensures Faithful(r, layout, e) <==> TrimEnd(Moved(r, layout, e).value.content) == TrimEnd(e.content)
  {
    TrimEndOfFile(e.content);
  }

  function Published(r: Reader, b: Columns, e: Entry): Columns
    requires Moved(r, b.doneLayout, e).Some?
  {
    b.(done := [Moved(r, b.doneLayout, e).value] + b.done)
  }

  /** The finished move: the moved entry in front of Done, the original gone. */
  function AfterMove(r: Reader, b: Columns, from: Status, k: nat): Columns
    requires from != Done && k < |b.Of(from)| && Moved(r, b.doneLayout, b.Of(from)[k]).Some?
  {
    Published(r, b, b.Of(from)[k]).With(from, RemoveAt(b.Of(from), k))
  }

  // ---------------------------------------------------------------------- the repair

  datatype Verdict = Repaired | Refused | MoveFailed

  function Active(r: Reader, b: Columns): seq<Entry> {
    Matching(r, b.todo) + Matching(r, b.doing)
  }

  predicate SafeDuplicate(e: Entry, canonical: string) {
    e.kind != Directory && TrimEnd(e.content) == canonical
  }

  predicate DuplicatesAreSafe(r: Reader, b: Columns)
    requires Matching(r, b.done) != []
  {
    var canonical := TrimEnd(Matching(r, b.done)[0].content);
    forall e :: e in Matching(r, b.done) + Active(r, b) ==> SafeDuplicate(e, canonical)
  }

  function ActiveStatus(r: Reader, b: Columns): Status {
    if Matching(r, b.todo) != [] then Todo else Doing
  }

  /** What a repair decides before it writes anything. */
  datatype Plan = Refuse | Move(from: Status, index: nat) | Deduplicate

  function PlanOf(r: Reader, b: Columns): (p: Plan)
    ensures p.Move? ==> && p.from in {Todo, Doing} && p.index < |b.Of(p.from)|
                        && Matches(r, b.Of(p.from)[p.index]) && Matching(r, b.Of(p.from)[p.index + 1..]) == []
    ensures p.Deduplicate? ==> Matching(r, b.done) != []
  {
    if Matching(r, b.backlog) != [] then Refuse
    else if Matching(r, b.done) == [] then
      if |Active(r, b)| != 1 then Refuse
      else
        var from := ActiveStatus(r, b);
        Move(from, LastMatch(r, b.Of(from)))
    else if (Active(r, b) != [] || |Matching(r, b.done)| > 1) && !DuplicatesAreSafe(r, b) then Refuse
    else Deduplicate
  }

  function RepairedBoard(r: Reader, b: Columns): (Columns, Verdict) {
    match PlanOf(r, b)
    case Refuse => (b, Refused)
    case Move(from, k) =>
      if Moved(r, b.doneLayout, b.Of(from)[k]).None? then (b, MoveFailed)
      else (AfterMove(r, b, from, k), Repaired)
    case Deduplicate =>
      (b.(todo := Without(r, b.todo), doing := Without(r, b.doing), done := KeepFirst(r, b.done)), Repaired)
  }

  // ------------------------------------------------ what a repaired board looks like

  ghost predicate ExactlyOnce(r: Reader, b: Columns) {
    |Matching(r, b.done)| == 1 && Active(r, b) == [] && Matching(r, b.backlog) == []
  }

  ghost predicate OthersUntouched(r: Reader, b: Columns, b': Columns) {
    && Without(r, b'.todo) == Without(r, b.todo) && Without(r, b'.doing) == Without(r, b.doing)
    && Without(r, b'.done) == Without(r, b.done) && b'.backlog == b.backlog && b'.doneLayout == b.doneLayout
  }

  /** The entry a repair moves still reads as the finished task afterwards. */
  predicate MoveKeepsMatch(r: Reader, b: Columns) {
    var p := PlanOf(r, b);
    p.Move? && Moved(r, b.doneLayout, b.Of(p.from)[p.index]).Some? ==>
      Matches(r, Moved(r, b.doneLayout, b.Of(p.from)[p.index]).value)
  }

  lemma MovedInFront(r: Reader, e: Entry, column: seq<Entry>)
    requires Matching(r, column) == []
    ensures Matching(r, [e] + column) == if Matches(r, e) then [e] else []
    ensures Without(r, [e] + column) == Without(r, column) <==> Matches(r, e)
  {
    assert ([e] + column)[1..] == column;
    NothingToRemove(r, column);
    if !Matches(r, e) {
      assert |Without(r, [e] + column)| == |column| + 1;
    }
  }

  lemma PlannedMove(r: Reader, b: Columns, from: Status, k: nat)
    requires PlanOf(r, b) == Move(from, k)
    ensures Matching(r, b.backlog) == [] && Matching(r, b.done) == [] && Matching(r, b.Of(from)) == [b.Of(from)[k]]
    ensures Matching(r, if from == Todo then b.doing else b.todo) == []
    ensures Matching(r, RemoveAt(b.Of(from), k)) == [] && Without(r, b.Of(from)) == RemoveAt(b.Of(from), k)
  {
    RemovingMatchAt(r, b.Of(from), k);
    assert |Matching(r, b.Of(from))| == 1;
    assert Matching(r, RemoveAt(b.Of(from), k)) == [];
    NothingToRemove(r, RemoveAt(b.Of(from), k));
  }

  /** The board after a planned move, seen from the entry it put in front of Done. */
  lemma MovedOutcome(r: Reader, b: Columns, b': Columns, from: Status, m: Entry, left: seq<Entry>)
    requires from in {Todo, Doing} && b' == b.(done := [m] + b.done).With(from, left)
    requires Matching(r, b.backlog) == [] && Matching(r, b.done) == [] && Matching(r, left) == []
    requires Matching(r, if from == Todo then b.doing else b.todo) == [] && Without(r, left) == Without(r, b.Of(from))
    ensures ExactlyOnce(r, b') <==> Matches(r, m)
    ensures OthersUntouched(r, b, b') <==> Matches(r, m)
  {
    MovedInFront(r, m, b.done);
  }

  lemma MoveOutcome(r: Reader, b: Columns, from: Status, k: nat)
    requires PlanOf(r, b) == Move(from, k) && Moved(r, b.doneLayout, b.Of(from)[k]).Some?
    ensures var b' := AfterMove(r, b, from, k);
            && ExactlyOnce(r, b') == MoveKeepsMatch(r, b)
            && OthersUntouched(r, b, b') == MoveKeepsMatch(r, b)
  {
    var left := RemoveAt(b.Of(from), k);
    PlannedMove(r, b, from, k);
    NothingToRemove(r, left);
    MovedOutcome(r, b, AfterMove(r, b, from, k), from, Moved(r, b.doneLayout, b.Of(from)[k]).value, left);
  }

  /** Repaired means exactly once, with every other entry in place and in order;
      the single exception is a Markdown copy that stops reading as the task. */
  lemma RepairIsExactlyOnce(r: Reader, b: Columns)
    requires RepairedBoard(r, b).1 == Repaired
    ensures ExactlyOnce(r, RepairedBoard(r, b).0) <==> MoveKeepsMatch(r, b)
    ensures OthersUntouched(r, b, RepairedBoard(r, b).0) <==> MoveKeepsMatch(r, b)
  {
    var p := PlanOf(r, b);
    if p.Move? {
      MoveOutcome(r, b, p.from, p.index);
    } else {
      KeptOnce(r, b.done);
      WithoutHasNone(r, b.todo);
      WithoutHasNone(r, b.doing);
    }
  }

  predicate PlannedMoveIsFaithful(r: Reader, b: Columns) {
    var p := PlanOf(r, b);
    p.Move? ==> Faithful(r, b.doneLayout, b.Of(p.from)[p.index])
  }

  /** Only a copy into a Markdown list can lose the match. */
  lemma FaithfulMoveKeepsMatch(r: Reader, b: Columns)
    requires PlannedMoveIsFaithful(r, b)
    ensures MoveKeepsMatch(r, b)
  {
    var p := PlanOf(r, b);
    if p.Move? && Moved(r, b.doneLayout, b.Of(p.from)[p.index]).Some? {
      MovedReadsTheSame(r, b.doneLayout, b.Of(p.from)[p.index]);
    }
  }

  lemma RepairTwice(r: Reader, b: Columns)
    requires RepairedBoard(r, b).1 == Repaired && MoveKeepsMatch(r, b)
    ensures RepairedBoard(r, RepairedBoard(r, b).0) == RepairedBoard(r, b)
  {
    var b' := RepairedBoard(r, b).0;
    RepairIsExactlyOnce(r, b);
    NothingToRemove(r, b'.todo);
    NothingToRemove(r, b'.doing);
    KeptOnce(r, b'.done);
  }

  // --------------------------------------------------------- interrupted anywhere

  /** What the board looks like between publishing the copy and removing the original. */
  lemma HalfMoved(r: Reader, b: Columns, from: Status, k: nat)
    requires PlanOf(r, b) == Move(from, k) && b.Of(from)[k].kind == Line
    ensures var e, half := b.Of(from)[k], Published(r, b, b.Of(from)[k]);
            var m := Moved(r, b.doneLayout, e).value;
            && half.todo == b.todo && half.doing == b.doing && half.backlog == b.backlog && half.doneLayout == b.doneLayout
            && half.done == [m] + b.done && Matching(r, half.done) == (if Matches(r, m) then [m] else [])
            && Active(r, half) == [e]
  {
    PlannedMove(r, b, from, k);
    MovedInFront(r, Moved(r, b.doneLayout, b.Of(from)[k]).value, b.done);
  }

  /** One copy in Done and one alike elsewhere: the repair drops the other one. */
  lemma TwinIsDropped(r: Reader, half: Columns, e: Entry, m: Entry)
    requires Matching(r, half.backlog) == [] && Matching(r, half.done) == [m] && Active(r, half) == [e]
    requires e.kind != Directory && m.kind != Directory && TrimEnd(m.content) == TrimEnd(e.content)
    ensures RepairedBoard(r, half) == (half.(todo := Without(r, half.todo), doing := Without(r, half.doing)), Repaired)
  {
    assert DuplicatesAreSafe(r, half);
    KeptOnce(r, half.done);
  }

  lemma InterruptedMoveRepairs(r: Reader, b: Columns, from: Status, k: nat)
    requires PlanOf(r, b) == Move(from, k) && b.Of(from)[k].kind == Line && Faithful(r, b.doneLayout, b.Of(from)[k])
    ensures RepairedBoard(r, Published(r, b, b.Of(from)[k])) == RepairedBoard(r, b)
  {
    var e := b.Of(from)[k];
    var half := Published(r, b, e);
    HalfMoved(r, b, from, k);
    MovedReadsTheSame(r, b.doneLayout, e);
    PlannedMove(r, b, from, k);
    TwinIsDropped(r, half, e, Moved(r, b.doneLayout, e).value);
    NothingToRemove(r, if from == Todo then b.doing else b.todo);
    assert AfterMove(r, b, from, k) == half.(todo := Without(r, half.todo), doing := Without(r, half.doing));
  }

  lemma UnfaithfulCopyIsRefused(r: Reader, b: Columns, from: Status, k: nat)
    requires PlanOf(r, b) == Move(from, k) && b.Of(from)[k].kind == Line && !Faithful(r, b.doneLayout, b.Of(from)[k])
    requires Matches(r, Moved(r, b.doneLayout, b.Of(from)[k]).value)
    ensures RepairedBoard(r, Published(r, b, b.Of(from)[k])) == (Published(r, b, b.Of(from)[k]), Refused)
  {
    var e := b.Of(from)[k];
    var half := Published(r, b, e);
    HalfMoved(r, b, from, k);
    MovedReadsTheSame(r, b.doneLayout, e);
    assert e in Matching(r, half.done) + Active(r, half);
    assert !SafeDuplicate(e, TrimEnd(Matching(r, half.done)[0].content));
  }

  lemma UnreadableCopyIsMovedAgain(r: Reader, b: Columns, from: Status, k: nat)
    requires PlanOf(r, b) == Move(from, k) && b.Of(from)[k].kind == Line
    requires !Matches(r, Moved(r, b.doneLayout, b.Of(from)[k]).value)
    ensures |RepairedBoard(r, Published(r, b, b.Of(from)[k])).0.done| == |b.done| + 2
  {
    HalfMoved(r, b, from, k);
    PlannedMove(r, b, from, k);
    assert PlanOf(r, Published(r, b, b.Of(from)[k])) == Move(from, k);
  }

  /** The move writes the copy before it removes the original. Stopped in between,
      the next repair finishes the job exactly when the copy is faithful. */
  lemma InterruptedMove(r: Reader, b: Columns, from: Status, k: nat)
    requires PlanOf(r, b) == Move(from, k) && b.Of(from)[k].kind == Line
    ensures RepairedBoard(r, Published(r, b, b.Of(from)[k])) == RepairedBoard(r, b)
            <==> Faithful(r, b.doneLayout, b.Of(from)[k])
  {
    if Faithful(r, b.doneLayout, b.Of(from)[k]) {
      InterruptedMoveRepairs(r, b, from, k);
    } else if Matches(r, Moved(r, b.doneLayout, b.Of(from)[k]).value) {
      UnfaithfulCopyIsRefused(r, b, from, k);
    } else {
      UnreadableCopyIsMovedAgain(r, b, from, k);
    }
  }

  /** Some of the duplicates are gone, last ones first; everything else is as it was. */
  ghost predicate Midway(r: Reader, start: Columns, b: Columns) {
    && b.backlog == start.backlog && b.doneLayout == start.doneLayout
    && Without(r, b.todo) == Without(r, start.todo) && Without(r, b.doing) == Without(r, start.doing)
    && KeepFirst(r, b.done) == KeepFirst(r, start.done)
    && Matching(r, b.done) != [] && Matching(r, b.done) <= Matching(r, start.done)
    && Matching(r, b.todo) <= Matching(r, start.todo) && Matching(r, b.doing) <= Matching(r, start.doing)
  }

  lemma MidwayDeduplicates(r: Reader, start: Columns, b: Columns)
    requires PlanOf(r, start) == Deduplicate && Midway(r, start, b)
    ensures PlanOf(r, b) == Deduplicate
  {
    assert Matching(r, b.done)[0] == Matching(r, start.done)[0];
    if Active(r, b) != [] || |Matching(r, b.done)| > 1 {
      assert DuplicatesAreSafe(r, start);
      forall e | e in Matching(r, b.done) + Active(r, b)
        ensures SafeDuplicate(e, TrimEnd(Matching(r, start.done)[0].content))
      {
        assert e in Matching(r, start.done) + Active(r, start);
      }
    }
  }

  lemma MidwayRepairsTheSame(r: Reader, start: Columns, b: Columns)
    requires PlanOf(r, start) == Deduplicate && Midway(r, start, b)
    ensures RepairedBoard(r, b) == RepairedBoard(r, start)
  {
    MidwayDeduplicates(r, start, b);
  }

  lemma WithThenOf(b: Columns, status: Status, column: seq<Entry>)
    ensures b.With(status, column).Of(status) == column
  {
  }

  lemma RemovingLast(r: Reader, column: seq<Entry>)
    requires Matching(r, column) != []
    ensures var less, found := RemoveAt(column, LastMatch(r, column)), Matching(r, column);
            && Without(r, less) == Without(r, column) && Matching(r, less) == found[..|found| - 1]
            && (|found| > 1 ==> KeepFirst(r, less) == KeepFirst(r, column))
  {
    RemovingMatchAt(r, column, LastMatch(r, column));
  }

  datatype Progress = Died | Unmovable | Through

  class BoardFiles {
    var b: Columns

    constructor (initial: Columns)
      ensures b == initial
    {
      b := initial;
    }

    method RemoveLast(r: Reader, status: Status)
      requires Matching(r, b.Of(status)) != []
      modifies this
      ensures b == old(b).With(status, RemoveAt(old(b).Of(status), LastMatch(r, old(b).Of(status))))
      ensures Without(r, b.Of(status)) == Without(r, old(b).Of(status))
      ensures var found := Matching(r, old(b).Of(status));
              && Matching(r, b.Of(status)) == found[..|found| - 1]
              && (|found| > 1 ==> KeepFirst(r, b.Of(status)) == KeepFirst(r, old(b).Of(status)))
    {
      var column := b.Of(status);
      RemovingLast(r, column);
      WithThenOf(b, status, RemoveAt(column, LastMatch(r, column)));
      b := b.With(status, RemoveAt(column, LastMatch(r, column)));
    }

    /** Moves one entry to the front of Done. With `lives` writes to go the process
        may die between publishing the copy and removing the original. */
    method MoveToDone(r: Reader, from: Status, k: nat, lives: nat) returns (moved: Progress)
      requires from != Done && k < |b.Of(from)|
      modifies this
      ensures moved.Through? ==> && Moved(r, old(b).doneLayout, old(b).Of(from)[k]).Some?
                                      && b == AfterMove(r, old(b), from, k)
      ensures moved.Unmovable? ==> b == old(b) && Moved(r, b.doneLayout, b.Of(from)[k]).None?
      ensures moved.Died? ==> || b == old(b)
                              || (old(b).Of(from)[k].kind == Line && b == Published(r, old(b), old(b).Of(from)[k]))
      ensures lives >= 2 ==> !moved.Died?
    {
      var e := b.Of(from)[k];
      var copy := Moved(r, b.doneLayout, e);
      if copy.None? {
        return Unmovable;
      }
      if lives == 0 {
        return Died;
      }
      if e.kind != Line {
        b := AfterMove(r, b, from, k);
        return Through;
      }
      b := b.(done := [copy.value] + b.done);
      if lives == 1 {
        return Died;
      }
      b := b.With(from, RemoveAt(b.Of(from), k));
      moved := Through;
    }

    /** Clears one active list of its duplicates, last one first. */
    method ClearColumn(r: Reader, ghost start: Columns, status: Status, lives: nat) returns (left: Option<nat>)
      requires status in {Todo, Doing} && Midway(r, start, b)
      modifies this
      ensures Midway(r, start, b) && b == old(b).With(status, b.Of(status))
      ensures left.Some? ==> Matching(r, b.Of(status)) == []
    {
      var writes := lives;
      while Matching(r, b.Of(status)) != []
        invariant Midway(r, start, b) && b == old(b).With(status, b.Of(status))
        decreases |Matching(r, b.Of(status))|
      {
        if writes == 0 {
          return None;
        }
        RemoveLast(r, status);
        writes := writes - 1;
      }
      left := Some(writes);
    }

    method ThinDone(r: Reader, ghost start: Columns, lives: nat) returns (left: Option<nat>)
      requires Midway(r, start, b)
      modifies this
      ensures Midway(r, start, b) && (left.Some? ==> |Matching(r, b.done)| == 1)
    {
      var writes := lives;
      while |Matching(r, b.done)| > 1
        invariant Midway(r, start, b)
        decreases |Matching(r, b.done)|
      {
        if writes == 0 {
          return None;
        }
        RemoveLast(r, Done);
        writes := writes - 1;
      }
      left := Some(writes);
    }

    /** Removes duplicates one file write at a time: Done first, then Todo, then Doing. */
    method RemoveDuplicates(r: Reader, lives: nat) returns (alive: bool)
      requires PlanOf(r, b) == Deduplicate
      modifies this
      ensures alive ==> b == RepairedBoard(r, old(b)).0
      ensures Midway(r, old(b), b)
    {
      var left := ThinDone(r, b, lives);
      if left.Some? {
        left := ClearColumn(r, old(b), Todo, left.value);
      }
      if left.Some? {
        left := ClearColumn(r, old(b), Doing, left.value);
      }
      alive := left.Some?;
      if alive {
        NothingToRemove(r, b.todo);
        NothingToRemove(r, b.doing);
        KeptOnce(r, b.done);
      }
    }

    /** One repair call that may die after `lives` writes. */
    method Repair(r: Reader, lives: nat) returns (verdict: Option<Verdict>)
      modifies this
      ensures verdict.Some? ==> (b, verdict.value) == RepairedBoard(r, old(b))
      ensures verdict.None? && PlannedMoveIsFaithful(r, old(b)) ==> RepairedBoard(r, b) == RepairedBoard(r, old(b))
    {
      if Matching(r, b.backlog) != [] {
        return Some(Refused);
      }
      var done, active := Matching(r, b.done), Active(r, b);
      if done == [] {
        if |active| != 1 {
          return Some(Refused);
        }
        var from := ActiveStatus(r, b);
        var k := LastMatch(r, b.Of(from));
        var moved := MoveToDone(r, from, k, lives);
        if moved.Died? {
          if b != old(b) && PlannedMoveIsFaithful(r, old(b)) {
            InterruptedMoveRepairs(r, old(b), from, k);
          }
          return None;
        }
        return Some(if moved.Through? then Repaired else MoveFailed);
      }
      if (active != [] || |done| > 1) && !DuplicatesAreSafe(r, b) {
        return Some(Refused);
      }
      var alive := RemoveDuplicates(r, lives);
      if !alive {
        MidwayRepairsTheSame(r, old(b), b);
        return None;
      }
      verdict := Some(Repaired);
    }
  }
}
