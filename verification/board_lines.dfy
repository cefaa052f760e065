/** The board and its completion protocol for one-line tasks as they are written: which
    lines survive an interruption, and boards on which recovery gets stuck. */
module BoardLines {
  import opened BoardStatus
  import opened Outcome
  import opened GitHistory
  import opened GitJournal
  import opened ProvisionalDone
  import opened TaskBoard
  import opened TaskText

  predicate Names(line: string, session: string) { TerminalSession(line) == Some(session) }

  /** The source's own reading of markers and its own copy of a one-line text; how an
      identity or a dated note is read stays open. */
  function SourceReader(session: string, sameTask: string -> bool, finished: string -> bool): Reader {
    Reader(t => Names(t, session), sameTask, finished, SingleLine)
  }

  ghost predicate Listed(r: Reader, b: Columns, e: Entry, text: string, session: string) {
    r.copied == SingleLine && b.doneLayout == Markdown
    && e.kind == Line && MarkedLine(e.content, text, session)
  }

  lemma LineIsFaithful(r: Reader, b: Columns, e: Entry, text: string, session: string)
    requires Listed(r, b, e, text, session)
    ensures Faithful(r, b.doneLayout, e) <==> KeptText(text)
  {
    CopyKeepsLine(e.content, text, session);
  }

  /** A line moved into a Markdown Done survives an interruption exactly when its text is
      kept: empty, or a tidy text and one blank before the marker. */
  lemma InterruptedLineMove(r: Reader, b: Columns, from: Status, k: nat, text: string, session: string)
    requires PlanOf(r, b) == Move(from, k) && Listed(r, b, b.Of(from)[k], text, session)
    ensures RepairedBoard(r, Published(r, b, b.Of(from)[k])) == RepairedBoard(r, b) <==> KeptText(text)
  {
    InterruptedMove(r, b, from, k);
    LineIsFaithful(r, b, b.Of(from)[k], text, session);
  }

  /** The same for the whole protocol: every crash is recovered from exactly for moves
      of a kept text without rivals out of Todo or Doing. */
  lemma LineIsCrashSafe(r: Reader, w: World, c: Completion, text: string, session: string)
    requires Scene(r, w, c) && Listed(r, w.board, w.board.Of(c.from)[c.index], text, session)
    ensures (forall stage :: stage in Stages(r, w, c) ==> Recover(r, stage) == Goal(r, w, c))
            <==> c.from != Backlog && KeptText(text) && Alone(r, w.board, c)
  {
    CrashSafe(r, w, c);
    LineIsFaithful(r, w.board, w.board.Of(c.from)[c.index], text, session);
  }

  /** Texts that are not kept: more than one blank before the marker, and a text that is
      itself a list item. A heading without a bullet is kept. */
  lemma RewrittenTexts(text: string)
    ensures |text| >= 2 && IsSpace(text[|text| - 2]) ==> !KeptText(text)
    ensures "- " <= text || "* " <= text ==> KeptText(text) ==> |text| == 2
    ensures Tidy(text) && text[0] != '#' ==> KeptText("# " + text + " ")
  {
    if Tidy(text) && text[0] != '#' {
      HeadingIsKept(text);
    }
    if |text| > 2 && ("- " <= text || "* " <= text) {
      var body := text[..|text| - 1];
      assert body[0] == text[0] && body[1] == ' ';
      assert TrimHashes(body) == body && TrimStart(body) == body;
      assert body[..2] == text[..2];
    }
  }

  // ------------------------------------------------------------- stuck in the middle

  /** Markers and copies as the source reads and makes them. */
  ghost predicate AsWritten(r: Reader, session: string) {
    && r.copied == SingleLine
    && forall t: string :: r.marked(t) <==> Names(t, session)
  }

  lemma SourceReaderIsAsWritten(session: string, sameTask: string -> bool, finished: string -> bool)
    ensures AsWritten(SourceReader(session, sameTask, finished), session)
  {
  }

  function OneLine(content: string): Columns {
    Columns([], [Entry(content, Line)], [], [], Markdown)
  }

  function InBacklog(content: string): Columns {
    Columns([], [], [], [Entry(content, Line)], Markdown)
  }

  lemma OnlyLineIsPlanned(r: Reader, content: string)
    requires Matches(r, Entry(content, Line))
    ensures PlanOf(r, OneLine(content)) == Move(Doing, 0)
  {
    var e := Entry(content, Line);
    assert Matching(r, [e][1..]) == [];
    assert LastMatch(r, [e]) == 0;
  }

  predicate Accepts(r: Reader, line: string) { r.sameTask(line) && r.finished(line) }

  lemma PlainLineMatches(r: Reader, tidy: string, blanks: string, session: string)
    requires AsWritten(r, session) && Plain(tidy) && blanks in {" ", "  "} && ValidId(session)
    requires Accepts(r, LineOf(tidy, blanks, session))
    ensures Matches(r, Entry(LineOf(tidy, blanks, session), Line))
    ensures TrimEnd(LineOf(tidy, blanks, session)) == LineOf(tidy, blanks, session)
  {
    PlainLine(tidy, blanks, session);
    MarkedLineEnds(LineOf(tidy, blanks, session), tidy + blanks, session);
  }

  /** A plain line with two blanks before its marker, left in Doing after its copy was
      written: the copy has one blank, so the repair refuses the board and both stay. */
  lemma RewrittenLineStaysTwice(r: Reader, tidy: string, session: string, two: string, one: string)
    requires AsWritten(r, session) && Plain(tidy) && ValidId(session)
    requires two == LineOf(tidy, "  ", session) && one == LineOf(tidy, " ", session)
    requires Accepts(r, two) && Accepts(r, one)
    ensures PlanOf(r, OneLine(two)) == Move(Doing, 0) && RepairedBoard(r, OneLine(two)).1 == Repaired
    ensures var half := Published(r, OneLine(two), Entry(two, Line));
            half.done == [Entry(one, Line)] && RepairedBoard(r, half) == (half, Refused)
  {
    PlainLineMatches(r, tidy, "  ", session);
    PlainLineMatches(r, tidy, " ", session);
    PlainLine(tidy, "  ", session);
    OnlyLineIsPlanned(r, two);
    RefusedTwin(r, two, one);
  }

  lemma RefusedTwin(r: Reader, two: string, one: string)
    requires PlanOf(r, OneLine(two)) == Move(Doing, 0) && r.copied(two) == one && Matches(r, Entry(one, Line))
    requires TrimEnd(one) == one && TrimEnd(two) == two && |two| != |one|
    ensures RepairedBoard(r, OneLine(two)).1 == Repaired
    ensures var half := Published(r, OneLine(two), Entry(two, Line));
            half.done == [Entry(one, Line)] && RepairedBoard(r, half) == (half, Refused)
  {
    var b := OneLine(two);
    assert b.Of(Doing)[0] == Entry(two, Line) && Moved(r, b.doneLayout, b.Of(Doing)[0]) == Some(Entry(one, Line));
    assert one != two;
    UnfaithfulCopyIsRefused(r, b, Doing, 0);
  }

  function WorkingRow(session: string): Journal {
    Journal(session, Working, CommitOnly, Some(0), Baseline(1, None, None, None), Some("t"), None, None, 0, None)
  }

  function Finish(from: Status): Completion {
    Completion("run", "t", Baseline(1, Some(1), Some(7), Some(0)), from, 0)
  }

  lemma SceneOf(r: Reader, session: string, b: Columns, from: Status)
    requires from in {Doing, Backlog} && b.Of(from) != [] && Matches(r, b.Of(from)[0])
    requires b == if from == Doing then OneLine(b.doing[0].content) else InBacklog(b.backlog[0].content)
    ensures Scene(r, World(WorkingRow(session), b), Finish(from)) && Alone(r, b, Finish(from))
  {
  }

  /** A round whose repair is refused leaves a tracked completion as it is. */
  lemma RefusedRoundChangesNothing(r: Reader, w: World, c: Completion, b: Columns)
    requires Ready(w, c) && RepairedBoard(r, b) == (b, Refused)
    ensures Recover(r, World(Tracked(w, c), b)) == World(Tracked(w, c), b)
  {
  }

  /** A crash between the two board writes of such a line: no recovery round ever
      changes what it left behind. */
  lemma RewrittenLineIsStuck(r: Reader, tidy: string, session: string, two: string, one: string)
    requires AsWritten(r, session) && Plain(tidy) && ValidId(session)
    requires two == LineOf(tidy, "  ", session) && one == LineOf(tidy, " ", session)
    requires Accepts(r, two) && Accepts(r, one)
    ensures var w, c := World(WorkingRow(session), OneLine(two)), Finish(Doing);
            var stage := World(Tracked(w, c), Published(r, w.board, Entry(two, Line)));
            Scene(r, w, c) && Alone(r, w.board, c) && stage in Stages(r, w, c) && Recover(r, stage) == stage != Goal(r, w, c)
  {
    var w, c := World(WorkingRow(session), OneLine(two)), Finish(Doing);
    PlainLineMatches(r, tidy, "  ", session);
    SceneOf(r, session, OneLine(two), Doing);
    StageMembers(r, w, c);
    RewrittenLineStaysTwice(r, tidy, session, two, one);
    RefusedRoundChangesNothing(r, w, c, Published(r, w.board, Entry(two, Line)));
  }

  lemma FaithfulInBacklogIsStuck(r: Reader, session: string, one: string)
    requires Matches(r, Entry(one, Line)) && r.copied(one) == one
    ensures var w, c := World(WorkingRow(session), InBacklog(one)), Finish(Backlog);
            var stage := World(Tracked(w, c), w.board);
            && Scene(r, w, c) && Alone(r, w.board, c) && Faithful(r, Markdown, Entry(one, Line))
            && stage in Stages(r, w, c) && Recover(r, stage) == stage != Goal(r, w, c)
  {
    var w, c := World(WorkingRow(session), InBacklog(one)), Finish(Backlog);
    SceneOf(r, session, InBacklog(one), Backlog);
    StageMembers(r, w, c);
    PlansTheMove(r, w, c);
    RefusedRoundChangesNothing(r, w, c, w.board);
  }

  /** A crash right after intent was recorded for a task in Backlog: no recovery round
      ever moves it, although the copy of its line is faithful. */
  lemma BacklogIsStuck(r: Reader, tidy: string, session: string, one: string)
    requires AsWritten(r, session) && Plain(tidy) && ValidId(session)
    requires one == LineOf(tidy, " ", session) && Accepts(r, one)
    ensures var w, c := World(WorkingRow(session), InBacklog(one)), Finish(Backlog);
            var stage := World(Tracked(w, c), w.board);
            && Scene(r, w, c) && Alone(r, w.board, c) && Faithful(r, Markdown, Entry(one, Line))
            && stage in Stages(r, w, c) && Recover(r, stage) == stage != Goal(r, w, c)
  {
    PlainLineMatches(r, tidy, " ", session);
    PlainLine(tidy, " ", session);
    FaithfulInBacklogIsStuck(r, session, one);
  }

  lemma EndsLikeItsText(s: string)
    requires s != "" && !IsSpace(s[|s| - 1]) && s[|s| - 1] != 'd'
    ensures LastToken(s) != STOP
  {
    assert TrimEnd(s) == s && LastToken(s)[|LastToken(s)| - 1] == s[|s| - 1];
    assert STOP[|STOP| - 1] == 'd';
  }

  lemma PlainBothEnds(t: string)
    requires t != "" && !IsSpace(t[0]) && t[0] !in {'#', '-', '*'} && !IsSpace(t[|t| - 1]) && t[|t| - 1] != 'd'
    requires 'c' !in t && '\n' !in t && '\r' !in t
    ensures Plain(t)
  {
    EndsLikeItsText(t);
    UnmarkedStart(t);
  }

  lemma OrdinaryTextIsPlain(tidy: string)
    requires tidy == "tidy up COMPLETED 2026-01-02"
    ensures Plain(tidy)
  {
    assert tidy[|tidy| - 1] == '2' && tidy[0] == 't';
    PlainBothEnds(tidy);
  }

  /** One such input: the session s1 wrote its note with two blanks before the marker. */
  lemma OrdinaryLineIsStuck(tidy: string, sameTask: string -> bool, finished: string -> bool) returns (r: Reader)
    requires tidy == "tidy up COMPLETED 2026-01-02"
    requires sameTask(LineOf(tidy, "  ", "s1")) && finished(LineOf(tidy, "  ", "s1"))
    requires sameTask(LineOf(tidy, " ", "s1")) && finished(LineOf(tidy, " ", "s1"))
    ensures r == SourceReader("s1", sameTask, finished)
    ensures var two := LineOf(tidy, "  ", "s1");
            var w, c := World(WorkingRow("s1"), OneLine(two)), Finish(Doing);
            var stage := World(Tracked(w, c), Published(r, w.board, Entry(two, Line)));
            Scene(r, w, c) && Alone(r, w.board, c) && stage in Stages(r, w, c) && Recover(r, stage) == stage != Goal(r, w, c)
  {
    r := SourceReader("s1", sameTask, finished);
    SourceReaderIsAsWritten("s1", sameTask, finished);
    OrdinaryTextIsPlain(tidy);
    RewrittenLineIsStuck(r, tidy, "s1", LineOf(tidy, "  ", "s1"), LineOf(tidy, " ", "s1"));
  }
}
