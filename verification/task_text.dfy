/** The text of a one-line task: its conversation marker, and the copy a Markdown
    list makes of it. Line breaks never occur in such a line. */
module TaskText {
  import opened Outcome

  const PREFIX := "codex:"

  const STOP := "clt:stopped"

  // -------------------------------------------------------------------- trimming

  predicate IsSpace(c: char) {
    var n := c as int;
    || 0x09 <= n <= 0x0D || n == 0x20 || n == 0x85 || n == 0xA0 || n == 0x1680
    || 0x2000 <= n <= 0x200A || n == 0x2028 || n == 0x2029 || n == 0x202F || n == 0x205F || n == 0x3000
  }

  function TrimEnd(s: string): string {
    if |s| > 0 && IsSpace(s[|s| - 1]) then TrimEnd(s[..|s| - 1]) else s
  }

  function TrimStart(s: string): string {
    if |s| > 0 && IsSpace(s[0]) then TrimStart(s[1..]) else s
  }

  function Trim(s: string): string { TrimEnd(TrimStart(s)) }

  function TrimHashes(s: string): string {
    if |s| > 0 && s[0] == '#' then TrimHashes(s[1..]) else s
  }

  lemma {:induction false} TrimEndIsPrefix(s: string)
    ensures TrimEnd(s) <= s && (TrimEnd(s) != "" ==> !IsSpace(TrimEnd(s)[|TrimEnd(s)| - 1]))
  {
    if |s| > 0 && IsSpace(s[|s| - 1]) {
      TrimEndIsPrefix(s[..|s| - 1]);
    }
  }

  lemma TrimEndTwice(s: string)
    ensures TrimEnd(TrimEnd(s)) == TrimEnd(s)
  {
    TrimEndIsPrefix(s);
  }

  lemma TrimEndOfFile(s: string)
    ensures TrimEnd(TrimEnd(s) + "\n") == TrimEnd(s)
  {
    var whole := TrimEnd(s) + "\n";
    assert whole[..|whole| - 1] == TrimEnd(s);
    TrimEndTwice(s);
  }

  // --------------------------------------------------------------------- markers

  predicate IdChar(c: char) {
    'a' <= c <= 'z' || 'A' <= c <= 'Z' || '0' <= c <= '9' || c == '-'
  }

  predicate ValidId(id: string) {
    id != "" && forall i :: 0 <= i < |id| ==> IdChar(id[i])
  }

  /** Where the last whitespace-separated token before `n` starts. */
  function TokenStart(s: string, n: nat): (k: nat)
    requires n <= |s|
    ensures k <= n && (k > 0 ==> IsSpace(s[k - 1])) && forall i :: k <= i < n ==> !IsSpace(s[i])
  {
    if n == 0 || IsSpace(s[n - 1]) then n else TokenStart(s, n - 1)
  }

  function LastToken(s: string): string {
    var t := TrimEnd(s);
    t[TokenStart(t, |t|)..]
  }

  function IdOf(token: string): Option<string> {
    if PREFIX <= token && ValidId(token[|PREFIX|..]) then Some(token[|PREFIX|..]) else None
  }

  /** The session the text ends with. */
  function TerminalSession(s: string): Option<string> { IdOf(LastToken(s)) }

  datatype Marker = Marker(start: nat, end: nat, session: string)

  function NextSpace(s: string, from: nat): (k: nat)
    requires from <= |s|
    ensures from <= k <= |s| && (k < |s| ==> IsSpace(s[k])) && forall i :: from <= i < k ==> !IsSpace(s[i])
    decreases |s| - from
  {
    if from == |s| || IsSpace(s[from]) then from else NextSpace(s, from + 1)
  }

  function MarkerAt(s: string, start: nat): seq<Marker>
    requires start <= |s|
  {
    var end := NextSpace(s, start);
    var id := IdOf(s[start..end]);
    if (start == 0 || IsSpace(s[start - 1])) && id.Some? then [Marker(start, end, id.value)] else []
  }

  /** Every marker at or after `from`; occurrences of the prefix do not overlap. */
  function Markers(s: string, from: nat): seq<Marker>
    decreases |s| - from
  {
    if from >= |s| then []
    else if PREFIX <= s[from..] then MarkerAt(s, from) + Markers(s, from + |PREFIX|)
    else Markers(s, from + 1)
  }

  predicate IsHex(c: char) { '0' <= c <= '9' || 'a' <= c <= 'f' || 'A' <= c <= 'F' }

  predicate IsUuid(id: string) {
    |id| == 36 && forall i :: 0 <= i < |id| ==> if i in {8, 13, 18, 23} then id[i] == '-' else IsHex(id[i])
  }

  function StripStop(s: string): string {
    if LastToken(s) != STOP then s
    else
      var t := TrimEnd(s);
      TrimEnd(t[..TokenStart(t, |t|)])
  }

  function DisplacedSession(markers: seq<Marker>): Option<string> {
    if markers == [] then None
    else if !IsUuid(markers[0].session) then DisplacedSession(markers[1..])
    else if forall i :: 0 <= i < |markers| && IsUuid(markers[i].session) ==> markers[i].session == markers[0].session
    then Some(markers[0].session) else None
  }

  /** The session a text belongs to, also when its marker is no longer last. */
  function Recoverable(s: string): Option<string> {
    var t := StripStop(s);
    if TerminalSession(t).Some? then TerminalSession(t) else DisplacedSession(Markers(t, 0))
  }

  function Slice(s: string, from: nat, until: nat): string {
    if from <= until <= |s| then s[from..until] else ""
  }

  /** The text from `cursor` on without this session's markers and the blank before each. */
  function Unmarked(s: string, markers: seq<Marker>, session: string, cursor: nat): string {
    if markers == [] then Slice(s, cursor, |s|)
    else if markers[0].session != session then Unmarked(s, markers[1..], session, cursor)
    else
      var m := markers[0];
      var cut := if 0 < m.start <= |s| && s[m.start - 1] in {' ', '\t'} then m.start - 1 else m.start;
      Slice(s, cursor, cut) + Unmarked(s, markers[1..], session, m.end)
  }

  function WithoutSession(s: string, session: string): string {
    TrimEnd(Unmarked(s, Markers(s, 0), session, 0))
  }

  // ------------------------------------------------------------ the one-line copy

  /** Past heading marks and blanks the text starts with a list bullet. */
  predicate Bulleted(line: string) {
    var h := TrimStart(TrimHashes(line));
    "- " <= h || "* " <= h
  }

  /** A bullet is dropped, with the heading marks in front of it; heading marks without a
      bullet stay. */
  function Unlisted(line: string): string {
    if Bulleted(line) then TrimStart(TrimHashes(line))[2..] else line
  }

  function Normalized(s: string): string {
    var t := TrimEnd(s);
    var body := if Recoverable(t).Some? then WithoutSession(t, Recoverable(t).value) else t;
    Trim(Unlisted(Trim(body)))
  }

  function Linked(s: string, session: string): string {
    var t := TrimEnd(StripStop(s));
    var own := TerminalSession(t);
    var bare := if own.Some? then TrimEnd(t[..TokenStart(t, |t|)]) else t;
    var body := WithoutSession(bare, session);
    if body == "" then PREFIX + session else body + " " + PREFIX + session
  }

  /** The text with its session's marker last, but before a stop marker. */
  function Relinked(s: string, session: string): string {
    if LastToken(s) == STOP then Linked(s, session) + " " + STOP else Linked(s, session)
  }

  /** What a Markdown list stores for a moved one-line text. */
  function SingleLine(s: string): string {
    if Recoverable(s).Some? then Relinked(Normalized(s), Recoverable(s).value) else Normalized(s)
  }

  // ------------------------------------------------- which lines the copy rewrites

  /** One line as the move to Done demands it: its text, then one terminal marker. */
  ghost predicate MarkedLine(line: string, text: string, session: string) {
    && line == text + PREFIX + session && ValidId(session)
    && (text != "" ==> IsSpace(text[|text| - 1]))
    && (forall i :: 0 <= i < |text| ==> !(PREFIX <= line[i..]))
    && '\n' !in text && '\r' !in text
  }

  /** The text of the copy: trimmed, without a leading bullet. */
  function CopiedText(text: string): string { Trim(Unlisted(Trim(TrimEnd(text)))) }

  lemma TokenStartsAt(s: string, k: nat)
    requires k <= |s| && (k > 0 ==> IsSpace(s[k - 1])) && forall i :: k <= i < |s| ==> !IsSpace(s[i])
    ensures TokenStart(s, |s|) == k
  {
  }

  lemma LastTokenIs(s: string, before: string, token: string)
    requires s == before + token && token != "" && (before != "" ==> IsSpace(before[|before| - 1]))
    requires forall i :: 0 <= i < |token| ==> !IsSpace(token[i])
    ensures TrimEnd(s) == s && LastToken(s) == token && TokenStart(s, |s|) == |before|
  {
    forall i | |before| <= i < |s| ensures !IsSpace(s[i]) {
      assert s[i] == token[i - |before|];
    }
    TokenStartsAt(s, |before|);
  }

  lemma IdHasNoSpace(session: string)
    requires ValidId(session)
    ensures forall i :: 0 <= i < |PREFIX + session| ==> !IsSpace((PREFIX + session)[i])
    ensures forall i :: 0 <= i <= |session| ==> !(PREFIX <= session[i..])
  {
    assert forall c :: IdChar(c) ==> !IsSpace(c) && c != ':';
    forall i | 0 <= i <= |session| ensures !(PREFIX <= session[i..]) {
      if i + 5 < |session| {
        assert session[i..][5] == session[i + 5] && PREFIX[5] == ':';
      }
    }
  }

  lemma StopIsNoMarker()
    ensures IdOf(STOP) == None && forall id :: PREFIX + id != STOP
    ensures forall i :: 0 <= i < |STOP| ==> !IsSpace(STOP[i])
  {
    assert STOP[1] == 'l' && PREFIX[1] == 'o';
    forall id ensures PREFIX + id != STOP {
      assert (PREFIX + id)[1] == 'o';
    }
  }

  lemma MarkerNamesSession(session: string)
    requires ValidId(session)
    ensures IdOf(PREFIX + session) == Some(session)
  {
    assert (PREFIX + session)[|PREFIX|..] == session;
  }

  lemma UnstoppedSession(s: string, session: string)
    requires LastToken(s) == PREFIX + session && ValidId(session)
    ensures TerminalSession(s) == Some(session) && Recoverable(s) == Some(session)
  {
    MarkerNamesSession(session);
    StopIsNoMarker();
    assert StripStop(s) == s;
  }

  lemma MarkedLineEnds(line: string, text: string, session: string)
    requires MarkedLine(line, text, session)
    ensures TrimEnd(line) == line && TerminalSession(line) == Some(session) && Recoverable(line) == Some(session)
  {
    IdHasNoSpace(session);
    assert line == text + (PREFIX + session);
    LastTokenIs(line, text, PREFIX + session);
    UnstoppedSession(line, session);
  }

  lemma {:induction false} NoMarkers(s: string, from: nat)
    requires forall i :: from <= i < |s| ==> !(PREFIX <= s[i..])
    ensures Markers(s, from) == []
    decreases |s| - from
  {
    if from < |s| {
      NoMarkers(s, from + 1);
    }
  }

  lemma {:induction false} FirstMarker(s: string, from: nat, start: nat)
    requires from <= start < |s| && PREFIX <= s[start..]
    requires forall i :: from <= i < start ==> !(PREFIX <= s[i..])
    ensures Markers(s, from) == MarkerAt(s, start) + Markers(s, start + |PREFIX|)
    decreases start - from
  {
    if from < start {
      FirstMarker(s, from + 1, start);
    }
  }

  lemma MarkerInPlace(line: string, text: string, session: string)
    requires MarkedLine(line, text, session)
    ensures |text| < |line| && PREFIX <= line[|text|..]
    ensures MarkerAt(line, |text|) == [Marker(|text|, |line|, session)]
  {
    IdHasNoSpace(session);
    MarkerNamesSession(session);
    var start := |text|;
    assert line[start..] == PREFIX + session && line[start..|line|] == line[start..];
    forall i | start <= i < |line| ensures !IsSpace(line[i]) {
      assert line[i] == (PREFIX + session)[i - start];
    }
    assert NextSpace(line, start) == |line|;
    assert text != "" ==> line[start - 1] == text[start - 1];
  }

  lemma NothingAfterMarker(line: string, text: string, session: string)
    requires MarkedLine(line, text, session)
    ensures Markers(line, |text| + |PREFIX|) == []
  {
    IdHasNoSpace(session);
    var from := |text| + |PREFIX|;
    assert line[from..] == session;
    forall i | from <= i < |line| ensures !(PREFIX <= line[i..]) {
      assert line[i..] == session[i - from..];
    }
    NoMarkers(line, from);
  }

  lemma OnlyMarker(line: string, text: string, session: string)
    requires MarkedLine(line, text, session)
    ensures Markers(line, 0) == [Marker(|text|, |line|, session)]
  {
    MarkerInPlace(line, text, session);
    NothingAfterMarker(line, text, session);
    FirstMarker(line, 0, |text|);
  }

  lemma TextBeforeMarker(line: string, text: string, session: string)
    requires MarkedLine(line, text, session)
    ensures WithoutSession(line, session) == TrimEnd(text)
  {
    OnlyMarker(line, text, session);
    var m := Marker(|text|, |line|, session);
    assert Unmarked(line, [], session, |line|) == "";
    assert [m][1..] == [];
    if text != "" && text[|text| - 1] in {' ', '\t'} {
      assert line[|text| - 1] == text[|text| - 1] && line[..|text| - 1] == text[..|text| - 1];
      assert Unmarked(line, [m], session, 0) == text[..|text| - 1] + "";
      assert text[..|text| - 1] + "" == text[..|text| - 1];
    } else {
      assert line[..|text|] == text;
      assert text != "" ==> line[|text| - 1] == text[|text| - 1];
      assert Unmarked(line, [m], session, 0) == text + "";
      assert text + "" == text;
    }
  }

  // ------------------------------------------------------------- parts of a text

  ghost predicate Within(t: string, s: string) {
    exists a: nat :: StartsWithin(t, s, a)
  }

  predicate StartsWithin(t: string, s: string, a: nat) {
    a + |t| <= |s| && s[a..a + |t|] == t
  }

  lemma WithinTransitive(t: string, s: string, u: string)
    requires Within(t, s) && Within(s, u)
    ensures Within(t, u)
  {
    var a: nat :| StartsWithin(t, s, a);
    var b: nat :| StartsWithin(s, u, b);
    assert forall k :: 0 <= k < |t| ==> u[b + a + k] == s[a + k] == t[k];
    assert StartsWithin(t, u, b + a);
  }

  lemma PrefixWithin(t: string, s: string)
    requires t <= s
    ensures Within(t, s)
  {
    assert StartsWithin(t, s, 0);
  }

  lemma SuffixWithin(s: string, a: nat)
    requires a <= |s|
    ensures Within(s[a..], s)
  {
    assert StartsWithin(s[a..], s, a);
  }

  lemma {:induction false} TrimStartWithin(s: string)
    ensures Within(TrimStart(s), s)
  {
    if |s| > 0 && IsSpace(s[0]) {
      TrimStartWithin(s[1..]);
      SuffixWithin(s, 1);
      WithinTransitive(TrimStart(s[1..]), s[1..], s);
    } else {
      PrefixWithin(s, s);
    }
  }

  lemma {:induction false} TrimHashesWithin(s: string)
    ensures Within(TrimHashes(s), s)
  {
    if |s| > 0 && s[0] == '#' {
      TrimHashesWithin(s[1..]);
      SuffixWithin(s, 1);
      WithinTransitive(TrimHashes(s[1..]), s[1..], s);
    } else {
      PrefixWithin(s, s);
    }
  }

  lemma TrimWithin(s: string)
    ensures Within(Trim(s), s)
  {
    TrimStartWithin(s);
    TrimEndIsPrefix(TrimStart(s));
    PrefixWithin(Trim(s), TrimStart(s));
    WithinTransitive(Trim(s), TrimStart(s), s);
  }

  lemma UnlistedWithin(s: string)
    ensures Within(Unlisted(s), s)
  {
    var h := TrimStart(TrimHashes(s));
    TrimHashesWithin(s);
    TrimStartWithin(TrimHashes(s));
    WithinTransitive(h, TrimHashes(s), s);
    PrefixWithin(s, s);
    if "- " <= h || "* " <= h {
      SuffixWithin(h, 2);
      WithinTransitive(h[2..], h, s);
    }
  }

  lemma CopiedTextWithin(text: string)
    ensures Within(CopiedText(text), text)
  {
    var e := TrimEnd(text);
    TrimEndIsPrefix(text);
    PrefixWithin(e, text);
    TrimWithin(e);
    UnlistedWithin(Trim(e));
    TrimWithin(Unlisted(Trim(e)));
    WithinTransitive(Unlisted(Trim(e)), Trim(e), e);
    WithinTransitive(CopiedText(text), Unlisted(Trim(e)), e);
    WithinTransitive(CopiedText(text), e, text);
  }

  ghost predicate Unlinked(s: string) {
    forall i :: 0 <= i <= |s| ==> !(PREFIX <= s[i..])
  }

  lemma PrefixShifts(t: string, s: string, a: nat, i: nat)
    requires StartsWithin(t, s, a) && i <= |t|
    ensures PREFIX <= t[i..] ==> PREFIX <= s[a + i..]
  {
    assert forall k :: 0 <= k < |t| - i ==> t[i..][k] == s[a + i..][k];
  }

  lemma PartIsUnlinked(t: string, s: string)
    requires Within(t, s) && Unlinked(s)
    ensures Unlinked(t)
  {
    var a: nat :| StartsWithin(t, s, a);
    forall i | 0 <= i <= |t| ensures !(PREFIX <= t[i..]) {
      PrefixShifts(t, s, a, i);
    }
  }

  lemma MarkedTextIsUnlinked(line: string, text: string, session: string)
    requires MarkedLine(line, text, session)
    ensures Unlinked(text)
  {
    assert StartsWithin(text, line, 0);
    forall i | 0 <= i <= |text| ensures !(PREFIX <= text[i..]) {
      PrefixShifts(text, line, 0, i);
    }
  }

  // ----------------------------------------------------------------- the outcome

  /** A trimmed text without markers is linked by one blank and the marker. */
  lemma RelinkedPlain(text: string, session: string)
    requires Unlinked(text) && TrimEnd(text) == text && LastToken(text) != STOP
    ensures Relinked(text, session) == if text == "" then PREFIX + session else text + " " + PREFIX + session
  {
    assert StripStop(text) == text;
    var token := LastToken(text);
    SuffixWithin(text, TokenStart(text, |text|));
    PartIsUnlinked(token, text);
    assert token[0..] == token && !(PREFIX <= token);
    assert TerminalSession(text) == None;
    NoMarkers(text, 0);
    assert Unmarked(text, [], session, 0) == text;
  }

  lemma EndsWithStop(linked: string)
    ensures TerminalSession(linked + " " + STOP) == None
  {
    var before := linked + " ";
    StopIsNoMarker();
    LastTokenIs(before + STOP, before, STOP);
  }

  lemma StoppedCopyMovesMarker(text: string, session: string)
    requires LastToken(text) == STOP
    ensures TerminalSession(Relinked(text, session)) == None
  {
    EndsWithStop(Linked(text, session));
  }

  lemma CopyOfMarkedLine(line: string, text: string, session: string)
    requires MarkedLine(line, text, session)
    ensures SingleLine(line) == Relinked(CopiedText(text), session)
  {
    MarkedLineEnds(line, text, session);
    TextBeforeMarker(line, text, session);
  }

  /** A text without blanks around it, without a bullet, bare or under heading marks, and
      without a stop marker at its end. */
  predicate Tidy(t: string) {
    t != "" && !IsSpace(t[0]) && !IsSpace(t[|t| - 1]) && !Bulleted(t) && LastToken(t) != STOP
  }

  /** Which texts a Markdown list keeps: none at all, or a tidy text and one blank before
      the marker. */
  predicate KeptText(text: string) {
    text == "" || (text[|text| - 1] == ' ' && Tidy(text[..|text| - 1]))
  }

  /** The copy of the text, with one blank behind it, is the text again. */
  predicate CopyReturns(text: string) {
    text == Spaced(CopiedText(text)) && LastToken(CopiedText(text)) != STOP
  }

  lemma StoppedCopyDiffers(line: string, text: string, session: string)
    requires MarkedLine(line, text, session) && LastToken(CopiedText(text)) == STOP
    ensures TrimEnd(SingleLine(line)) != TrimEnd(line)
  {
    CopyOfMarkedLine(line, text, session);
    MarkedLineEnds(line, text, session);
    StoppedCopyMovesMarker(CopiedText(text), session);
    TerminalOfTrimmed(SingleLine(line));
  }

  lemma CopiedTextIsTidy(text: string)
    requires Unlinked(text)
    ensures Unlinked(CopiedText(text)) && TrimEnd(CopiedText(text)) == CopiedText(text)
  {
    CopiedTextWithin(text);
    PartIsUnlinked(CopiedText(text), text);
    TrimEndTwice(TrimStart(Unlisted(Trim(TrimEnd(text)))));
  }

  /** A text before its marker: nothing, or the text and one blank. */
  function Spaced(text: string): string { if text == "" then "" else text + " " }

  /** A copy made of a tidy text equals the line exactly when the line's text is that
      tidy text and one blank. */
  lemma PlainCopy(text: string, tidy: string, session: string)
    requires ValidId(session) && Unlinked(tidy) && TrimEnd(tidy) == tidy && LastToken(tidy) != STOP
    ensures TrimEnd(Relinked(tidy, session)) == text + PREFIX + session <==> text == Spaced(tidy)
  {
    RelinkedPlain(tidy, session);
    assert "" + PREFIX + session == PREFIX + session;
    SameMarkerSameText(text, Spaced(tidy), session);
  }

  lemma PlainCopyKeepsLine(line: string, text: string, session: string)
    requires MarkedLine(line, text, session) && LastToken(CopiedText(text)) != STOP
    ensures TrimEnd(Relinked(CopiedText(text), session)) == line <==> text == Spaced(CopiedText(text))
  {
    MarkedTextIsUnlinked(line, text, session);
    CopiedTextIsTidy(text);
    PlainCopy(text, CopiedText(text), session);
  }

  lemma CopyReturnsExactly(line: string, text: string, session: string)
    requires MarkedLine(line, text, session)
    ensures TrimEnd(SingleLine(line)) == TrimEnd(line) <==> CopyReturns(text)
  {
    MarkedLineEnds(line, text, session);
    CopyOfMarkedLine(line, text, session);
    if LastToken(CopiedText(text)) == STOP {
      StoppedCopyDiffers(line, text, session);
    } else {
      PlainCopyKeepsLine(line, text, session);
    }
  }

  lemma TrimmedAtBothEnds(s: string)
    ensures Trim(s) == "" || (!IsSpace(Trim(s)[0]) && !IsSpace(Trim(s)[|Trim(s)| - 1]))
  {
    TrimStartStops(s);
    TrimEndIsPrefix(TrimStart(s));
  }

  lemma {:induction false} TrimStartStops(s: string)
    ensures |TrimStart(s)| <= |s| && (TrimStart(s) != "" ==> !IsSpace(TrimStart(s)[0]))
  {
    if |s| > 0 && IsSpace(s[0]) {
      TrimStartStops(s[1..]);
    }
  }

  lemma BulletShortens(t: string)
    requires Bulleted(t)
    ensures |Trim(Unlisted(t))| < |t|
  {
    UnlistedWithin(t);
    TrimHashesWithin(t);
    TrimStartStops(TrimHashes(t));
    TrimWithin(Unlisted(t));
  }

  /** Where nothing has to be trimmed the copy drops a bullet or nothing. */
  lemma TrimmedCopy(text: string, t: string)
    requires TrimEnd(text) == t && t != "" && !IsSpace(t[0]) && !IsSpace(t[|t| - 1])
    ensures CopiedText(text) == t <==> !Bulleted(t)
  {
    assert Trim(t) == t;
    if Bulleted(t) {
      BulletShortens(t);
    }
  }

  lemma KeptMeansCopyReturns(text: string)
    ensures CopyReturns(text) <==> KeptText(text)
  {
    var copy := CopiedText(text);
    TrimmedAtBothEnds(Unlisted(Trim(TrimEnd(text))));
    if copy != "" && text == copy + " " {
      BlankDropped(copy);
      TrimmedCopy(text, copy);
      assert text[..|text| - 1] == copy;
    }
    if text != "" && KeptText(text) {
      var t := text[..|text| - 1];
      assert text == t + " ";
      BlankDropped(t);
      TrimmedCopy(text, t);
    }
  }

  /** The copy of a marked line reads as the line exactly when its text is kept. */
  lemma CopyKeepsLine(line: string, text: string, session: string)
    requires MarkedLine(line, text, session)
    ensures TrimEnd(SingleLine(line)) == TrimEnd(line) <==> KeptText(text)
  {
    CopyReturnsExactly(line, text, session);
    KeptMeansCopyReturns(text);
  }

  lemma UnmarkedStart(t: string)
    requires t != "" && t[0] !in {'#', '-', '*'} && !IsSpace(t[0])
    ensures !Bulleted(t)
  {
  }

  lemma HeadingTrimmed(headed: string, t: string)
    requires headed == "# " + t && t != "" && t[0] != '#' && !IsSpace(t[0])
    ensures Bulleted(headed) <==> Bulleted(t)
  {
    var blank := " " + t;
    assert headed[1..] == blank && blank[1..] == t;
    assert TrimHashes(headed) == blank && TrimStart(blank) == t;
  }

  lemma LastTokenBehind(front: string, t: string)
    requires front != "" && IsSpace(front[|front| - 1]) && t != "" && !IsSpace(t[|t| - 1])
    ensures LastToken(front + t) == LastToken(t)
  {
    var k := TokenStart(t, |t|);
    assert front + t == (front + t[..k]) + t[k..];
    LastTokenIs(front + t, front + t[..k], t[k..]);
  }

  /** A heading mark alone is no obstacle. */
  lemma HeadingIsKept(t: string)
    requires Tidy(t) && t[0] != '#'
    ensures KeptText("# " + t + " ")
  {
    var headed := "# " + t;
    HeadingTrimmed(headed, t);
    LastTokenBehind("# ", t);
    KeptIfTidy(headed);
  }

  lemma KeptIfTidy(t: string)
    requires Tidy(t)
    ensures KeptText(t + " ")
  {
    assert (t + " ")[..|t + " "| - 1] == t;
  }

  lemma TerminalOfTrimmed(s: string)
    ensures TerminalSession(TrimEnd(s)) == TerminalSession(s)
  {
    TrimEndTwice(s);
  }

  lemma SameMarkerSameText(a: string, b: string, session: string)
    requires ValidId(session)
    ensures TrimEnd(b + PREFIX + session) == b + PREFIX + session
    ensures a + PREFIX + session == b + PREFIX + session <==> a == b
  {
    IdHasNoSpace(session);
    var whole := b + PREFIX + session;
    assert whole[|whole| - 1] == session[|session| - 1] == (PREFIX + session)[|PREFIX + session| - 1];
    if a + PREFIX + session == whole {
      assert |a| == |b|;
      assert (a + PREFIX + session)[..|a|] == a && whole[..|b|] == b;
    }
  }

  // --------------------------------------------------------------- lines as examples

  /** A tidy text that cannot contain a marker. */
  predicate Plain(tidy: string) {
    Tidy(tidy) && 'c' !in tidy && '\n' !in tidy && '\r' !in tidy
  }

  function LineOf(tidy: string, blanks: string, session: string): string { tidy + blanks + PREFIX + session }

  /** Whatever blanks precede the marker, the copy writes one. */
  lemma PlainLine(tidy: string, blanks: string, session: string)
    requires Plain(tidy) && blanks in {" ", "  "} && ValidId(session)
    ensures MarkedLine(LineOf(tidy, blanks, session), tidy + blanks, session)
    ensures SingleLine(LineOf(tidy, blanks, session)) == LineOf(tidy, " ", session)
  {
    var text := tidy + blanks;
    var line := text + PREFIX + session;
    forall i | 0 <= i < |text| ensures !(PREFIX <= line[i..]) {
      assert line[i] == text[i] != 'c' && line[i..][0] == line[i];
    }
    BlanksDropped(tidy, blanks);
    TrimmedCopy(text, tidy);
    assert line == LineOf(tidy, blanks, session);
    MarkedTextIsUnlinked(line, text, session);
    CopiedTextIsTidy(text);
    CopyOfMarkedLine(line, text, session);
    RelinkedPlain(tidy, session);
  }

  lemma BlankDropped(s: string)
    ensures TrimEnd(s + " ") == TrimEnd(s)
  {
    assert (s + " ")[..|s + " "| - 1] == s;
  }

  lemma BlanksDropped(tidy: string, blanks: string)
    requires tidy != "" && !IsSpace(tidy[|tidy| - 1]) && blanks in {" ", "  "}
    ensures TrimEnd(tidy + blanks) == tidy
  {
    BlankDropped(tidy);
    BlankDropped(tidy + " ");
    assert tidy + " " + " " == tidy + "  ";
  }
}
