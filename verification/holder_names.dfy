/** Lease and guardian holder names: printing them and reading back who they belong to. */
module HolderNames {
  import opened Outcome

  datatype Disposition = ResumeExec | PreserveIdleSession | RestoreStopped | PreserveSharedSession | RestoreStoppedShared {
    function Prefix(): string {
      match this
      case ResumeExec => "clt-interactive-worker"
      case PreserveIdleSession => "clt-idle-interactive-worker"
      case RestoreStopped => "clt-stopped-interactive-worker"
      case PreserveSharedSession => "clt-shared-interactive-worker"
      case RestoreStoppedShared => "clt-stopped-shared-interactive-worker"
    }
  }

  /** Prefixes of holders that hold a lease for an interactive request without being a
      guardian, in the order the PID reader tries them. */
  const REQUESTERS := [
    "clt-stopped-shared-interactive-",
    "clt-shared-interactive-",
    "clt-stopped-readonly-interactive-",
    "clt-readonly-interactive-",
    "clt-stopped-interactive-",
    "clt-idle-interactive-",
    "clt-interactive-"
  ]

  const LEGACY_STOPPED := "clt-stopped-readonly-interactive-worker-"

  const LEGACY_SHARED := "clt-readonly-interactive-worker-"

  const U32_LIMIT: nat := 0x1_0000_0000

  // ------------------------------------------------------------- printing numbers

  function Digit(d: nat): char
    requires d < 10
  {
    '0' + d as char
  }

  predicate IsDigit(c: char) { '0' <= c <= '9' }

  predicate AllDigits(s: string) {
    forall i :: 0 <= i < |s| ==> IsDigit(s[i])
  }

  function Decimal(n: nat): (s: string)
    ensures |s| >= 1 && AllDigits(s)
  {
    if n < 10 then [Digit(n)] else Decimal(n / 10) + [Digit(n % 10)]
  }

  function Value(s: string): nat
    requires AllDigits(s)
  {
    if s == "" then 0
    else
      assert IsDigit(s[|s| - 1]);
      10 * Value(s[..|s| - 1]) + (s[|s| - 1] - '0') as nat
  }

  /** Reading an unsigned 32-bit number: an optional plus, digits only, no overflow. */
  function ParseU32(s: string): Option<nat> {
    var digits := if "+" <= s then s[1..] else s;
    if digits == "" || !AllDigits(digits) then None
    else if Value(digits) < U32_LIMIT then Some(Value(digits)) else None
  }

  lemma {:induction false} ValueOfDecimal(n: nat)
    ensures Value(Decimal(n)) == n
  {
    if n >= 10 {
      ValueOfDecimal(n / 10);
      assert Decimal(n)[..|Decimal(n)| - 1] == Decimal(n / 10);
    } else {
      assert Decimal(n)[..0] == "";
    }
  }

  lemma DecimalParses(n: nat)
    ensures ParseU32(Decimal(n)) == if n < U32_LIMIT then Some(n) else None
  {
    ValueOfDecimal(n);
    assert IsDigit(Decimal(n)[0]);
  }

  // ---------------------------------------------------------------- holder names

  function FirstField(s: string): string {
    if s == "" || s[0] == '-' then "" else [s[0]] + FirstField(s[1..])
  }

  function Tail(pid: nat, generation: nat, sequence: nat): string {
    Decimal(pid) + "-" + Decimal(generation) + "-" + Decimal(sequence)
  }

  function GuardianName(d: Disposition, pid: nat, generation: nat, sequence: nat): string {
    d.Prefix() + "-" + Tail(pid, generation, sequence)
  }

  const DISPOSITIONS := [ResumeExec, PreserveIdleSession, RestoreStopped, PreserveSharedSession, RestoreStoppedShared]

  function FirstDisposition(holder: string, from: nat): Option<Disposition>
    decreases |DISPOSITIONS| - from
  {
    if from >= |DISPOSITIONS| then None
    else if DISPOSITIONS[from].Prefix() <= holder then Some(DISPOSITIONS[from])
    else FirstDisposition(holder, from + 1)
  }

  function DispositionOf(holder: string): Option<Disposition> {
    if LEGACY_STOPPED <= holder then Some(RestoreStoppedShared)
    else if LEGACY_SHARED <= holder then Some(PreserveSharedSession)
    else FirstDisposition(holder, 0)
  }

  function PidAfter(prefix: string, holder: string): Option<nat> {
    if prefix <= holder then ParseU32(FirstField(holder[|prefix|..])) else None
  }

  function GuardianPid(holder: string): Option<nat> {
    var d := DispositionOf(holder);
    if d.None? then None else PidAfter(d.value.Prefix() + "-", holder)
  }

  /** The first prefix that both matches and is followed by a PID decides. */
  function FirstPid(prefixes: seq<string>, holder: string): Option<nat> {
    if prefixes == [] then None
    else if PidAfter(prefixes[0], holder).Some? then PidAfter(prefixes[0], holder)
    else FirstPid(prefixes[1..], holder)
  }

  function HolderPid(holder: string): Option<nat> {
    if GuardianPid(holder).Some? then GuardianPid(holder) else FirstPid(REQUESTERS, holder)
  }

  // ------------------------------------------------------------------- round trips

  lemma {:induction false} FirstFieldStops(a: string, rest: string)
    requires forall i :: 0 <= i < |a| ==> a[i] != '-'
    ensures FirstField(a + "-" + rest) == a
  {
    var s := a + "-" + rest;
    if a == "" {
      assert s[0] == '-';
    } else {
      assert s[0] == a[0] && s[1..] == a[1..] + "-" + rest;
      FirstFieldStops(a[1..], rest);
    }
  }

  lemma TailReads(prefix: string, pid: nat, generation: nat, sequence: nat)
    ensures PidAfter(prefix, prefix + Tail(pid, generation, sequence)) == if pid < U32_LIMIT then Some(pid) else None
  {
    var holder, tail := prefix + Tail(pid, generation, sequence), Decimal(generation) + "-" + Decimal(sequence);
    assert holder[|prefix|..] == Decimal(pid) + "-" + tail;
    FirstFieldStops(Decimal(pid), tail);
    DecimalParses(pid);
  }

  /** Two names part ways at a character. */
  lemma PartsAt(prefix: string, start: string, rest: string, k: nat)
    requires k < |prefix| && k < |start| && prefix[k] != start[k]
    ensures !(prefix <= start + rest)
  {
    assert (start + rest)[k] == start[k];
  }

  /** Each guardian prefix differs in some position from the ones tried before it. */
  lemma GuardianIsRecognised(d: Disposition, rest: string)
    ensures DispositionOf(d.Prefix() + rest) == Some(d)
  {
    NoLegacyStart(d, rest);
    if d == PreserveSharedSession {
      PreserveSharedStart(rest);
    } else if d == RestoreStoppedShared {
      RestoreSharedStart(rest);
    } else {
      ExclusiveGuardianStart(d, rest);
    }
    DispositionFound(d, d.Prefix() + rest);
  }

  lemma NoLegacyStart(d: Disposition, rest: string)
    ensures !(LEGACY_STOPPED <= d.Prefix() + rest) && !(LEGACY_SHARED <= d.Prefix() + rest)
  {
    var p := d.Prefix();
    PartsAt(LEGACY_SHARED, p, rest, 4);
    if d in {RestoreStopped, RestoreStoppedShared} {
      PartsAt(LEGACY_STOPPED, p, rest, 12);
    } else {
      PartsAt(LEGACY_STOPPED, p, rest, 5);
    }
  }

  lemma ExclusiveGuardianStart(d: Disposition, rest: string)
    requires d in {ResumeExec, PreserveIdleSession, RestoreStopped}
    ensures d != ResumeExec ==> !(ResumeExec.Prefix() <= d.Prefix() + rest)
    ensures d == RestoreStopped ==> !(PreserveIdleSession.Prefix() <= d.Prefix() + rest)
  {
    if d == PreserveIdleSession {
      PartsAt(ResumeExec.Prefix(), d.Prefix(), rest, 5);
    } else if d == RestoreStopped {
      PartsAt(ResumeExec.Prefix(), d.Prefix(), rest, 4);
      PartsAt(PreserveIdleSession.Prefix(), d.Prefix(), rest, 4);
    }
  }

  lemma PreserveSharedStart(rest: string)
    ensures !(ResumeExec.Prefix() <= PreserveSharedSession.Prefix() + rest)
    ensures !(PreserveIdleSession.Prefix() <= PreserveSharedSession.Prefix() + rest)
    ensures !(RestoreStopped.Prefix() <= PreserveSharedSession.Prefix() + rest)
  {
    var p := PreserveSharedSession.Prefix();
    PartsAt(ResumeExec.Prefix(), p, rest, 4);
    PartsAt(PreserveIdleSession.Prefix(), p, rest, 4);
    PartsAt(RestoreStopped.Prefix(), p, rest, 5);
  }

  lemma RestoreSharedStart(rest: string)
    ensures !(ResumeExec.Prefix() <= RestoreStoppedShared.Prefix() + rest)
    ensures !(PreserveIdleSession.Prefix() <= RestoreStoppedShared.Prefix() + rest)
    ensures !(RestoreStopped.Prefix() <= RestoreStoppedShared.Prefix() + rest)
    ensures !(PreserveSharedSession.Prefix() <= RestoreStoppedShared.Prefix() + rest)
  {
    var p := RestoreStoppedShared.Prefix();
    PartsAt(ResumeExec.Prefix(), p, rest, 4);
    PartsAt(PreserveIdleSession.Prefix(), p, rest, 4);
    PartsAt(RestoreStopped.Prefix(), p, rest, 12);
    PartsAt(PreserveSharedSession.Prefix(), p, rest, 5);
  }

  lemma DispositionFound(d: Disposition, holder: string)
    requires d.Prefix() <= holder && !(LEGACY_STOPPED <= holder) && !(LEGACY_SHARED <= holder)
    requires d != ResumeExec ==> !(ResumeExec.Prefix() <= holder)
    requires d !in {ResumeExec, PreserveIdleSession} ==> !(PreserveIdleSession.Prefix() <= holder)
    requires d in {PreserveSharedSession, RestoreStoppedShared} ==> !(RestoreStopped.Prefix() <= holder)
    requires d == RestoreStoppedShared ==> !(PreserveSharedSession.Prefix() <= holder)
    ensures DispositionOf(holder) == Some(d)
  {
    assert FirstDisposition(holder, 4) == (if RestoreStoppedShared.Prefix() <= holder then Some(RestoreStoppedShared) else FirstDisposition(holder, 5));
    assert FirstDisposition(holder, 3) == (if PreserveSharedSession.Prefix() <= holder then Some(PreserveSharedSession) else FirstDisposition(holder, 4));
    assert FirstDisposition(holder, 2) == (if RestoreStopped.Prefix() <= holder then Some(RestoreStopped) else FirstDisposition(holder, 3));
    assert FirstDisposition(holder, 1) == (if PreserveIdleSession.Prefix() <= holder then Some(PreserveIdleSession) else FirstDisposition(holder, 2));
  }

  /** A guardian's printed name gives back its disposition and its PID. */
  lemma GuardianRoundTrip(d: Disposition, pid: nat, generation: nat, sequence: nat)
    requires pid < U32_LIMIT
    ensures DispositionOf(GuardianName(d, pid, generation, sequence)) == Some(d)
    ensures GuardianPid(GuardianName(d, pid, generation, sequence)) == Some(pid)
    ensures HolderPid(GuardianName(d, pid, generation, sequence)) == Some(pid)
  {
    var tail := Tail(pid, generation, sequence);
    assert GuardianName(d, pid, generation, sequence) == d.Prefix() + ("-" + tail) == (d.Prefix() + "-") + tail;
    GuardianIsRecognised(d, "-" + tail);
    TailReads(d.Prefix() + "-", pid, generation, sequence);
  }

  // ------------------------------------------------------ holders that guard nothing

  const GUARDIAN_STARTS := [LEGACY_STOPPED, LEGACY_SHARED] +
    [ResumeExec.Prefix(), PreserveIdleSession.Prefix(), RestoreStopped.Prefix(), PreserveSharedSession.Prefix(),
     RestoreStoppedShared.Prefix()]

  /** Where two of these starts part ways; if nowhere, behind the shorter requester prefix. */
  function Fork(p: string, q: string): nat
    requires |p| > 12 && |q| > 12
  {
    if p[4] != q[4] then 4 else if p[5] != q[5] then 5 else if p[12] != q[12] then 12 else |q|
  }

  predicate Apart(p: string, q: string) {
    && |p| > 12 && |q| > 12
    && (Fork(p, q) == |q| ==> |p| > |q| && !IsDigit(p[|q|]))
    && (Fork(p, q) < |q| ==> Fork(p, q) < |p|)
  }

  lemma ApartMeansNoPrefix(p: string, q: string, rest: string)
    requires Apart(p, q) && rest != "" && IsDigit(rest[0])
    ensures !(p <= q + rest)
  {
    var k := Fork(p, q);
    assert k == |q| ==> (q + rest)[k] == rest[0];
    assert k < |q| ==> (q + rest)[k] == q[k];
  }

  lemma RequestersAreApart(i: nat, j: nat)
    requires i < |REQUESTERS| && j < |GUARDIAN_STARTS|
    ensures Apart(GUARDIAN_STARTS[j], REQUESTERS[i])
  {
  }

  predicate Differ(p: string, q: string) {
    Apart(p, q) && Fork(p, q) < |q|
  }

  lemma EarlyRequestersDiffer(i: nat, j: nat)
    requires i < 3 && j < |REQUESTERS| && i != j
    ensures Differ(REQUESTERS[j], REQUESTERS[i])
  {
  }

  lemma LateRequestersDiffer(i: nat, j: nat)
    requires 3 <= i < |REQUESTERS| && j < |REQUESTERS| && i != j
    ensures Differ(REQUESTERS[j], REQUESTERS[i])
  {
  }

  lemma RequestersDiffer(i: nat, j: nat)
    requires i < |REQUESTERS| && j < |REQUESTERS| && i != j
    ensures Differ(REQUESTERS[j], REQUESTERS[i])
  {
    if i < 3 {
      EarlyRequestersDiffer(i, j);
    } else {
      LateRequestersDiffer(i, j);
    }
  }

  lemma {:induction false} NoDisposition(holder: string, from: nat)
    requires forall k :: from <= k < |DISPOSITIONS| ==> !(DISPOSITIONS[k].Prefix() <= holder)
    ensures FirstDisposition(holder, from) == None
    decreases |DISPOSITIONS| - from
  {
    if from < |DISPOSITIONS| {
      NoDisposition(holder, from + 1);
    }
  }

  lemma {:induction false} PidFound(prefixes: seq<string>, holder: string, i: nat)
    requires i < |prefixes| && PidAfter(prefixes[i], holder).Some?
    requires forall j :: 0 <= j < i ==> PidAfter(prefixes[j], holder).None?
    ensures FirstPid(prefixes, holder) == PidAfter(prefixes[i], holder)
  {
    if i > 0 {
      assert forall j :: 0 <= j < i - 1 ==> prefixes[1..][j] == prefixes[j + 1];
      PidFound(prefixes[1..], holder, i - 1);
    }
  }

  lemma {:induction false} NoPidFound(prefixes: seq<string>, holder: string)
    requires forall j :: 0 <= j < |prefixes| ==> PidAfter(prefixes[j], holder).None?
    ensures FirstPid(prefixes, holder) == None
  {
    if prefixes != [] {
      assert forall j :: 0 <= j < |prefixes| - 1 ==> prefixes[1..][j] == prefixes[j + 1];
      NoPidFound(prefixes[1..], holder);
    }
  }

  lemma NoGuardianStart(holder: string)
    requires forall j :: 0 <= j < |GUARDIAN_STARTS| ==> !(GUARDIAN_STARTS[j] <= holder)
    ensures DispositionOf(holder) == None
  {
    assert GUARDIAN_STARTS[0] == LEGACY_STOPPED && GUARDIAN_STARTS[1] == LEGACY_SHARED;
    forall k | 0 <= k < |DISPOSITIONS| ensures !(DISPOSITIONS[k].Prefix() <= holder) {
      assert GUARDIAN_STARTS[k + 2] == DISPOSITIONS[k].Prefix();
    }
    NoDisposition(holder, 0);
  }

  /** A requester's printed name names no guardian but gives back its PID. */
  lemma RequesterRoundTrip(i: nat, pid: nat, generation: nat, sequence: nat)
    requires i < |REQUESTERS| && pid < U32_LIMIT
    ensures DispositionOf(REQUESTERS[i] + Tail(pid, generation, sequence)) == None
    ensures HolderPid(REQUESTERS[i] + Tail(pid, generation, sequence)) == Some(pid)
  {
    var tail := Tail(pid, generation, sequence);
    var holder := REQUESTERS[i] + tail;
    assert tail[0] == Decimal(pid)[0];
    forall j | 0 <= j < |GUARDIAN_STARTS| ensures !(GUARDIAN_STARTS[j] <= holder) {
      RequestersAreApart(i, j);
      ApartMeansNoPrefix(GUARDIAN_STARTS[j], REQUESTERS[i], tail);
    }
    NoGuardianStart(holder);
    forall j | 0 <= j < i ensures PidAfter(REQUESTERS[j], holder).None? {
      RequestersDiffer(i, j);
      ApartMeansNoPrefix(REQUESTERS[j], REQUESTERS[i], tail);
    }
    TailReads(REQUESTERS[i], pid, generation, sequence);
    PidFound(REQUESTERS, holder, i);
  }

  // ------------------------------------------------------------- older guardians

  lemma WordIsNoPid(prefix: string, rest: string)
    requires |rest| >= 1 && rest[0] == 'w'
    ensures PidAfter(prefix, prefix + rest) == None
  {
    assert (prefix + rest)[|prefix|..] == rest;
    var field := FirstField(rest);
    assert field[0] == 'w' && "+"[0] == '+';
    assert !("+" <= field) && !IsDigit(field[0]) && !AllDigits(field);
  }

  lemma LegacyStartReadsNoPid(stopped: bool, tail: string, j: nat)
    requires j < |REQUESTERS|
    ensures PidAfter(REQUESTERS[j], (if stopped then LEGACY_STOPPED else LEGACY_SHARED) + tail).None?
  {
    var holder := (if stopped then LEGACY_STOPPED else LEGACY_SHARED) + tail;
    var own := if stopped then 2 else 3;
    assert holder == REQUESTERS[own] + ("worker-" + tail) by {
      assert LEGACY_STOPPED == REQUESTERS[2] + "worker-" && LEGACY_SHARED == REQUESTERS[3] + "worker-";
    }
    if j == own {
      WordIsNoPid(REQUESTERS[own], "worker-" + tail);
    } else {
      RequestersDiffer(own, j);
      PartsAt(REQUESTERS[j], REQUESTERS[own], "worker-" + tail, Fork(REQUESTERS[j], REQUESTERS[own]));
    }
  }

  /** Guardians of the former read-only kind keep their disposition but give back no
      PID, so nothing ever proves such a guardian dead by its name. */
  lemma LegacyGuardianHasNoPid(stopped: bool, pid: nat, generation: nat, sequence: nat)
    ensures var holder := (if stopped then LEGACY_STOPPED else LEGACY_SHARED) + Tail(pid, generation, sequence);
            && DispositionOf(holder) == Some(if stopped then RestoreStoppedShared else PreserveSharedSession)
            && GuardianPid(holder) == None && HolderPid(holder) == None
  {
    var tail := Tail(pid, generation, sequence);
    var start := if stopped then LEGACY_STOPPED else LEGACY_SHARED;
    var holder := start + tail;
    if !stopped {
      PartsAt(LEGACY_STOPPED, LEGACY_SHARED, tail, 4);
      PartsAt(PreserveSharedSession.Prefix() + "-", LEGACY_SHARED, tail, 4);
    } else {
      PartsAt(RestoreStoppedShared.Prefix() + "-", LEGACY_STOPPED, tail, 12);
    }
    forall j | 0 <= j < |REQUESTERS| ensures PidAfter(REQUESTERS[j], holder).None? {
      LegacyStartReadsNoPid(stopped, tail, j);
    }
    NoPidFound(REQUESTERS, holder);
  }
}
