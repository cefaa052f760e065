/** Slash-separated paths as scope declarations compare them. */
module ScopePaths {
  import opened Outcome

  function TrimTrailingSlashes(s: string): string {
    if |s| > 0 && s[|s| - 1] == '/' then TrimTrailingSlashes(s[..|s| - 1]) else s
  }

  function TrimLeadingDots(s: string): string {
    if "./" <= s then TrimLeadingDots(s[2..]) else s
  }

  function Normalised(s: string): string {
    TrimLeadingDots(TrimTrailingSlashes(s))
  }

  function StripPrefix(s: string, prefix: string): Option<string> {
    if prefix <= s then Some(s[|prefix|..]) else None
  }

  predicate Under(a: string, b: string) {
    var rest := StripPrefix(a, b);
    rest.Some? && "/" <= rest.value
  }

  predicate PathOverlap(a: string, b: string) {
    var a, b := Normalised(a), Normalised(b);
    a == b || Under(a, b) || Under(b, a)
  }

  /** Splitting at every slash; the empty string is one empty component. */
  function Components(s: string): (r: seq<string>)
    ensures |r| >= 1
  {
    if s == "" then [""]
    else if s[0] == '/' then [""] + Components(s[1..])
    else Prepended(s[0], Components(s[1..]))
  }

  /** The same components, the first one longer by a character. */
  function Prepended(c: char, parts: seq<string>): (r: seq<string>)
    requires |parts| >= 1
    ensures |r| == |parts|
  {
    [[c] + parts[0]] + parts[1..]
  }

  function Joined(parts: seq<string>): string
    requires |parts| >= 1
  {
    if |parts| == 1 then parts[0] else parts[0] + "/" + Joined(parts[1..])
  }

  lemma Regrouped(first: string, second: string, slash: string, last: string)
    ensures ((first + second) + slash) + last == first + ((second + slash) + last)
  {
  }

  lemma JoinedPrepended(c: char, parts: seq<string>)
    requires |parts| >= 1
    ensures Joined(Prepended(c, parts)) == [c] + Joined(parts)
  {
    var longer := Prepended(c, parts);
    assert longer[0] == [c] + parts[0];
    if |parts| > 1 {
      assert longer[1..] == parts[1..];
      Regrouped([c], parts[0], "/", Joined(parts[1..]));
    }
  }

  lemma JoinedAfterEmpty(parts: seq<string>)
    requires |parts| >= 1
    ensures Joined([""] + parts) == "/" + Joined(parts)
  {
    assert ([""] + parts)[1..] == parts;
    assert "" + "/" + Joined(parts) == "/" + Joined(parts);
  }

  lemma {:induction false} JoinedComponents(s: string)
    ensures Joined(Components(s)) == s
  {
    if s != "" {
      JoinedComponents(s[1..]);
      assert s == [s[0]] + s[1..];
      if s[0] == '/' {
        JoinedAfterEmpty(Components(s[1..]));
      } else {
        JoinedPrepended(s[0], Components(s[1..]));
      }
    }
  }

  lemma PrependedConcat(c: char, x: seq<string>, y: seq<string>)
    requires |x| >= 1
    ensures Prepended(c, x + y) == Prepended(c, x) + y
  {
    assert (x + y)[0] == x[0] && (x + y)[1..] == x[1..] + y;
  }

  lemma {:induction false} ComponentsOfPair(a: string, b: string)
    ensures Components(a + "/" + b) == Components(a) + Components(b)
  {
    var whole := a + "/" + b;
    if a == "" {
      assert whole[0] == '/' && whole[1..] == b;
    } else {
      assert whole[0] == a[0] && whole[1..] == a[1..] + "/" + b;
      ComponentsOfPair(a[1..], b);
      var x, y := Components(a[1..]), Components(b);
      if a[0] == '/' {
        assert [""] + (x + y) == ([""] + x) + y;
      } else {
        PrependedConcat(a[0], x, y);
      }
    }
  }

  lemma {:induction false} JoinedOfPair(p: seq<string>, q: seq<string>)
    requires |p| >= 1 && |q| >= 1
    ensures Joined(p + q) == Joined(p) + "/" + Joined(q)
  {
    if |p| == 1 {
      assert (p + q)[1..] == q;
    } else {
      assert (p + q)[1..] == p[1..] + q;
      JoinedOfPair(p[1..], q);
    }
  }

  lemma UnderMeansPrefix(a: string, b: string)
    requires Under(a, b)
    ensures Components(b) <= Components(a)
  {
    var rest := a[|b| + 1..];
    assert a == b + "/" + rest;
    ComponentsOfPair(b, rest);
  }

  lemma PrefixMeansUnder(a: string, b: string, q: seq<string>)
    requires Components(a) == Components(b) + q
    ensures a == b || Under(a, b)
  {
    JoinedComponents(a);
    JoinedComponents(b);
    if q == [] {
      assert Components(b) + q == Components(b);
    } else {
      JoinedOfPair(Components(b), q);
      UnderJoined(b, Joined(q));
    }
  }

  lemma UnderJoined(b: string, rest: string)
    ensures Under(b + "/" + rest, b)
  {
    var a := b + "/" + rest;
    assert a[..|b|] == b && a[|b|..] == "/" + rest;
  }

  lemma UnderIffProperPrefix(a: string, b: string)
    ensures a == b || Under(a, b) <==> Components(b) <= Components(a)
  {
    if Under(a, b) {
      UnderMeansPrefix(a, b);
    }
    if Components(b) <= Components(a) {
      PrefixMeansUnder(a, b, Components(a)[|Components(b)|..]);
    }
  }

  /** Two declared paths overlap exactly when one names the other or a directory above it. */
  lemma OverlapIsComponentPrefix(a: string, b: string)
    ensures PathOverlap(a, b) <==>
            (var p, q := Components(Normalised(a)), Components(Normalised(b)); p <= q || q <= p)
  {
    UnderIffProperPrefix(Normalised(a), Normalised(b));
    UnderIffProperPrefix(Normalised(b), Normalised(a));
  }
}

/** The overlap verdict between two tasks: contract conflicts, reviews that go
    stale with the work they judged, and the set of shared concerns. */
module TaskOverlap {
  import opened Outcome
  import opened DependencyGraph
  import opened ScopePaths

  /** What the verdict reads from a task's text: the serialised requirements a
      review is stamped with, and the code symbols named in the description. */
  datatype Reading = Reading(render: Spec -> string, symbols: string -> set<string>)

  datatype Concern =
    | SharedModule(name: string)
    | SharedInterface(name: string)
    | SharedResource(name: string)
    | SharedFile(name: string, dirty: bool)
    | SharedRequirement(symbol: string)
    | DeclaredScope(symbol: string)

  datatype Reason =
    | BehaviorConflict(key: string)
    | ReviewConflict(reason: string)
    | PotentialOverlap(concerns: set<Concern>)

  // ------------------------------------------------------------ review evidence

  predicate LexLeq(a: string, b: string) {
    |a| == 0 || (|b| > 0 && (a[0] < b[0] || (a[0] == b[0] && LexLeq(a[1..], b[1..]))))
  }

  lemma {:induction false} LexAntisymmetric(a: string, b: string)
    requires LexLeq(a, b) && LexLeq(b, a)
    ensures a == b
  {
    if |a| > 0 {
      LexAntisymmetric(a[1..], b[1..]);
      assert a == [a[0]] + a[1..] && b == [b[0]] + b[1..];
    }
  }

  lemma {:induction false} LexTotal(a: string, b: string)
    ensures LexLeq(a, b) || LexLeq(b, a)
  {
    if |a| > 0 && |b| > 0 {
      LexTotal(a[1..], b[1..]);
    }
  }

  /** The stamp of a review: both renderings, sorted. */
  function Evidence(rd: Reading, a: Spec, b: Spec): seq<string> {
    var x, y := rd.render(a), rd.render(b);
    if LexLeq(x, y) then [x, y] else [y, x]
  }

  lemma EvidenceSymmetric(rd: Reading, a: Spec, b: Spec)
    ensures Evidence(rd, a, b) == Evidence(rd, b, a)
  {
    var x, y := rd.render(a), rd.render(b);
    LexTotal(x, y);
    if LexLeq(x, y) && LexLeq(y, x) {
      LexAntisymmetric(x, y);
    }
  }

  /** A stamp identifies the unordered pair it was taken of, so a review stops
      counting as soon as either rendering changes. */
  lemma EvidenceGoesStale(rd: Reading, a: Spec, a': Spec, b: Spec)
    ensures Evidence(rd, a, b) == Evidence(rd, a', b) <==> rd.render(a) == rd.render(a')
  {
    if rd.render(a) != rd.render(a') {
      assert multiset(Evidence(rd, a, b)) == multiset{rd.render(a), rd.render(b)};
      assert multiset(Evidence(rd, a', b)) == multiset{rd.render(a'), rd.render(b)};
      assert multiset{rd.render(a), rd.render(b)}[rd.render(a)]
          != multiset{rd.render(a'), rd.render(b)}[rd.render(a)];
    }
  }

  // ------------------------------------------------------------------ the verdict

  function FirstReview(reviews: seq<Review>, peer: string, stamp: seq<string>): (r: Option<Review>)
    ensures r.Some? ==> r.value in reviews && r.value.other == peer && r.value.evidence == stamp
  {
    if |reviews| == 0 then None
    else if reviews[0].other == peer && reviews[0].evidence == stamp then Some(reviews[0])
    else FirstReview(reviews[1..], peer, stamp)
  }

  function ReviewOf(rd: Reading, owner: Spec, peer: Spec): Option<Review> {
    if peer.id == "" then None else FirstReview(owner.reviews, peer.id, Evidence(rd, owner, peer))
  }

  predicate Rejects(r: Option<Review>) { r.Some? && !r.value.compatible }

  predicate Accepts(r: Option<Review>) { r.Some? && r.value.compatible }

  ghost predicate BehaviorsConflict(a: Spec, b: Spec) {
    exists key :: && key in a.scope.behavior && key in b.scope.behavior
                  && a.scope.behavior[key] != b.scope.behavior[key]
  }

  predicate Meets(scope: Scope, symbol: string) {
    || (exists f :: f in scope.files && PathOverlap(f, symbol))
    || (exists n :: n in scope.modules + scope.interfaces + scope.resources && (n == symbol || n + "::" <= symbol))
  }

  predicate Dirty(file: string, changed: set<string>) {
    exists path :: path in changed && PathOverlap(file, path)
  }

  ghost predicate ShareName(ours: seq<string>, theirs: seq<string>) {
    exists n :: n in ours && n in theirs
  }

  /** What two scopes have in common, read independently of how it is reported. */
  ghost predicate Meeting(rd: Reading, a: Spec, b: Spec) {
    || ShareName(a.scope.modules, b.scope.modules)
    || ShareName(a.scope.interfaces, b.scope.interfaces)
    || ShareName(a.scope.resources, b.scope.resources)
    || (exists f, g :: f in a.scope.files && g in b.scope.files && PathOverlap(f, g))
    || rd.symbols(a.content) * rd.symbols(b.content) != {}
    || (exists y :: y in rd.symbols(b.content) && Meets(a.scope, y))
    || (exists y :: y in rd.symbols(a.content) && Meets(b.scope, y))
  }

  ghost predicate Overlaps(rd: Reading, a: Spec, b: Spec) {
    var ours, theirs := ReviewOf(rd, a, b), ReviewOf(rd, b, a);
    || BehaviorsConflict(a, b)
    || Rejects(ours) || Rejects(theirs)
    || (!Accepts(ours) && !Accepts(theirs) && Meeting(rd, a, b))
  }

  lemma PathOverlapSymmetric(a: string, b: string)
    ensures PathOverlap(a, b) == PathOverlap(b, a)
  {
  }

  lemma OverlapsSymmetric(rd: Reading, a: Spec, b: Spec)
    ensures Overlaps(rd, a, b) == Overlaps(rd, b, a)
  {
    EvidenceSymmetric(rd, a, b);
    assert rd.symbols(a.content) * rd.symbols(b.content) == rd.symbols(b.content) * rd.symbols(a.content);
    assert BehaviorsConflict(a, b) == BehaviorsConflict(b, a);
    if f, g :| f in a.scope.files && g in b.scope.files && PathOverlap(f, g) {
      PathOverlapSymmetric(f, g);
    }
    if f, g :| f in b.scope.files && g in a.scope.files && PathOverlap(f, g) {
      PathOverlapSymmetric(f, g);
    }
    assert Meeting(rd, a, b) == Meeting(rd, b, a);
  }

  // ------------------------------------------------------------ the report itself

  ghost function Reported(rd: Reading, a: Spec, b: Spec, changed: set<string>): set<Concern> {
    var ours, theirs := rd.symbols(a.content), rd.symbols(b.content);
    (set n | n in Common(a.scope.modules, b.scope.modules) :: SharedModule(n))
    + (set n | n in Common(a.scope.interfaces, b.scope.interfaces) :: SharedInterface(n))
    + (set n | n in Common(a.scope.resources, b.scope.resources) :: SharedResource(n))
    + FileConcerns(a.scope.files, b.scope.files, changed)
    + (set y | y in ours * theirs :: SharedRequirement(y))
    + (set y | y in theirs && Meets(a.scope, y) :: DeclaredScope(y))
    + (set y | y in ours && Meets(b.scope, y) :: DeclaredScope(y))
  }

  ghost function Common(ours: seq<string>, theirs: seq<string>): set<string> {
    set n | n in ours && n in theirs
  }

  ghost function FileConcerns(ours: seq<string>, theirs: seq<string>, changed: set<string>): set<Concern> {
    set f | f in ours && Touches(f, theirs) :: SharedFile(f, Dirty(f, changed))
  }

  predicate Touches(file: string, files: seq<string>) {
    exists g :: g in files && PathOverlap(file, g)
  }

  lemma ReportedIffMeeting(rd: Reading, a: Spec, b: Spec, changed: set<string>)
    ensures Reported(rd, a, b, changed) != {} <==> Meeting(rd, a, b)
  {
    var r := Reported(rd, a, b, changed);
    if n :| n in a.scope.modules && n in b.scope.modules { assert n in Common(a.scope.modules, b.scope.modules); assert SharedModule(n) in r; }
    if n :| n in a.scope.interfaces && n in b.scope.interfaces { assert n in Common(a.scope.interfaces, b.scope.interfaces); assert SharedInterface(n) in r; }
    if n :| n in a.scope.resources && n in b.scope.resources { assert n in Common(a.scope.resources, b.scope.resources); assert SharedResource(n) in r; }
    if f, g :| f in a.scope.files && g in b.scope.files && PathOverlap(f, g) {
      assert Touches(f, b.scope.files);
      assert SharedFile(f, Dirty(f, changed)) in r;
    }
    if y :| y in rd.symbols(a.content) * rd.symbols(b.content) { assert SharedRequirement(y) in r; }
    if y :| y in rd.symbols(b.content) && Meets(a.scope, y) { assert DeclaredScope(y) in r; }
    if y :| y in rd.symbols(a.content) && Meets(b.scope, y) { assert DeclaredScope(y) in r; }
    if c :| c in r {
      assert Meeting(rd, a, b);
    }
  }

  method SharedNames(ours: seq<string>, theirs: seq<string>) returns (shared: set<string>)
    ensures shared == Common(ours, theirs)
  {
    shared := {};
    for k := 0 to |ours|
      invariant shared == Common(ours[..k], theirs)
    {
      if ours[k] in theirs {
        shared := shared + {ours[k]};
      }
      assert ours[..k + 1] == ours[..k] + [ours[k]];
    }
  }

  method SharedFiles(ours: seq<string>, theirs: seq<string>, changed: set<string>) returns (shared: set<Concern>)
    ensures shared == FileConcerns(ours, theirs, changed)
  {
    shared := {};
    for k := 0 to |ours|
      invariant shared == FileConcerns(ours[..k], theirs, changed)
    {
      assert ours[..k + 1] == ours[..k] + [ours[k]];
      assert forall f :: f in ours[..k + 1] <==> f in ours[..k] || f == ours[k];
      if Touches(ours[k], theirs) {
        shared := shared + {SharedFile(ours[k], Dirty(ours[k], changed))};
      }
    }
  }

  method ConflictingBehavior(a: Spec, b: Spec) returns (key: Option<string>)
    ensures key.Some? <==> BehaviorsConflict(a, b)
    ensures key.Some? ==> && key.value in a.scope.behavior && key.value in b.scope.behavior
                          && a.scope.behavior[key.value] != b.scope.behavior[key.value]
  {
    var rest := a.scope.behavior.Keys;
    while rest != {}
      invariant rest <= a.scope.behavior.Keys
      invariant forall k :: && k in a.scope.behavior && k !in rest && k in b.scope.behavior
                            ==> a.scope.behavior[k] == b.scope.behavior[k]
      decreases rest
    {
      var k :| k in rest;
      if k in b.scope.behavior && a.scope.behavior[k] != b.scope.behavior[k] {
        return Some(k);
      }
      rest := rest - {k};
    }
    key := None;
  }

  /** A rejecting review of either side wins; otherwise any accepting one settles the pair. */
  method ReviewVerdict(rd: Reading, task: Spec, other: Spec) returns (r: Option<Review>)
    ensures Rejects(r) <==> Rejects(ReviewOf(rd, task, other)) || Rejects(ReviewOf(rd, other, task))
    ensures r.None? <==> ReviewOf(rd, task, other).None? && ReviewOf(rd, other, task).None?
    ensures r.Some? ==> r == ReviewOf(rd, task, other) || r == ReviewOf(rd, other, task)
  {
    r := None;
    var sides := [(task, other), (other, task)];
    for k := 0 to 2
      invariant !Rejects(r)
      invariant r.None? <==> forall j :: 0 <= j < k ==> ReviewOf(rd, sides[j].0, sides[j].1).None?
      invariant r.Some? ==> exists j :: 0 <= j < k && r == ReviewOf(rd, sides[j].0, sides[j].1)
      invariant forall j :: 0 <= j < k ==> !Rejects(ReviewOf(rd, sides[j].0, sides[j].1))
    {
      var review := ReviewOf(rd, sides[k].0, sides[k].1);
      if review.Some? {
        r := review;
        if !review.value.compatible {
          return;
        }
      }
    }
    assert sides[0] == (task, other) && sides[1] == (other, task);
  }

  method Concerns(rd: Reading, task: Spec, other: Spec, changed: set<string>) returns (concerns: set<Concern>)
    ensures concerns == Reported(rd, task, other, changed)
  {
    var modules := SharedNames(task.scope.modules, other.scope.modules);
    var interfaces := SharedNames(task.scope.interfaces, other.scope.interfaces);
    var resources := SharedNames(task.scope.resources, other.scope.resources);
    var files := SharedFiles(task.scope.files, other.scope.files, changed);
    var ours, theirs := rd.symbols(task.content), rd.symbols(other.content);
    concerns :=
      (set n | n in modules :: SharedModule(n))
      + (set n | n in interfaces :: SharedInterface(n))
      + (set n | n in resources :: SharedResource(n))
      + files
      + (set y | y in ours * theirs :: SharedRequirement(y))
      + (set y | y in theirs && Meets(task.scope, y) :: DeclaredScope(y))
      + (set y | y in ours && Meets(other.scope, y) :: DeclaredScope(y));
  }

  /** `changed` only decorates the report: whether there is one does not depend on it. */
  method Overlap(rd: Reading, task: Spec, other: Spec, changed: set<string>) returns (r: Option<Reason>)
    ensures r.Some? <==> Overlaps(rd, task, other)
    ensures r.Some? && r.value.PotentialOverlap? ==> r.value.concerns == Reported(rd, task, other, changed)
    ensures r.Some? && r.value.BehaviorConflict? <==> BehaviorsConflict(task, other)
  {
    var conflict := ConflictingBehavior(task, other);
    if conflict.Some? {
      return Some(BehaviorConflict(conflict.value));
    }
    var review := ReviewVerdict(rd, task, other);
    match review {
      case Some(verdict) =>
        return if verdict.compatible then None else Some(ReviewConflict(verdict.reason));
      case None =>
    }
    var concerns := Concerns(rd, task, other, changed);
    ReportedIffMeeting(rd, task, other, changed);
    r := if concerns != {} then Some(PotentialOverlap(concerns)) else None;
  }
}
