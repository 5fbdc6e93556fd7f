/** The release outcome contract: the artifact of one test command and its validator. */
module Outcomes {
  import opened Wrappers
  import opened Text

  datatype Outcome = Passed | Skipped | Failed | Errors | XFailed | XPassed | Deselected

  datatype When = Setup | Call | Teardown | Collection | OtherPhase(text: string)

  const MAX_CASES: nat := 100_000
  const REDACTED := "Unreviewed skip reason."

  // SHA-256 of a skip reason; anything that is not a digest is Malformed.
  datatype ReasonDigest = ReasonDigest(reason: string) | Malformed

  // A reviewed skip.  A policy holds the reviews that match the binding and the platform at hand,
  // by test and reason digest.
  datatype Review = Review(reason: string, reviewId: string, notApplicable: bool)

  datatype ReviewKey = ReviewKey(node: string, digest: ReasonDigest)

  type Policy = map<ReviewKey, Review>

  datatype SkipNote = SkipNote(reviewed: bool, reason: string, digest: ReasonDigest, reviewId: Option<string>)

  datatype Row = Row(nodeid: string, outcome: Outcome, when: When, parent: Option<string>, skip: Option<SkipNote>)

  datatype Problem =
    | UnsafeTestIdentity | DuplicateTestIdentity | UnmappedTestResult | UnmappedSubtest
    | MissingTerminalResults | UnsafeParameterIdentity | DeselectedTests | IncompleteCollection
    | IncompleteCustomCollection | UnsupportedCommand | CollectorExecutionError | SourceDrift
    | ForeignProblem(text: string)

  // kind, name, command, template, source hash, git head and the three tool digests.
  datatype Binding = Binding(kind: string, name: string, command: string, source: string, gitHead: string, tools: string)

  type Counts = map<Outcome, int>

  datatype Body = Body(
    binding: Binding,
    completed: bool,
    exitCode: Option<int>,
    collected: seq<string>,
    cases: seq<Row>,
    subtests: seq<Row>,
    counts: Counts,
    problems: set<Problem>)

  datatype Digest = DigestOf(body: Body)

  datatype Artifact = Artifact(body: Body, digest: Digest)

  datatype Refusal =
    | BindingDiffers | DigestDiffers | BadIdentities | BadCounts | TooMany | BadRow | Unreconciled
    | BadProblems | NotQualifying

  // ---------------------------------------------------------------------------------------
  // Names
  // ---------------------------------------------------------------------------------------

  predicate Letter(c: char) {
    'a' <= c <= 'z' || 'A' <= c <= 'Z'
  }

  predicate StemChar(c: char) {
    Letter(c) || Digit(c) || c == '_' || c == '-'
  }

  predicate NameChar(c: char) {
    StemChar(c) || c == '.'
  }

  // [A-Za-z_][A-Za-z0-9_.-]*
  predicate IsIdent(s: string) {
    s != "" && (Letter(s[0]) || s[0] == '_') && forall i :: 0 <= i < |s| ==> NameChar(s[i])
  }

  // (?:[A-Za-z0-9_-]+/)*[A-Za-z0-9_-]+\.py
  predicate IsModulePath(s: string) {
    var n := |s| - 3;
    && n > 0 && s[n..] == ".py"
    && StemChar(s[0]) && StemChar(s[n - 1])
    && forall i :: 0 <= i < n ==> StemChar(s[i]) || (s[i] == '/' && i + 1 < n && s[i + 1] != '/')
  }

  // (?:::ident)+
  predicate IsNames(s: string)
    decreases |s|, 1
  {
    exists i :: 0 <= i < |s| && LastNameAt(s, i)
  }

  predicate LastNameAt(s: string, i: nat)
    decreases |s|, 0
  {
    i + 2 < |s| && s[i] == ':' && s[i + 1] == ':' && IsIdent(s[i + 2..]) && (i == 0 || IsNames(s[..i]))
  }

  predicate NodeSplit(s: string, k: nat) {
    k <= |s| && IsModulePath(s[..k]) && IsNames(s[k..])
  }

  predicate SafeNode(s: string) {
    |s| <= 1000 && exists k :: 0 <= k <= |s| && NodeSplit(s, k)
  }

  lemma NamesGrow(s: string, ident: string)
    requires IsNames(s) && IsIdent(ident)
    ensures IsNames(s + ("::" + ident))
  {
    var t := s + ("::" + ident);
    assert t[|s| + 2..] == ident && t[..|s|] == s;
    assert LastNameAt(t, |s|);
  }

  lemma NodeJoins(path: string, names: string)
    requires IsModulePath(path) && IsNames(names) && |path| + |names| <= 1000
    ensures SafeNode(path + names)
  {
    var s := path + names;
    assert s[..|path|] == path && s[|path|..] == names;
    assert NodeSplit(s, |path|);
  }

  lemma NodeSplits(s: string) returns (path: string, names: string)
    requires SafeNode(s)
    ensures s == path + names && IsModulePath(path) && IsNames(names)
  {
    var k :| 0 <= k <= |s| && NodeSplit(s, k);
    path, names := s[..k], s[k..];
  }

  lemma Regroup(path: string, names: string, more: string)
    ensures path + names + more == path + (names + more)
  {}

  // A safe test name followed by one more identifier is safe, but for its length.
  lemma SafeNodeGrows(s: string, ident: string)
    requires SafeNode(s) && IsIdent(ident) && |s| + 2 + |ident| <= 1000
    ensures SafeNode(s + ("::" + ident))
  {
    var path, names := NodeSplits(s);
    NamesGrow(names, ident);
    NodeJoins(path, names + ("::" + ident));
    Regroup(path, names, "::" + ident);
  }

  // A module path without dots but in its suffix, then names.
  predicate RelativeAt(s: string, k: nat) {
    && 3 < k < |s| - 1 && s[k - 3..k] == ".py" && s[k..k + 2] == "::"
    && forall i :: 0 <= i < k - 3 ==> s[i] !in {'.', ':', '\\', ' '}
  }

  lemma ModuleCharsArePlain(path: string, i: nat)
    requires IsModulePath(path) && i < |path| - 3
    ensures path[i] !in {'.', ':', '\\', ' '}
  {
    var n := |path| - 3;
    var c, d := path[i], path[i + 1];
    assert StemChar(c) || c == '/';
  }

  // A safe test name is a module path without traversal that does not start at the root, and names.
  lemma SafeNodeIsRelative(s: string)
    requires SafeNode(s)
    ensures |s| <= 1000 && s != "" && s[0] != '/'
    ensures exists k :: 0 <= k < |s| && RelativeAt(s, k)
  {
    var k :| 0 <= k <= |s| && NodeSplit(s, k);
    var path := s[..k];
    NamesBegin(s[k..]);
    assert path[k - 3..] == s[k - 3..k] && s[k..][..2] == s[k..k + 2];
    forall i | 0 <= i < k - 3 ensures s[i] !in {'.', ':', '\\', ' '} {
      assert path[i] == s[i];
      ModuleCharsArePlain(path, i);
    }
    assert RelativeAt(s, k) && path[0] == s[0];
  }

  lemma {:induction false} NamesBegin(names: string)
    requires IsNames(names)
    ensures |names| > 2 && names[..2] == "::"
    decreases |names|
  {
    var i :| 0 <= i < |names| && LastNameAt(names, i);
    if i > 0 {
      NamesBegin(names[..i]);
      assert names[..2] == names[..i][..2];
    }
  }

  predicate SafeToken(s: string) {
    1 <= |s| <= 80 && forall i :: 0 <= i < |s| ==> NameChar(s[i])
  }

  // ---------------------------------------------------------------------------------------
  // Reviews
  // ---------------------------------------------------------------------------------------

  function ReviewFor(policy: Policy, node: string, digest: ReasonDigest): Option<Review> {
    if ReviewKey(node, digest) in policy then Some(policy[ReviewKey(node, digest)]) else None
  }

  // What a collector records for a skip, and what a validator demands of it.
  function NoteFor(policy: Policy, node: string, digest: ReasonDigest): SkipNote {
    match ReviewFor(policy, node, digest)
    case None => SkipNote(false, REDACTED, digest, None)
    case Some(r) => SkipNote(true, r.reason, digest, Some(r.reviewId))
  }

  predicate ReviewedNotApplicable(policy: Policy, r: Row) {
    && r.outcome == Skipped && r.skip.Some?
    && ReviewFor(policy, r.nodeid, r.skip.value.digest).Some?
    && ReviewFor(policy, r.nodeid, r.skip.value.digest).value.notApplicable
  }

  // A row that does not block release evidence.
  predicate Clear(policy: Policy, r: Row) {
    r.outcome == Passed || ReviewedNotApplicable(policy, r)
  }

  // ---------------------------------------------------------------------------------------
  // What a valid artifact is
  // ---------------------------------------------------------------------------------------

  predicate RowOk(policy: Policy, nodes: seq<string>, subtest: bool, r: Row) {
    && (subtest <==> r.parent.Some?)
    && (r.outcome == Skipped <==> r.skip.Some?)
    && SafeNode(r.nodeid)
    && !r.when.OtherPhase?
    && (if subtest then r.parent.value in nodes else r.nodeid in nodes)
    && (r.skip.Some? ==>
          !r.skip.value.digest.Malformed? && r.skip.value == NoteFor(policy, r.nodeid, r.skip.value.digest))
  }

  function Tally(rows: seq<Row>, o: Outcome): (n: nat)
    ensures n <= |rows|
  {
    if rows == [] then 0
    else Tally(rows[..|rows| - 1], o) + if rows[|rows| - 1].outcome == o then 1 else 0
  }

  const OUTCOMES: set<Outcome> := {Passed, Skipped, Failed, Errors, XFailed, XPassed, Deselected}

  predicate CountsOk(counts: Counts) {
    counts.Keys == OUTCOMES && forall o :: o in counts ==> 0 <= counts[o] <= MAX_CASES
  }

  ghost predicate DistinctIds(rows: seq<Row>) {
    forall i, j :: 0 <= i < j < |rows| ==> rows[i].nodeid != rows[j].nodeid
  }

  predicate SafeProblem(p: Problem) {
    p.ForeignProblem? ==> SafeToken(p.text)
  }

  predicate HeaderOk(a: Artifact, binding: Binding) {
    && a.body.binding == binding
    && a.digest == DigestOf(a.body)
    && |a.body.collected| <= MAX_CASES && Sorted(a.body.collected)
    && (forall n :: n in a.body.collected ==> SafeNode(n))
    && CountsOk(a.body.counts)
    && |a.body.cases| + |a.body.subtests| <= MAX_CASES
  }

  function AllRows(b: Body): seq<Row> {
    b.cases + b.subtests
  }

  // Row i of the artifact; the subtests follow the cases.
  predicate RowAtOk(b: Body, policy: Policy, i: nat)
    requires i < |AllRows(b)|
  {
    RowOk(policy, b.collected, i >= |b.cases|, AllRows(b)[i])
  }

  // Every row is well formed and no name occurs twice.
  ghost predicate WellRowed(b: Body, policy: Policy) {
    && (forall i :: 0 <= i < |AllRows(b)| ==> RowAtOk(b, policy, i))
    && DistinctIds(AllRows(b))
  }

  ghost predicate NothingBlocks(b: Body, policy: Policy) {
    forall i :: 0 <= i < |AllRows(b)| ==> Clear(policy, AllRows(b)[i])
  }

  // Cases, collection and counts agree.
  ghost predicate Reconciled(b: Body) {
    && (forall o :: o in OUTCOMES ==> o in b.counts && b.counts[o] == Tally(b.cases, o))
    && (forall n :: n in b.collected ==> exists i :: 0 <= i < |b.cases| && b.cases[i].nodeid == n)
  }

  ghost predicate Qualifying(b: Body, policy: Policy) {
    && NothingBlocks(b, policy)
    && b.problems == {} && b.completed && b.exitCode == Some(0)
    && exists i :: 0 <= i < |b.cases| && b.cases[i].outcome == Passed
  }

  ghost predicate Acceptable(a: Artifact, binding: Binding, policy: Policy, requirePass: bool) {
    && HeaderOk(a, binding)
    && WellRowed(a.body, policy) && Reconciled(a.body)
    && (forall p :: p in a.body.problems ==> SafeProblem(p))
    && (requirePass ==> Qualifying(a.body, policy))
  }

  // ---------------------------------------------------------------------------------------
  // The validator
  // ---------------------------------------------------------------------------------------

  // What the row loop knows after its first i rows.
  ghost predicate CheckedTo(b: Body, policy: Policy, i: nat, seen: set<string>, actual: Counts, blocked: bool)
    requires i <= |AllRows(b)|
  {
    && (forall j :: 0 <= j < i ==> RowAtOk(b, policy, j))
    && DistinctIds(AllRows(b)[..i]) && seen == Ids(AllRows(b)[..i])
    && CountsTo(b, actual, i)
    && (!blocked <==> ClearTo(policy, AllRows(b), i))
  }

  // One row of the loop; raises is the ValueError of a malformed or repeated row.
  method CheckRow(b: Body, policy: Policy, i: nat, seen: set<string>, actual: Counts, blocked: bool)
    returns (raises: bool, seen': set<string>, actual': Counts, blocked': bool)
    requires i < |AllRows(b)| && CheckedTo(b, policy, i, seen, actual, blocked)
    ensures raises ==> !WellRowed(b, policy)
    ensures !raises ==> CheckedTo(b, policy, i + 1, seen', actual', blocked')
  {
    var row := AllRows(b)[i];
    seen', actual', blocked' := seen, actual, blocked;
    SeenStep(AllRows(b), i);
    if row.nodeid in seen || !RowAtOk(b, policy, i) { raises := true; return; }
    CountsStep(b, actual, i);
    raises := false;
    seen' := seen + {row.nodeid};
    if i < |b.cases| { actual' := Bump(actual, row.outcome); }
    blocked' := blocked || !Clear(policy, row);
  }

  // The row loop: None when it raises, else the recount of the cases and whether a row blocks.
  method CheckRows(b: Body, policy: Policy) returns (checked: Option<(Counts, bool)>)
    ensures checked.Some? <==> WellRowed(b, policy)
    ensures checked.Some? ==>
              && CountsTo(b, checked.value.0, |AllRows(b)|)
              && (!checked.value.1 <==> NothingBlocks(b, policy))
  {
    var rows := AllRows(b);
    var seen: set<string> := {};
    var actual: Counts := map o | o in OUTCOMES :: 0;
    var blocked := false;
    for i := 0 to |rows|
      invariant CheckedTo(b, policy, i, seen, actual, blocked)
    {
      var raises;
      raises, seen, actual, blocked := CheckRow(b, policy, i, seen, actual, blocked);
      if raises { return None; }
    }
    assert rows[..|rows|] == rows;
    return Some((actual, blocked));
  }

  predicate ClearTo(policy: Policy, rows: seq<Row>, i: nat)
    requires i <= |rows|
  {
    forall j :: 0 <= j < i ==> Clear(policy, rows[j])
  }

  function Ids(rows: seq<Row>): set<string> {
    set r | r in rows :: r.nodeid
  }

  // A repeated name is one that is already in the set of those seen.
  lemma SeenStep(rows: seq<Row>, i: nat)
    requires i < |rows| && DistinctIds(rows[..i])
    ensures rows[i].nodeid in Ids(rows[..i]) ==> !DistinctIds(rows)
    ensures rows[i].nodeid !in Ids(rows[..i]) ==> DistinctIds(rows[..i + 1])
    ensures Ids(rows[..i + 1]) == Ids(rows[..i]) + {rows[i].nodeid}
  {
    assert rows[..i + 1] == rows[..i] + [rows[i]];
    if rows[i].nodeid in Ids(rows[..i]) {
      var r :| r in rows[..i] && r.nodeid == rows[i].nodeid;
      var j :| 0 <= j < i && rows[..i][j] == r;
      assert rows[j].nodeid == rows[i].nodeid;
    } else {
      forall j | 0 <= j < i ensures rows[j].nodeid != rows[i].nodeid { assert rows[j] in rows[..i]; }
    }
  }

  // The cases among the first i rows.
  function Prefix(b: Body, i: nat): seq<Row> {
    if i <= |b.cases| then b.cases[..i] else b.cases
  }

  function Bump(actual: Counts, o: Outcome): Counts {
    if o in actual then actual[o := actual[o] + 1] else actual
  }

  predicate CountsTo(b: Body, actual: Counts, i: nat) {
    actual.Keys == OUTCOMES && forall o :: o in OUTCOMES ==> actual[o] == Tally(Prefix(b, i), o)
  }

  lemma EveryOutcome(o: Outcome)
    ensures o in OUTCOMES
  {
    match o
    case Passed =>
    case Skipped =>
    case Failed =>
    case Errors =>
    case XFailed =>
    case XPassed =>
    case Deselected =>
  }

  lemma CountsStep(b: Body, actual: Counts, i: nat)
    requires i < |AllRows(b)| && CountsTo(b, actual, i)
    ensures i < |b.cases| ==> CountsTo(b, Bump(actual, AllRows(b)[i].outcome), i + 1)
    ensures i >= |b.cases| ==> CountsTo(b, actual, i + 1)
  {
    if i < |b.cases| {
      assert Prefix(b, i + 1)[..i] == Prefix(b, i);
      EveryOutcome(AllRows(b)[i].outcome);
    } else {
      assert Prefix(b, i) == Prefix(b, i + 1);
    }
  }

  lemma {:induction false} TallyPositive(rows: seq<Row>, o: Outcome)
    ensures Tally(rows, o) > 0 <==> exists i :: 0 <= i < |rows| && rows[i].outcome == o
  {
    if rows == [] {
    } else {
      var n := |rows| - 1;
      TallyPositive(rows[..n], o);
      if i :| 0 <= i < |rows| && rows[i].outcome == o {
        if i < n { assert rows[..n][i].outcome == o; }
      }
      if Tally(rows, o) > 0 && rows[n].outcome != o {
        var i :| 0 <= i < n && rows[..n][i].outcome == o;
        assert rows[i].outcome == o;
      }
    }
  }

  method CheckHeader(a: Artifact, binding: Binding) returns (refusal: Option<Refusal>)
    ensures refusal.None? <==> HeaderOk(a, binding)
  {
    var b := a.body;
    if b.binding != binding { return Some(BindingDiffers); }
    if a.digest != DigestOf(b) { return Some(DigestDiffers); }
    if |b.collected| > MAX_CASES || !Sorted(b.collected) || exists n :: n in b.collected && !SafeNode(n) {
      return Some(BadIdentities);
    }
    if !CountsOk(b.counts) { return Some(BadCounts); }
    if |b.cases| + |b.subtests| > MAX_CASES { return Some(TooMany); }
    return None;
  }

  method Qualifies(b: Body, blocked: bool, ghost policy: Policy) returns (ok: bool)
    requires CountsOk(b.counts) && Reconciled(b) && (!blocked <==> NothingBlocks(b, policy))
    ensures ok <==> Qualifying(b, policy)
  {
    TallyPositive(b.cases, Passed);
    OnlyClearCount(b, policy);
    return !blocked && b.problems == {} && b.completed && b.exitCode == Some(0) && b.counts[Passed] != 0
      && forall o :: o in OUTCOMES && o != Passed && o != Skipped ==> b.counts[o] == 0;
  }

  // validate_outcomes accepts exactly the acceptable artifacts, and reports passed tests over
  // passed and skipped ones.
  method ValidateOutcomes(a: Artifact, binding: Binding, policy: Policy, requirePass: bool)
    returns (r: Result<(int, int), Refusal>)
    ensures r.Ok? <==> Acceptable(a, binding, policy, requirePass)
    ensures r.Ok? ==> r.value == (Tally(a.body.cases, Passed), Tally(a.body.cases, Passed) + Tally(a.body.cases, Skipped))
  {
    var refusal := CheckHeader(a, binding);
    if refusal.Some? { return Err(refusal.value); }
    var b := a.body;
    var checked := CheckRows(b, policy);
    if checked.None? { return Err(BadRow); }
    var (actual, blocked) := checked.value;
    assert Prefix(b, |AllRows(b)|) == b.cases;
    if actual != b.counts || exists n :: n in b.collected && forall i :: 0 <= i < |b.cases| ==> b.cases[i].nodeid != n {
      return Err(Unreconciled);
    }
    if exists p :: p in b.problems && !SafeProblem(p) { return Err(BadProblems); }
    if requirePass {
      var ok := Qualifies(b, blocked, policy);
      if !ok { return Err(NotQualifying); }
    }
    return Ok((b.counts[Passed], b.counts[Passed] + b.counts[Skipped]));
  }

  // Rows that do not block are all counted as passed or skipped.
  lemma OnlyClearCount(b: Body, policy: Policy)
    ensures NothingBlocks(b, policy) ==>
              forall o :: o in OUTCOMES && o != Passed && o != Skipped ==> Tally(b.cases, o) == 0
  {
    if NothingBlocks(b, policy) {
      forall o | o in OUTCOMES && o != Passed && o != Skipped ensures Tally(b.cases, o) == 0 {
        TallyPositive(b.cases, o);
        assert forall i :: 0 <= i < |b.cases| ==> b.cases[i] == AllRows(b)[i];
      }
    }
  }
}
