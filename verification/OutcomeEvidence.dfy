/** The collector against the validator: which event streams yield an artifact that is accepted, and
  * what an accepted artifact proves about the events it was folded from.
  */
module OutcomeEvidence {
  import opened Wrappers
  import opened Text
  import opened Outcomes
  import opened OutcomeCapture

  // ---------------------------------------------------------------------------------------
  // Agreement
  // ---------------------------------------------------------------------------------------

  // Every report names a collected test, every name is safe, no collected test is named like a
  // generated subtest, and the sizes hold.
  ghost predicate WellNamed(c: Captured) {
    && (forall n :: n in c.nodes ==> SafeNode(n))
    && c.rows.Keys <= c.nodes
    && (forall r :: r in c.subtests ==>
          r.parent.Some? && r.parent.value in c.nodes && |r.nodeid| <= 1000 && r.nodeid !in c.nodes)
    && |c.nodes| + |c.subtests| <= MAX_CASES
  }

  lemma SubNameIsSafe(parent: string, k: nat)
    requires SafeNode(parent) && |SubName(parent, k)| <= 1000
    ensures SafeNode(SubName(parent, k))
  {
    var ident := "subtest_" + Decimal(k);
    forall i | 0 <= i < |ident| ensures NameChar(ident[i]) {
      if i >= 8 { assert ident[i] == Decimal(k)[i - 8]; }
    }
    SafeNodeGrows(parent, ident);
  }

  predicate CaseIs(c: Captured, policy: Policy, r: Row, id: string) {
    && r.nodeid == id && r.parent.None? && ShapedRow(policy, r)
    && (if id in c.rows then r == c.rows[id] else r.outcome == Errors)
  }

  // The cases are the rows of the collected and the reported tests, each under its own name.
  ghost predicate CasesOf(c: Captured, policy: Policy, cases: seq<Row>, ids: seq<string>) {
    && Enumerates(ids, c.nodes + c.rows.Keys) && |cases| == |ids|
    && forall i :: 0 <= i < |cases| ==> CaseIs(c, policy, cases[i], ids[i])
  }

  lemma CompletedCases(c: Captured, policy: Policy, ids: seq<string>)
    requires Shaped(c, policy) && Enumerates(ids, Completed(c).rows.Keys)
    ensures CasesOf(c, policy, RowsOf(ids, Completed(c).rows), ids)
  {
    assert Completed(c).rows.Keys == c.nodes + c.rows.Keys;
    var cases := RowsOf(ids, Completed(c).rows);
    forall i | 0 <= i < |cases| ensures CaseIs(c, policy, cases[i], ids[i]) { assert ids[i] in ids; }
  }

  // The rows of an artifact whose cases and subtests come from a capture.
  ghost predicate Records(c: Captured, policy: Policy, b: Body, ids: seq<string>) {
    && CasesOf(c, policy, b.cases, ids) && b.subtests == c.subtests && Enumerates(b.collected, c.nodes)
  }

  lemma CaseNamed(c: Captured, policy: Policy, b: Body, ids: seq<string>, n: string) returns (i: nat)
    requires Records(c, policy, b, ids) && n in c.nodes + c.rows.Keys
    ensures i < |b.cases| && b.cases[i].nodeid == n && ids[i] == n
  {
    assert n in ids;
    i :| 0 <= i < |ids| && ids[i] == n;
    assert CaseIs(c, policy, b.cases[i], ids[i]);
  }

  lemma CaseRowOk(c: Captured, policy: Policy, b: Body, ids: seq<string>, i: nat)
    requires Records(c, policy, b, ids) && WellNamed(c) && i < |b.cases|
    ensures RowAtOk(b, policy, i) && b.cases[i].nodeid in c.nodes
  {
    assert CaseIs(c, policy, b.cases[i], ids[i]) && ids[i] in ids;
    assert ids[i] in c.nodes && ids[i] in b.collected;
    assert AllRows(b)[i] == b.cases[i];
  }

  lemma SubtestRowOk(c: Captured, policy: Policy, b: Body, ids: seq<string>, j: nat)
    requires Records(c, policy, b, ids) && WellNamed(c) && Shaped(c, policy) && j < |b.subtests|
    ensures RowAtOk(b, policy, |b.cases| + j) && b.subtests[j].nodeid !in c.nodes
  {
    var r := b.subtests[j];
    assert r in c.subtests && Numbered(c, r);
    var k: nat :| k < NextSub(c, r.parent.value) && r.nodeid == SubName(r.parent.value, k);
    SubNameIsSafe(r.parent.value, k);
    assert r.parent.value in b.collected;
    assert AllRows(b)[|b.cases| + j] == r;
  }

  lemma IdsApart(c: Captured, policy: Policy, b: Body, ids: seq<string>, i: nat, j: nat)
    requires Records(c, policy, b, ids) && i < j < |b.cases|
    ensures b.cases[i].nodeid != b.cases[j].nodeid
  {
    SortedApart(ids, i, j);
    assert CaseIs(c, policy, b.cases[i], ids[i]) && CaseIs(c, policy, b.cases[j], ids[j]);
  }

  lemma RowsApart(c: Captured, policy: Policy, b: Body, ids: seq<string>, i: nat, j: nat)
    requires Records(c, policy, b, ids) && WellNamed(c) && Shaped(c, policy) && i < j < |AllRows(b)|
    ensures AllRows(b)[i].nodeid != AllRows(b)[j].nodeid
  {
    var n := |b.cases|;
    if j < n {
      IdsApart(c, policy, b, ids, i, j);
    } else if i < n {
      CaseRowOk(c, policy, b, ids, i);
      SubtestRowOk(c, policy, b, ids, j - n);
    } else {
      assert b.subtests[i - n].nodeid != b.subtests[j - n].nodeid;
    }
  }

  lemma RowsAreWell(c: Captured, policy: Policy, b: Body, ids: seq<string>)
    requires Records(c, policy, b, ids) && WellNamed(c) && Shaped(c, policy)
    ensures WellRowed(b, policy)
  {
    var rows, n := AllRows(b), |b.cases|;
    forall i | 0 <= i < |rows| ensures RowAtOk(b, policy, i) {
      if i < n { CaseRowOk(c, policy, b, ids, i); } else { SubtestRowOk(c, policy, b, ids, i - n); }
    }
    forall i, j | 0 <= i < j < |rows| ensures rows[i].nodeid != rows[j].nodeid { RowsApart(c, policy, b, ids, i, j); }
  }

  lemma CaseWasNamed(c: Captured, policy: Policy, b: Body, ids: seq<string>, n: string)
    requires Records(c, policy, b, ids) && WellRowed(b, policy) && n in c.nodes + c.rows.Keys
    ensures n in c.nodes && SafeNode(n)
  {
    var i := CaseNamed(c, policy, b, ids, n);
    assert AllRows(b)[i] == b.cases[i] && RowAtOk(b, policy, i);
    assert CaseIs(c, policy, b.cases[i], ids[i]);
  }

  lemma SubtestWasNamed(c: Captured, policy: Policy, b: Body, ids: seq<string>, r: Row)
    requires Records(c, policy, b, ids) && WellRowed(b, policy) && r in c.subtests
    ensures r.parent.Some? && r.parent.value in c.nodes && |r.nodeid| <= 1000 && r.nodeid !in c.nodes
  {
    var j :| 0 <= j < |b.subtests| && b.subtests[j] == r;
    assert AllRows(b)[|b.cases| + j] == r && RowAtOk(b, policy, |b.cases| + j);
    assert r.parent.Some? && r.parent.value in b.collected;
    forall i | 0 <= i < |b.cases| ensures b.cases[i].nodeid != r.nodeid { assert AllRows(b)[i] == b.cases[i]; }
    if r.nodeid in c.nodes {
      var i := CaseNamed(c, policy, b, ids, r.nodeid);
    }
  }

  lemma NamedWhenAccepted(c: Captured, policy: Policy, b: Body, ids: seq<string>)
    requires Records(c, policy, b, ids) && WellRowed(b, policy) && |b.cases| + |b.subtests| <= MAX_CASES
    ensures WellNamed(c)
  {
    forall n | n in c.nodes + c.rows.Keys ensures n in c.nodes && SafeNode(n) { CaseWasNamed(c, policy, b, ids, n); }
    forall r | r in c.subtests
      ensures r.parent.Some? && r.parent.value in c.nodes && |r.nodeid| <= 1000 && r.nodeid !in c.nodes
    {
      SubtestWasNamed(c, policy, b, ids, r);
    }
    assert c.nodes + c.rows.Keys == c.nodes;
    EnumerationSize(ids, c.nodes);
  }

  lemma FinishedRecords(c: Captured, policy: Policy, binding: Binding, code: Option<int>, completed: bool, a: Artifact)
    returns (ids: seq<string>)
    requires Shaped(c, policy) && Finished(c, binding, code, completed, a)
    ensures Records(c, policy, a.body, ids)
  {
    var collected;
    collected, ids :|
      && Enumerates(collected, c.nodes) && Enumerates(ids, Completed(c).rows.Keys)
      && a == Assemble(c, binding, code, completed, collected, ids);
    CompletedCases(c, policy, ids);
  }

  // The sizes, the counts and the reconciliation of an assembled artifact.
  lemma FinishedHeader(c: Captured, policy: Policy, binding: Binding, code: Option<int>, completed: bool, a: Artifact,
                       ids: seq<string>)
    requires WellNamed(c) && Finished(c, binding, code, completed, a) && Records(c, policy, a.body, ids)
    ensures HeaderOk(a, binding)
  {
    RecordSizes(c, policy, a.body, ids);
    assert a.body.binding == binding && a.digest == DigestOf(a.body);
    assert CountsOk(a.body.counts);
  }

  lemma RecordSizes(c: Captured, policy: Policy, b: Body, ids: seq<string>)
    requires WellNamed(c) && Records(c, policy, b, ids)
    ensures |b.collected| <= MAX_CASES && |b.cases| + |b.subtests| <= MAX_CASES && Sorted(b.collected)
    ensures forall n :: n in b.collected ==> SafeNode(n)
  {
    assert c.nodes + c.rows.Keys == c.nodes;
    EnumerationSize(ids, c.nodes);
    EnumerationSize(b.collected, c.nodes);
  }

  lemma FinishedReconciles(c: Captured, policy: Policy, binding: Binding, code: Option<int>, completed: bool, a: Artifact,
                           ids: seq<string>)
    requires Finished(c, binding, code, completed, a) && Records(c, policy, a.body, ids)
    ensures Reconciled(a.body)
  {
    forall n | n in a.body.collected ensures exists i :: 0 <= i < |a.body.cases| && a.body.cases[i].nodeid == n {
      var i := CaseNamed(c, policy, a.body, ids, n);
    }
  }

  lemma NamedIsAccepted(c: Captured, policy: Policy, binding: Binding, code: Option<int>, completed: bool, a: Artifact)
    requires Shaped(c, policy) && Finished(c, binding, code, completed, a) && WellNamed(c)
    ensures Acceptable(a, binding, policy, false)
  {
    var ids := FinishedRecords(c, policy, binding, code, completed, a);
    RowsAreWell(c, policy, a.body, ids);
    FinishedHeader(c, policy, binding, code, completed, a, ids);
    FinishedReconciles(c, policy, binding, code, completed, a, ids);
    assert a.body.problems == Completed(c).problems;
  }

  lemma AcceptedIsNamed(c: Captured, policy: Policy, binding: Binding, code: Option<int>, completed: bool, a: Artifact)
    requires Shaped(c, policy) && Finished(c, binding, code, completed, a) && Acceptable(a, binding, policy, false)
    ensures WellNamed(c)
  {
    var ids := FinishedRecords(c, policy, binding, code, completed, a);
    NamedWhenAccepted(c, policy, a.body, ids);
  }

  // What finish() writes is accepted, apart from the release conditions, exactly when the capture
  // is well named.
  lemma FinishAcceptedIff(policy: Policy, events: seq<Event>, binding: Binding, code: Option<int>, completed: bool, a: Artifact)
    requires Finished(OnAll(policy, events), binding, code, completed, a)
    ensures Acceptable(a, binding, policy, false) <==> WellNamed(OnAll(policy, events))
  {
    var c := OnAll(policy, events);
    EveryCaptureIsShaped(policy, events);
    if WellNamed(c) {
      NamedIsAccepted(c, policy, binding, code, completed, a);
    } else if Acceptable(a, binding, policy, false) {
      AcceptedIsNamed(c, policy, binding, code, completed, a);
      assert false;
    }
  }

  // ---------------------------------------------------------------------------------------
  // Soundness
  // ---------------------------------------------------------------------------------------

  predicate SubtestOf(e: Event, n: string) {
    (e.SubtestReport? || e.UnitSubtest?) && e.parent == Some(n)
  }

  // Event i reports outcome o for test n; the end of a unittest does so after a subtest of it.
  ghost predicate ReportsAs(events: seq<Event>, i: nat, n: string, o: Outcome)
    requires i < |events|
  {
    match events[i]
    case TestReport(node, report) => node == Some(n) && TerminalOutcome(report) == Some(o)
    case UnitResult(node, reported, _, _) => node == Some(n) && reported == o
    case Deselect(node, _) => node == Some(n) && o == Deselected
    case UnitStop(node) => node == Some(n) && (o == Passed || o == Failed) && Subtested(events[..i], n)
    case _ => false
  }

  ghost predicate Subtested(events: seq<Event>, n: string) {
    exists j :: 0 <= j < |events| && SubtestOf(events[j], n)
  }

  ghost predicate Backed(events: seq<Event>, n: string, o: Outcome) {
    exists i :: 0 <= i < |events| && ReportsAs(events, i, n, o)
  }

  predicate Collects(e: Event, n: string) {
    e == Collect(Some(n)) || e == Deselect(Some(n), false)
  }

  ghost predicate Collected(events: seq<Event>, n: string) {
    exists i :: 0 <= i < |events| && Collects(events[i], n)
  }

  // Every record of the capture goes back to an event.
  ghost predicate Grounded(events: seq<Event>, c: Captured) {
    && (forall n :: n in c.nodes <==> Collected(events, n))
    && (forall n :: n in c.rows ==> Backed(events, n, c.rows[n].outcome))
    && (forall r :: r in c.subtests ==> r.parent.Some? && Subtested(events, r.parent.value))
  }

  lemma CollectedGrows(pre: seq<Event>, e: Event, n: string)
    ensures Collected(pre + [e], n) <==> Collected(pre, n) || Collects(e, n)
  {
    var events := pre + [e];
    if i :| 0 <= i < |pre| && Collects(pre[i], n) { assert events[i] == pre[i]; }
    if Collects(e, n) { assert events[|pre|] == e; }
    if i :| 0 <= i < |events| && Collects(events[i], n) {
      if i < |pre| { assert pre[i] == events[i]; }
    }
  }

  lemma BackedGrows(pre: seq<Event>, e: Event, n: string, o: Outcome)
    ensures Backed(pre, n, o) || ReportsAs(pre + [e], |pre|, n, o) ==> Backed(pre + [e], n, o)
    ensures Subtested(pre, n) || SubtestOf(e, n) ==> Subtested(pre + [e], n)
  {
    var events := pre + [e];
    if i :| 0 <= i < |pre| && ReportsAs(pre, i, n, o) {
      assert events[..i] == pre[..i];
      assert ReportsAs(events, i, n, o);
    }
    if j :| 0 <= j < |pre| && SubtestOf(pre[j], n) { assert events[j] == pre[j]; }
    if SubtestOf(e, n) { assert events[|pre|] == e; }
  }

  lemma StoppedIsBacked(pre: seq<Event>, c: Captured, policy: Policy, e: Event, n: string)
    requires Grounded(pre, c) && e.UnitStop? && n !in c.rows && n in On(c, policy, e).rows
    ensures ReportsAs(pre + [e], |pre|, n, On(c, policy, e).rows[n].outcome)
  {
    assert (pre + [e])[..|pre|] == pre;
    var r :| r in c.subtests && r.parent == Some(n);
    assert Subtested(pre, n);
  }

  // A row of the capture after the event is an old one or reports what the event reports.
  lemma RowIsBacked(pre: seq<Event>, c: Captured, policy: Policy, e: Event, n: string)
    requires Grounded(pre, c) && n in On(c, policy, e).rows
    ensures Backed(pre + [e], n, On(c, policy, e).rows[n].outcome)
  {
    var o := On(c, policy, e).rows[n].outcome;
    BackedGrows(pre, e, n, o);
    if !(n in c.rows && c.rows[n].outcome == o) {
      assert (pre + [e])[..|pre|] == pre;
      if e.UnitStop? {
        StoppedIsBacked(pre, c, policy, e, n);
      } else {
        assert ReportsAs(pre + [e], |pre|, n, o);
      }
    }
  }

  lemma SubtestIsBacked(pre: seq<Event>, c: Captured, policy: Policy, e: Event, r: Row)
    requires Grounded(pre, c) && r in On(c, policy, e).subtests
    ensures r.parent.Some? && Subtested(pre + [e], r.parent.value)
  {
    if r in c.subtests {
      BackedGrows(pre, e, r.parent.value, Passed);
    } else {
      assert (e.SubtestReport? || e.UnitSubtest?) && e.parent.Some? && r.parent == e.parent;
      BackedGrows(pre, e, e.parent.value, Passed);
    }
  }

  lemma OnKeepsGrounded(pre: seq<Event>, c: Captured, policy: Policy, e: Event)
    requires Grounded(pre, c)
    ensures Grounded(pre + [e], On(c, policy, e))
  {
    var d := On(c, policy, e);
    forall n ensures n in d.nodes <==> Collected(pre + [e], n) {
      CollectedGrows(pre, e, n);
      assert n in d.nodes <==> n in c.nodes || Collects(e, n);
    }
    forall n | n in d.rows ensures Backed(pre + [e], n, d.rows[n].outcome) { RowIsBacked(pre, c, policy, e, n); }
    forall r | r in d.subtests ensures r.parent.Some? && Subtested(pre + [e], r.parent.value) {
      SubtestIsBacked(pre, c, policy, e, r);
    }
  }

  lemma {:induction false} EveryCaptureIsGrounded(policy: Policy, events: seq<Event>)
    ensures Grounded(events, OnAll(policy, events))
  {
    if events == [] {
      assert forall n :: !Collected([], n);
    } else {
      var n := |events| - 1;
      EveryCaptureIsGrounded(policy, events[..n]);
      assert events == events[..n] + [events[n]];
      OnKeepsGrounded(events[..n], OnAll(policy, events[..n]), policy, events[n]);
    }
  }

  // A failed, errors or xpassed report.
  predicate BadReport(e: Event) {
    match e
    case TestReport(_, report) => TerminalOutcome(report).Some? && Bad(TerminalOutcome(report).value)
    case SubtestReport(_, report) => Bad(SubtestOutcome(report))
    case UnitResult(_, o, _, _) => Bad(o)
    case UnitSubtest(_, o, _) => Bad(o)
    case _ => false
  }

  // A report of a test that has no name.
  predicate Unmapped(e: Event) {
    match e
    case TestReport(node, report) => node.None? && TerminalOutcome(report).Some?
    case SubtestReport(parent, _) => parent.None?
    case UnitResult(node, _, _, _) => node.None?
    case UnitSubtest(parent, _, _) => parent.None?
    case _ => false
  }

  predicate Taints(e: Event) {
    BadReport(e) || Unmapped(e) || e.Note? || e.Deselect?
  }

  ghost predicate Tainted(c: Captured) {
    || c.problems != {}
    || (exists n :: n in c.rows && Bad(c.rows[n].outcome))
    || (exists r :: r in c.subtests && Bad(r.outcome))
  }

  lemma BadRowStays(c: Captured, policy: Policy, e: Event, n: string)
    requires n in c.rows && Bad(c.rows[n].outcome)
    ensures n in On(c, policy, e).rows && Bad(On(c, policy, e).rows[n].outcome)
  {}

  lemma SubtestStays(c: Captured, policy: Policy, e: Event, r: Row)
    requires r in c.subtests
    ensures r in On(c, policy, e).subtests
  {}

  lemma TaintStays(c: Captured, policy: Policy, e: Event)
    requires Tainted(c)
    ensures Tainted(On(c, policy, e))
  {
    if p :| p in c.problems {
      assert p in On(c, policy, e).problems;
    } else if n :| n in c.rows && Bad(c.rows[n].outcome) {
      BadRowStays(c, policy, e, n);
    } else {
      var r :| r in c.subtests && Bad(r.outcome);
      SubtestStays(c, policy, e, r);
    }
  }

  lemma TaintMade(c: Captured, policy: Policy, e: Event)
    requires Taints(e)
    ensures Tainted(On(c, policy, e))
  {
    var d := On(c, policy, e);
    match e {
      case Note(problem) => assert problem in d.problems;
      case Deselect(_, _) => assert DeselectedTests in d.problems;
      case TestReport(node, _) =>
        if node.None? { assert UnmappedTestResult in d.problems; } else { assert Bad(d.rows[node.value].outcome); }
      case UnitResult(node, _, _, _) =>
        if node.None? { assert UnmappedTestResult in d.problems; } else { assert Bad(d.rows[node.value].outcome); }
      case SubtestReport(parent, _) =>
        if parent.None? { assert UnmappedSubtest in d.problems; } else { assert d.subtests[|d.subtests| - 1] in d.subtests; }
      case UnitSubtest(parent, _, _) =>
        if parent.None? { assert UnmappedSubtest in d.problems; } else { assert d.subtests[|d.subtests| - 1] in d.subtests; }
      case _ =>
    }
  }

  lemma {:induction false} TaintIsSeen(policy: Policy, events: seq<Event>, i: nat)
    requires i < |events| && Taints(events[i])
    ensures Tainted(OnAll(policy, events))
    decreases |events|
  {
    var n := |events| - 1;
    if i == n {
      TaintMade(OnAll(policy, events[..n]), policy, events[n]);
    } else {
      TaintIsSeen(policy, events[..n], i);
      TaintStays(OnAll(policy, events[..n]), policy, events[n]);
    }
  }

  lemma {:induction false} TwiceIsSeen(policy: Policy, events: seq<Event>, i: nat, j: nat, n: string)
    requires i < j < |events| && Collects(events[i], n) && Collects(events[j], n)
    ensures Tainted(OnAll(policy, events))
    decreases |events|
  {
    var last := |events| - 1;
    var before := OnAll(policy, events[..last]);
    if j == last {
      EveryCaptureIsGrounded(policy, events[..last]);
      assert Collects(events[..last][i], n);
      assert Collected(events[..last], n);
      assert DuplicateTestIdentity in On(before, policy, events[last]).problems;
    } else {
      TwiceIsSeen(policy, events[..last], i, j, n);
      TaintStays(before, policy, events[last]);
    }
  }

  // The records behind an artifact that qualifies are untainted, complete and clear.
  lemma QualifyingIsUntainted(c: Captured, policy: Policy, b: Body, ids: seq<string>)
    requires Records(c, policy, b, ids) && NothingBlocks(b, policy) && b.problems == {} == Completed(c).problems
    ensures !Tainted(c) && c.nodes <= c.rows.Keys
  {
    assert c.nodes - c.rows.Keys == {};
    forall n | n in c.rows ensures !Bad(c.rows[n].outcome) {
      var i := CaseNamed(c, policy, b, ids, n);
      assert CaseIs(c, policy, b.cases[i], ids[i]) && AllRows(b)[i] == b.cases[i];
    }
    forall r | r in c.subtests ensures !Bad(r.outcome) {
      var j :| 0 <= j < |b.subtests| && b.subtests[j] == r;
      assert AllRows(b)[|b.cases| + j] == r;
    }
  }

  // A collected test has a case that does not block and that some report gave it.
  ghost predicate Vouched(events: seq<Event>, policy: Policy, b: Body, n: string) {
    exists i :: 0 <= i < |b.cases| && VouchedBy(events, policy, b.cases[i], n)
  }

  ghost predicate VouchedBy(events: seq<Event>, policy: Policy, r: Row, n: string) {
    r.nodeid == n && Clear(policy, r) && Backed(events, n, r.outcome)
  }

  lemma CollectedIsVouched(policy: Policy, events: seq<Event>, c: Captured, b: Body, ids: seq<string>, n: string)
    requires Records(c, policy, b, ids) && NothingBlocks(b, policy) && Grounded(events, c)
    requires c.nodes <= c.rows.Keys && Collected(events, n)
    ensures Vouched(events, policy, b, n)
  {
    assert n in c.nodes;
    var i := CaseNamed(c, policy, b, ids, n);
    assert CaseIs(c, policy, b.cases[i], ids[i]) && AllRows(b)[i] == b.cases[i];
    assert VouchedBy(events, policy, b.cases[i], n);
  }

  // An artifact accepted as release evidence vouches for every event it was folded from.
  lemma AcceptedStreamIsClean(policy: Policy, events: seq<Event>, binding: Binding, code: Option<int>, completed: bool,
                              a: Artifact)
    requires Finished(OnAll(policy, events), binding, code, completed, a)
    requires Acceptable(a, binding, policy, true)
    ensures completed && code == Some(0)
    ensures forall i :: 0 <= i < |events| ==> !Taints(events[i])
    ensures forall n, i, j :: 0 <= i < j < |events| && Collects(events[i], n) ==> !Collects(events[j], n)
    ensures forall n :: Collected(events, n) ==> Vouched(events, policy, a.body, n)
    ensures exists n :: Collected(events, n) && Backed(events, n, Passed)
  {
    var c := OnAll(policy, events);
    EveryCaptureIsShaped(policy, events);
    EveryCaptureIsGrounded(policy, events);
    var ids := FinishedRecords(c, policy, binding, code, completed, a);
    QualifyingIsUntainted(c, policy, a.body, ids);
    forall i | 0 <= i < |events| ensures !Taints(events[i]) {
      if Taints(events[i]) { TaintIsSeen(policy, events, i); }
    }
    forall n, i, j | 0 <= i < j < |events| && Collects(events[i], n) ensures !Collects(events[j], n) {
      if Collects(events[j], n) { TwiceIsSeen(policy, events, i, j, n); }
    }
    forall n | Collected(events, n) ensures Vouched(events, policy, a.body, n) {
      CollectedIsVouched(policy, events, c, a.body, ids, n);
    }
    SomePassed(policy, events, c, a.body, ids);
  }

  lemma SomePassed(policy: Policy, events: seq<Event>, c: Captured, b: Body, ids: seq<string>)
    requires Records(c, policy, b, ids) && Grounded(events, c) && c.nodes <= c.rows.Keys
    requires WellRowed(b, policy) && exists i :: 0 <= i < |b.cases| && b.cases[i].outcome == Passed
    ensures exists n :: Collected(events, n) && Backed(events, n, Passed)
  {
    var i :| 0 <= i < |b.cases| && b.cases[i].outcome == Passed;
    var n := ids[i];
    assert CaseIs(c, policy, b.cases[i], n) && n in ids;
    CaseWasNamed(c, policy, b, ids, n);
    assert Collected(events, n) && Backed(events, n, Passed);
  }

  // ---------------------------------------------------------------------------------------
  // Agreement, in terms of the events
  // ---------------------------------------------------------------------------------------

  // The event puts test n on record, or a subtest of it.
  predicate Reports(e: Event, n: string) {
    match e
    case TestReport(node, report) => node == Some(n) && TerminalOutcome(report).Some?
    case UnitResult(node, _, _, _) => node == Some(n)
    case Deselect(node, _) => node == Some(n)
    case _ => SubtestOf(e, n)
  }

  function CollectedNames(events: seq<Event>): set<string> {
    if events == [] then {}
    else
      var e := events[|events| - 1];
      CollectedNames(events[..|events| - 1]) +
      if (e.Collect? || (e.Deselect? && !e.mapped)) && e.node.Some? then {e.node.value} else {}
  }

  // The subtest reports of one parent.
  function SubtestsOf(events: seq<Event>, parent: string): nat {
    if events == [] then 0
    else SubtestsOf(events[..|events| - 1], parent) + if SubtestOf(events[|events| - 1], parent) then 1 else 0
  }

  // The subtest reports that name their parent.
  function NamedSubtests(events: seq<Event>): nat {
    if events == [] then 0
    else
      var e := events[|events| - 1];
      NamedSubtests(events[..|events| - 1]) + if (e.SubtestReport? || e.UnitSubtest?) && e.parent.Some? then 1 else 0
  }

  // Every report names a collected test, every collected name is safe, the names generated for the
  // subtests are short enough and no collected test has one of them, and the sizes hold.
  ghost predicate NamedStream(events: seq<Event>) {
    && (forall i, n :: 0 <= i < |events| && Reports(events[i], n) ==> n in CollectedNames(events))
    && (forall n :: n in CollectedNames(events) ==> SafeNode(n))
    && (forall p, k: nat :: k < SubtestsOf(events, p) ==>
          |SubName(p, k)| <= 1000 && SubName(p, k) !in CollectedNames(events))
    && |CollectedNames(events)| + NamedSubtests(events) <= MAX_CASES
  }

  // The record of the k-th subtest of p.
  ghost predicate SubtestAt(c: Captured, p: string, k: nat) {
    exists r :: r in c.subtests && r.parent == Some(p) && r.nodeid == SubName(p, k)
  }

  // What a capture says, read off its events.
  ghost predicate Counted(events: seq<Event>, c: Captured) {
    && c.nodes == CollectedNames(events)
    && |c.subtests| == NamedSubtests(events)
    && (forall p :: NextSub(c, p) == SubtestsOf(events, p))
    && (forall p, k: nat :: k < NextSub(c, p) ==> SubtestAt(c, p, k))
  }

  lemma SubtestKeepsCounted(pre: seq<Event>, c: Captured, policy: Policy, e: Event, parent: Option<string>,
                            o: Outcome, when: When, reason: string)
    requires Counted(pre, c) && (e.SubtestReport? || e.UnitSubtest?) && e.parent == parent
    requires On(c, policy, e) == PutSub(c, policy, parent, o, when, reason)
    ensures Counted(pre + [e], On(c, policy, e))
  {
    var events, d := pre + [e], On(c, policy, e);
    assert events[..|events| - 1] == pre;
    forall p ensures NextSub(d, p) == SubtestsOf(events, p) {}
    forall p, k: nat | k < NextSub(d, p) ensures SubtestAt(d, p, k) {
      if k < NextSub(c, p) {
        assert SubtestAt(c, p, k);
        var r :| r in c.subtests && r.parent == Some(p) && r.nodeid == SubName(p, k);
        assert r in d.subtests;
      } else {
        var row := d.subtests[|d.subtests| - 1];
        assert row in d.subtests && row.parent == Some(p) && row.nodeid == SubName(p, k);
      }
    }
  }

  lemma SameSubtests(c: Captured, policy: Policy, e: Event)
    requires !e.SubtestReport? && !e.UnitSubtest?
    ensures On(c, policy, e).subtests == c.subtests && On(c, policy, e).subindices == c.subindices
  {}

  lemma OnKeepsCounted(pre: seq<Event>, c: Captured, policy: Policy, e: Event)
    requires Counted(pre, c)
    ensures Counted(pre + [e], On(c, policy, e))
  {
    var events, d := pre + [e], On(c, policy, e);
    assert events[..|events| - 1] == pre;
    match e
    case SubtestReport(parent, r) =>
      SubtestKeepsCounted(pre, c, policy, e, parent, SubtestOutcome(r), r.when, r.reason);
    case UnitSubtest(parent, o, reason) => SubtestKeepsCounted(pre, c, policy, e, parent, o, Call, reason);
    case _ =>
      SameSubtests(c, policy, e);
      forall p ensures NextSub(d, p) == SubtestsOf(events, p) {}
      forall p, k: nat | k < NextSub(d, p) ensures SubtestAt(d, p, k) { assert SubtestAt(c, p, k); }
  }

  lemma {:induction false} EveryCaptureIsCounted(policy: Policy, events: seq<Event>)
    ensures Counted(events, OnAll(policy, events))
  {
    if events == [] {
    } else {
      var n := |events| - 1;
      EveryCaptureIsCounted(policy, events[..n]);
      assert events == events[..n] + [events[n]];
      OnKeepsCounted(events[..n], OnAll(policy, events[..n]), policy, events[n]);
    }
  }

  // A reported test keeps its row, or its subtest.
  ghost predicate OnRecord(c: Captured, n: string) {
    n in c.rows || exists r :: r in c.subtests && r.parent == Some(n)
  }

  lemma ReportRecords(c: Captured, policy: Policy, e: Event, n: string)
    requires Reports(e, n) || OnRecord(c, n)
    ensures OnRecord(On(c, policy, e), n)
  {
    var d := On(c, policy, e);
    if r :| r in c.subtests && r.parent == Some(n) {
      SubtestStays(c, policy, e, r);
    } else if Reports(e, n) && (e.SubtestReport? || e.UnitSubtest?) {
      assert d.subtests[|d.subtests| - 1] in d.subtests && d.subtests[|d.subtests| - 1].parent == Some(n);
    } else {
      assert n in d.rows;
    }
  }

  lemma {:induction false} ReportIsRecorded(policy: Policy, events: seq<Event>, i: nat, n: string)
    requires i < |events| && Reports(events[i], n)
    ensures OnRecord(OnAll(policy, events), n)
    decreases |events|
  {
    var last := |events| - 1;
    if i < last { ReportIsRecorded(policy, events[..last], i, n); }
    ReportRecords(OnAll(policy, events[..last]), policy, events[last], n);
  }

  lemma ReportedByBacking(events: seq<Event>, n: string, o: Outcome)
    requires Backed(events, n, o)
    ensures exists i :: 0 <= i < |events| && Reports(events[i], n)
  {
    var i :| 0 <= i < |events| && ReportsAs(events, i, n, o);
    if events[i].UnitStop? {
      var j :| 0 <= j < i && SubtestOf(events[..i][j], n);
      assert Reports(events[j], n);
    } else {
      assert Reports(events[i], n);
    }
  }

  lemma NamedStreamIsWell(policy: Policy, events: seq<Event>)
    requires NamedStream(events)
    ensures WellNamed(OnAll(policy, events))
  {
    var c := OnAll(policy, events);
    EveryCaptureIsShaped(policy, events);
    EveryCaptureIsGrounded(policy, events);
    EveryCaptureIsCounted(policy, events);
    forall n | n in c.rows ensures n in c.nodes { ReportedByBacking(events, n, c.rows[n].outcome); }
    forall r | r in c.subtests
      ensures r.parent.Some? && r.parent.value in c.nodes && |r.nodeid| <= 1000 && r.nodeid !in c.nodes
    {
      var j :| 0 <= j < |events| && SubtestOf(events[j], r.parent.value);
      assert Reports(events[j], r.parent.value);
      assert Numbered(c, r);
    }
  }

  lemma WellStreamIsNamed(policy: Policy, events: seq<Event>)
    requires WellNamed(OnAll(policy, events))
    ensures NamedStream(events)
  {
    var c := OnAll(policy, events);
    EveryCaptureIsCounted(policy, events);
    forall i, n | 0 <= i < |events| && Reports(events[i], n) ensures n in CollectedNames(events) {
      ReportIsRecorded(policy, events, i, n);
    }
    forall p, k: nat | k < SubtestsOf(events, p)
      ensures |SubName(p, k)| <= 1000 && SubName(p, k) !in CollectedNames(events)
    {
      assert SubtestAt(c, p, k);
    }
  }

  // What finish() writes passes the validator without release conditions exactly when the events
  // name what they report safely, uniquely and within the limits.
  lemma StreamAcceptedIff(policy: Policy, events: seq<Event>, binding: Binding, code: Option<int>, completed: bool, a: Artifact)
    requires Finished(OnAll(policy, events), binding, code, completed, a)
    ensures Acceptable(a, binding, policy, false) <==> NamedStream(events)
  {
    FinishAcceptedIff(policy, events, binding, code, completed, a);
    if NamedStream(events) { NamedStreamIsWell(policy, events); }
    if WellNamed(OnAll(policy, events)) { WellStreamIsNamed(policy, events); }
  }
}
