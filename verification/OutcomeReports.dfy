/** What the release evidence says about the reports themselves, on the fields that a test runner
  * fills in, and about the skips that a policy reviewed.
  */
module OutcomeReports {
  import opened Wrappers
  import opened Text
  import opened Outcomes
  import opened OutcomeCapture
  import opened OutcomeEvidence
  import opened OutcomeRelease

  // ---------------------------------------------------------------------------------------
  // Accepted streams
  // ---------------------------------------------------------------------------------------

  // No failure of any kind, and a name.
  predicate Unfailed(e: Event) {
    match e
    case Collect(_) => true
    case Note(_) => false
    case Deselect(_, _) => false
    case TestReport(node, r) =>
      && r.status != ReportFailed && (r.wasXFail ==> r.status == ReportSkipped)
      && (node.Some? || (r.status == ReportPassed && r.when != Call))
    case SubtestReport(parent, r) => r.status != ReportFailed && parent.Some?
    case UnitResult(node, o, _, _) => o != Failed && o != Errors && o != XPassed && node.Some?
    case UnitSubtest(parent, o, _) => o != Failed && o != Errors && o != XPassed && parent.Some?
    case UnitStop(_) => true
  }

  // Event i says in so many words that n passed: the call phase of a test that was not expected to
  // fail, a unittest success, or the end of a unittest after a subtest of it.
  ghost predicate SaysPassed(events: seq<Event>, i: nat, n: string) {
    i < |events| &&
    match events[i]
    case TestReport(node, r) => node == Some(n) && r.status == ReportPassed && r.when == Call && !r.wasXFail
    case UnitResult(node, o, _, _) => node == Some(n) && o == Passed
    case UnitStop(node) =>
      node == Some(n) && exists j :: 0 <= j < i && (events[j].SubtestReport? || events[j].UnitSubtest?) && events[j].parent == Some(n)
    case _ => false
  }

  ghost predicate SaidPassed(events: seq<Event>, n: string) {
    exists i :: SaysPassed(events, i, n)
  }

  lemma UntaintedIsUnfailed(e: Event)
    ensures Taints(e) <==> !Unfailed(e)
  {
    match e
    case TestReport(_, r) => ReportOutcomes(r);
    case SubtestReport(_, r) => ReportOutcomes(r);
    case _ =>
  }

  lemma BackedIsSaid(events: seq<Event>, n: string)
    requires Backed(events, n, Passed)
    ensures SaidPassed(events, n)
  {
    var i :| 0 <= i < |events| && ReportsAs(events, i, n, Passed);
    match events[i] {
      case TestReport(_, r) => ReportOutcomes(r);
      case UnitStop(_) =>
        var j :| 0 <= j < i && SubtestOf(events[..i][j], n);
        assert (events[j].SubtestReport? || events[j].UnitSubtest?) && events[j].parent == Some(n);
      case _ =>
    }
    assert SaysPassed(events, i, n);
  }

  // An artifact accepted as release evidence was folded from a stream in which no report failed, by
  // the reports' own fields; each case counted as passed was said to pass, and some case is.
  lemma AcceptedReportsPassed(policy: Policy, events: seq<Event>, binding: Binding, code: Option<int>, completed: bool,
                              a: Artifact)
    requires Finished(OnAll(policy, events), binding, code, completed, a) && Acceptable(a, binding, policy, true)
    ensures forall i :: 0 <= i < |events| ==> Unfailed(events[i])
    ensures forall k :: 0 <= k < |a.body.cases| && a.body.cases[k].outcome == Passed ==> SaidPassed(events, a.body.cases[k].nodeid)
    ensures exists k :: 0 <= k < |a.body.cases| && a.body.cases[k].outcome == Passed
  {
    var c := OnAll(policy, events);
    AcceptedStreamIsClean(policy, events, binding, code, completed, a);
    forall i | 0 <= i < |events| ensures Unfailed(events[i]) { UntaintedIsUnfailed(events[i]); }
    EveryCaptureIsShaped(policy, events);
    EveryCaptureIsGrounded(policy, events);
    var ids := FinishedRecords(c, policy, binding, code, completed, a);
    QualifyingIsUntainted(c, policy, a.body, ids);
    forall k | 0 <= k < |a.body.cases| && a.body.cases[k].outcome == Passed
      ensures SaidPassed(events, a.body.cases[k].nodeid)
    {
      assert CaseIs(c, policy, a.body.cases[k], ids[k]) && ids[k] in ids;
      BackedIsSaid(events, ids[k]);
    }
  }

  // ---------------------------------------------------------------------------------------
  // The worst report stands
  // ---------------------------------------------------------------------------------------

  // The event reports a failure, an error or an unexpected pass of n.
  predicate Fails(e: Event, n: string) {
    match e
    case TestReport(node, r) => node == Some(n) && (r.status == ReportFailed || (r.status == ReportPassed && r.wasXFail))
    case UnitResult(node, o, _, _) => node == Some(n) && (o == Failed || o == Errors || o == XPassed)
    case _ => false
  }

  // What it is recorded as: a failure outside the call phase is an error.
  predicate RecordedAs(e: Event, r: Row) {
    match e
    case TestReport(_, report) =>
      && r.when == report.when
      && (report.status == ReportFailed && report.when == Call ==> r.outcome == Failed)
      && (report.status == ReportFailed && report.when != Call ==> r.outcome == Errors)
      && (report.status == ReportPassed ==> r.outcome == XPassed)
    case UnitResult(_, o, when, _) => r.outcome == o && r.when == when
    case _ => true
  }

  lemma FailureIsRecorded(c: Captured, policy: Policy, e: Event, n: string)
    requires Fails(e, n)
    ensures n in On(c, policy, e).rows && RecordedAs(e, On(c, policy, e).rows[n])
  {
    if e.TestReport? { ReportOutcomes(e.report); }
  }

  lemma FailureStays(c: Captured, policy: Policy, e: Event, n: string)
    requires !Fails(e, n) && n in c.rows && Bad(c.rows[n].outcome)
    ensures n in On(c, policy, e).rows && On(c, policy, e).rows[n] == c.rows[n]
  {
    if e.TestReport? { ReportOutcomes(e.report); }
  }

  // After any stream, the row of a test that ever failed is the one of its last failure: no later
  // pass, skip or deselection hides it.
  lemma {:induction false} LastFailureStands(policy: Policy, events: seq<Event>, i: nat, n: string)
    requires i < |events| && Fails(events[i], n) && forall j :: i < j < |events| ==> !Fails(events[j], n)
    ensures n in OnAll(policy, events).rows && RecordedAs(events[i], OnAll(policy, events).rows[n])
    ensures Bad(OnAll(policy, events).rows[n].outcome)
    decreases |events|
  {
    var last := |events| - 1;
    var c := OnAll(policy, events[..last]);
    if i == last {
      FailureIsRecorded(c, policy, events[last], n);
    } else {
      assert forall j :: i < j < last ==> events[..last][j] == events[j];
      LastFailureStands(policy, events[..last], i, n);
      FailureStays(c, policy, events[last], n);
    }
  }

  // ---------------------------------------------------------------------------------------
  // Skips
  // ---------------------------------------------------------------------------------------

  // The note of a skip repeats the reviewed reason and its id, or says nothing of the reason.
  predicate HonestSkip(policy: Policy, r: Row) {
    r.outcome == Skipped ==>
      && r.skip.Some? && !r.skip.value.digest.Malformed?
      && var key := ReviewKey(r.nodeid, r.skip.value.digest);
      if key in policy
      then r.skip.value == SkipNote(true, policy[key].reason, r.skip.value.digest, Some(policy[key].reviewId))
      else r.skip.value == SkipNote(false, "Unreviewed skip reason.", r.skip.value.digest, None)
  }

  lemma SkipsAreHonest(policy: Policy, events: seq<Event>)
    ensures var c := OnAll(policy, events);
            && (forall n :: n in c.rows ==> HonestSkip(policy, c.rows[n]))
            && (forall r :: r in c.subtests ==> HonestSkip(policy, r))
  {
    EveryCaptureIsShaped(policy, events);
  }

  // The same is true of every artifact that the validator accepts, wherever it comes from; so two
  // accepted artifacts that agree on a row's test and digest agree on its note.
  lemma AcceptedRowsAreHonest(a: Artifact, binding: Binding, policy: Policy, requirePass: bool)
    requires Acceptable(a, binding, policy, requirePass)
    ensures forall r :: r in a.body.cases + a.body.subtests ==>
              && HonestSkip(policy, r)
              && (r.when == Setup || r.when == Call || r.when == Teardown || r.when == Collection)
    ensures forall r :: r in a.body.cases ==> r.parent == None && r.nodeid in a.body.collected
    ensures forall r :: r in a.body.subtests ==> r.parent.Some? && r.parent.value in a.body.collected
  {
    var b := a.body;
    forall i | 0 <= i < |AllRows(b)|
      ensures HonestSkip(policy, AllRows(b)[i]) && !AllRows(b)[i].when.OtherPhase?
      ensures if i < |b.cases| then AllRows(b)[i].parent == None && AllRows(b)[i].nodeid in b.collected
              else AllRows(b)[i].parent.Some? && AllRows(b)[i].parent.value in b.collected
    {
      assert RowAtOk(b, policy, i);
    }
    forall r | r in b.cases ensures r.parent == None && r.nodeid in b.collected {
      var i :| 0 <= i < |b.cases| && b.cases[i] == r;
      assert AllRows(b)[i] == r;
    }
    forall r | r in b.subtests ensures r.parent.Some? && r.parent.value in b.collected {
      var j :| 0 <= j < |b.subtests| && b.subtests[j] == r;
      assert AllRows(b)[|b.cases| + j] == r;
    }
  }

  // With the release conditions every row passed, or is a skip that was reviewed as not applicable.
  lemma AcceptedRowsAreClear(a: Artifact, binding: Binding, policy: Policy)
    requires Acceptable(a, binding, policy, true)
    ensures a.body.completed && a.body.exitCode == Some(0) && a.body.problems == {}
    ensures forall r :: r in a.body.cases + a.body.subtests ==>
              || r.outcome == Passed
              || (&& r.outcome == Skipped && r.skip.Some?
                  && var key := ReviewKey(r.nodeid, r.skip.value.digest);
                  key in policy && policy[key].notApplicable)
  {
    forall r | r in a.body.cases + a.body.subtests ensures Clear(policy, r) {
      var i :| 0 <= i < |AllRows(a.body)| && AllRows(a.body)[i] == r;
    }
  }
}
