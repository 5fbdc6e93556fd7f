/** Release evidence in terms of the events: exactly which streams yield an artifact that the
  * validator accepts with its release conditions.
  */
module OutcomeRelease {
  import opened Wrappers
  import opened Text
  import opened Outcomes
  import opened OutcomeCapture
  import opened OutcomeEvidence

  // ---------------------------------------------------------------------------------------
  // The condition on the events
  // ---------------------------------------------------------------------------------------

  datatype Verdict = Verdict(outcome: Outcome, when: When, reason: string)

  // What an event reports of test n itself.
  function Given(e: Event, n: string): Option<Verdict> {
    match e
    case TestReport(node, r) =>
      if node == Some(n) && TerminalOutcome(r).Some? then Some(Verdict(TerminalOutcome(r).value, r.when, r.reason)) else None
    case UnitResult(node, o, when, reason) => if node == Some(n) then Some(Verdict(o, when, reason)) else None
    case _ => None
  }

  predicate Trouble(e: Event, n: string) {
    Given(e, n).Some? && Given(e, n).value.outcome != Passed
  }

  // The earliest report of n that is not passed.
  ghost predicate FirstTrouble(events: seq<Event>, i: nat, n: string) {
    i < |events| && Trouble(events[i], n) && forall j :: 0 <= j < i ==> !Trouble(events[j], n)
  }

  ghost predicate Untroubled(events: seq<Event>, n: string) {
    forall i :: 0 <= i < |events| ==> !Trouble(events[i], n)
  }

  // A skip of name, for this reason, was reviewed as not applicable.
  predicate Excused(policy: Policy, name: string, o: Outcome, reason: string) {
    && o == Skipped
    && ReviewKey(name, ReasonDigest(reason)) in policy && policy[ReviewKey(name, ReasonDigest(reason))].notApplicable
  }

  ghost predicate AnswersAt(events: seq<Event>, i: nat, n: string) {
    i < |events| && (Given(events[i], n).Some? || (events[i] == UnitStop(Some(n)) && Subtested(events[..i], n)))
  }

  // Some report, or the end of a unittest after a subtest, settles n.
  ghost predicate Answered(events: seq<Event>, n: string) {
    exists i: nat :: AnswersAt(events, i, n)
  }

  ghost predicate Forgiven(policy: Policy, events: seq<Event>, n: string) {
    forall i: nat :: FirstTrouble(events, i, n) ==>
      Excused(policy, n, Given(events[i], n).value.outcome, Given(events[i], n).value.reason)
  }

  // What an event reports of a subtest, for its parent.
  function SubGiven(e: Event): Option<(string, Verdict)> {
    match e
    case SubtestReport(parent, r) =>
      if parent.Some? then Some((parent.value, Verdict(SubtestOutcome(r), r.when, r.reason))) else None
    case UnitSubtest(parent, o, reason) => if parent.Some? then Some((parent.value, Verdict(o, Call, reason))) else None
    case _ => None
  }

  function SubNameAt(events: seq<Event>, i: nat): string
    requires i < |events| && SubGiven(events[i]).Some?
  {
    var p := SubGiven(events[i]).value.0;
    SubName(p, SubtestsOf(events[..i], p))
  }

  // The subtest report passed, or its skip is excused under the name it is given.
  predicate SubtestClear(policy: Policy, events: seq<Event>, i: nat)
    requires i < |events|
  {
    SubGiven(events[i]).Some? ==>
      var v := SubGiven(events[i]).value.1;
      v.outcome == Passed || Excused(policy, SubNameAt(events, i), v.outcome, v.reason)
  }

  ghost predicate CollectedOnce(events: seq<Event>) {
    forall n, i, j :: 0 <= i < j < |events| && Collects(events[i], n) ==> !Collects(events[j], n)
  }

  ghost predicate Untainted(events: seq<Event>) {
    forall i :: 0 <= i < |events| ==> !Taints(events[i])
  }

  // Nothing bad, unmapped, noted or deselected; nothing collected twice; every collected test is
  // settled, and the first report of it that is not passed, if any, is an excused skip; so is every
  // subtest report that is not passed; and some test only ever passed.
  ghost predicate Releasable(policy: Policy, events: seq<Event>) {
    && Untainted(events) && CollectedOnce(events)
    && (forall n :: n in CollectedNames(events) ==> Answered(events, n) && Forgiven(policy, events, n))
    && (forall i :: 0 <= i < |events| ==> SubtestClear(policy, events, i))
    && (exists n :: Answered(events, n) && Untroubled(events, n))
  }

  // ---------------------------------------------------------------------------------------
  // The rows of an untainted stream
  // ---------------------------------------------------------------------------------------

  function RowOf(policy: Policy, n: string, v: Verdict): Row {
    MakeRow(policy, n, v.outcome, v.when, v.reason, None)
  }

  ghost predicate HasSubtest(c: Captured, n: string) {
    exists r :: r in c.subtests && r.parent == Some(n)
  }

  // The row of n is its first trouble, or passed without one.
  ghost predicate Told(policy: Policy, events: seq<Event>, c: Captured, n: string) {
    && (n in c.rows <==> Answered(events, n))
    && (n in c.rows && Untroubled(events, n) ==> c.rows[n].outcome == Passed)
    && (forall i: nat :: FirstTrouble(events, i, n) ==> n in c.rows && c.rows[n] == RowOf(policy, n, Given(events[i], n).value))
    && (HasSubtest(c, n) <==> Subtested(events, n))
  }

  lemma AnsweredGrows(pre: seq<Event>, e: Event, n: string)
    ensures Answered(pre + [e], n) <==>
            Answered(pre, n) || Given(e, n).Some? || (e == UnitStop(Some(n)) && Subtested(pre, n))
    ensures Subtested(pre + [e], n) <==> Subtested(pre, n) || SubtestOf(e, n)
  {
    var events := pre + [e];
    assert events[..|pre|] == pre;
    if i: nat :| AnswersAt(pre, i, n) { assert events[..i] == pre[..i] && AnswersAt(events, i, n); }
    if Given(e, n).Some? || (e == UnitStop(Some(n)) && Subtested(pre, n)) { assert AnswersAt(events, |pre|, n); }
    if i: nat :| AnswersAt(events, i, n) {
      if i < |pre| { assert events[..i] == pre[..i] && AnswersAt(pre, i, n); }
    }
    BackedGrows(pre, e, n, Passed);
    if j :| 0 <= j < |events| && SubtestOf(events[j], n) {
      if j < |pre| { assert SubtestOf(pre[j], n); }
    }
  }

  lemma TroubleGrows(pre: seq<Event>, e: Event, n: string)
    ensures Untroubled(pre + [e], n) <==> Untroubled(pre, n) && !Trouble(e, n)
    ensures forall i: nat :: FirstTrouble(pre + [e], i, n) <==>
              FirstTrouble(pre, i, n) || (i == |pre| && Untroubled(pre, n) && Trouble(e, n))
  {
    var events := pre + [e];
    assert forall i :: 0 <= i < |pre| ==> events[i] == pre[i];
    if Untroubled(events, n) {
      assert Trouble(events[|pre|], n) == Trouble(e, n);
      forall i | 0 <= i < |pre| ensures !Trouble(pre[i], n) { assert !Trouble(events[i], n); }
    }
  }

  // What an untainted event does to the row of n.
  lemma RowMoves(c: Captured, policy: Policy, e: Event, n: string)
    requires !Taints(e) && forall r :: r in c.subtests ==> !Bad(r.outcome)
    requires n in c.rows ==> c.rows[n].nodeid == n
    ensures var d := On(c, policy, e);
            && (n in d.rows <==> n in c.rows || Given(e, n).Some? || (e == UnitStop(Some(n)) && HasSubtest(c, n)))
            && (n in d.rows && !(Given(e, n).Some? && (n !in c.rows || (c.rows[n].outcome == Passed && Trouble(e, n)))) ==>
                  if n in c.rows then d.rows[n] == c.rows[n] else d.rows[n].outcome == Passed)
            && (Given(e, n).Some? && (n !in c.rows || (c.rows[n].outcome == Passed && Trouble(e, n))) ==>
                  n in d.rows && d.rows[n] == RowOf(policy, n, Given(e, n).value))
  {}

  lemma SubtestMoves(c: Captured, policy: Policy, e: Event, n: string)
    ensures HasSubtest(On(c, policy, e), n) <==> HasSubtest(c, n) || SubtestOf(e, n)
  {
    var d := On(c, policy, e);
    if r :| r in c.subtests && r.parent == Some(n) { SubtestStays(c, policy, e, r); }
    if SubtestOf(e, n) {
      assert d.subtests[|d.subtests| - 1] in d.subtests && d.subtests[|d.subtests| - 1].parent == Some(n);
    }
    if r :| r in d.subtests && r.parent == Some(n) {
      if r !in c.subtests { assert SubtestOf(e, n); }
    }
  }

  lemma OnKeepsTold(policy: Policy, pre: seq<Event>, c: Captured, e: Event, n: string)
    requires Told(policy, pre, c, n) && !Taints(e) && forall r :: r in c.subtests ==> !Bad(r.outcome)
    requires n in c.rows ==> c.rows[n].nodeid == n
    ensures Told(policy, pre + [e], On(c, policy, e), n)
  {
    AnsweredGrows(pre, e, n);
    TroubleGrows(pre, e, n);
    RowMoves(c, policy, e, n);
    SubtestMoves(c, policy, e, n);
    var events, d := pre + [e], On(c, policy, e);
    forall i: nat | FirstTrouble(events, i, n)
      ensures n in d.rows && d.rows[n] == RowOf(policy, n, Given(events[i], n).value)
    {
      if i < |pre| {
        assert FirstTrouble(pre, i, n) && events[i] == pre[i];
        assert c.rows[n].outcome != Passed;
      } else {
        assert events[i] == e;
      }
    }
  }

  lemma NoBadSubtests(c: Captured, policy: Policy, e: Event)
    requires !Taints(e) && forall r :: r in c.subtests ==> !Bad(r.outcome)
    ensures forall r :: r in On(c, policy, e).subtests ==> !Bad(r.outcome)
  {}

  lemma {:induction false} UntaintedIsTold(policy: Policy, events: seq<Event>)
    requires Untainted(events)
    ensures forall n :: Told(policy, events, OnAll(policy, events), n)
    ensures forall r :: r in OnAll(policy, events).subtests ==> !Bad(r.outcome)
  {
    if events == [] {
      forall n ensures Told(policy, events, EMPTY, n) {}
    } else {
      var last := |events| - 1;
      var pre, e := events[..last], events[last];
      var c := OnAll(policy, pre);
      assert events == pre + [e];
      assert Untainted(pre) by {
        forall i | 0 <= i < |pre| ensures !Taints(pre[i]) { assert pre[i] == events[i]; }
      }
      UntaintedIsTold(policy, pre);
      EveryCaptureIsShaped(policy, pre);
      NoBadSubtests(c, policy, e);
      forall n ensures Told(policy, events, On(c, policy, e), n) { OnKeepsTold(policy, pre, c, e, n); }
    }
  }

  lemma {:induction false} TroubleHasFirst(events: seq<Event>, n: string)
    requires !Untroubled(events, n)
    ensures exists i: nat :: FirstTrouble(events, i, n)
    decreases |events|
  {
    var last := |events| - 1;
    var pre := events[..last];
    assert events == pre + [events[last]];
    TroubleGrows(pre, events[last], n);
    if Untroubled(pre, n) {
      assert FirstTrouble(events, last, n);
    } else {
      TroubleHasFirst(pre, n);
      var i: nat :| FirstTrouble(pre, i, n);
      assert FirstTrouble(events, i, n);
    }
  }

  // A row is clear exactly when the first trouble of its test is excused.
  lemma RowClearIff(policy: Policy, events: seq<Event>, c: Captured, n: string)
    requires Told(policy, events, c, n) && n in c.rows
    ensures Clear(policy, c.rows[n]) <==> Forgiven(policy, events, n)
    ensures c.rows[n].outcome == Passed <==> Untroubled(events, n)
  {
    if !Untroubled(events, n) {
      TroubleHasFirst(events, n);
      var i: nat :| FirstTrouble(events, i, n);
      assert c.rows[n] == RowOf(policy, n, Given(events[i], n).value);
    }
  }

  // ---------------------------------------------------------------------------------------
  // The subtests and the problems of a stream
  // ---------------------------------------------------------------------------------------

  ghost predicate SubRow(policy: Policy, events: seq<Event>, i: nat, r: Row) {
    && i < |events| && SubGiven(events[i]).Some?
    && var (p, v) := SubGiven(events[i]).value;
    r == MakeRow(policy, SubNameAt(events, i), v.outcome, v.when, v.reason, Some(p))
  }

  ghost predicate SubtestsTold(policy: Policy, events: seq<Event>, c: Captured) {
    && (forall r :: r in c.subtests ==> exists i: nat :: SubRow(policy, events, i, r))
    && (forall i :: 0 <= i < |events| && SubGiven(events[i]).Some? ==>
          exists r :: r in c.subtests && SubRow(policy, events, i, r))
  }

  lemma SubRowGrows(policy: Policy, pre: seq<Event>, e: Event, i: nat, r: Row)
    requires i < |pre|
    ensures SubRow(policy, pre + [e], i, r) <==> SubRow(policy, pre, i, r)
  {
    assert (pre + [e])[..i] == pre[..i] && (pre + [e])[i] == pre[i];
  }

  lemma NewSubRow(policy: Policy, pre: seq<Event>, c: Captured, e: Event)
    requires Counted(pre, c)
    ensures var d := On(c, policy, e);
            if SubGiven(e).Some? then
              |d.subtests| == |c.subtests| + 1 && d.subtests[..|c.subtests|] == c.subtests
              && SubRow(policy, pre + [e], |pre|, d.subtests[|c.subtests|])
            else d.subtests == c.subtests
  {
    assert (pre + [e])[..|pre|] == pre && (pre + [e])[|pre|] == e;
    if SubGiven(e).Some? { assert NextSub(c, SubGiven(e).value.0) == SubtestsOf(pre, SubGiven(e).value.0); }
  }

  lemma OnKeepsSubtestsTold(policy: Policy, pre: seq<Event>, c: Captured, e: Event)
    requires SubtestsTold(policy, pre, c) && Counted(pre, c)
    ensures SubtestsTold(policy, pre + [e], On(c, policy, e))
  {
    var events, d := pre + [e], On(c, policy, e);
    NewSubRow(policy, pre, c, e);
    forall r | r in d.subtests ensures exists i: nat :: SubRow(policy, events, i, r) {
      if r in c.subtests {
        var i: nat :| SubRow(policy, pre, i, r);
        SubRowGrows(policy, pre, e, i, r);
      } else {
        assert SubRow(policy, events, |pre|, r);
      }
    }
    forall i | 0 <= i < |events| && SubGiven(events[i]).Some?
      ensures exists r :: r in d.subtests && SubRow(policy, events, i, r)
    {
      if i < |pre| {
        assert SubGiven(pre[i]).Some?;
        var r :| r in c.subtests && SubRow(policy, pre, i, r);
        SubRowGrows(policy, pre, e, i, r);
        SubtestStays(c, policy, e, r);
      } else {
        assert d.subtests[|c.subtests|] in d.subtests;
      }
    }
  }

  lemma {:induction false} EverySubtestIsTold(policy: Policy, events: seq<Event>)
    ensures SubtestsTold(policy, events, OnAll(policy, events))
  {
    if events == [] {
    } else {
      var last := |events| - 1;
      EverySubtestIsTold(policy, events[..last]);
      EveryCaptureIsCounted(policy, events[..last]);
      assert events == events[..last] + [events[last]];
      OnKeepsSubtestsTold(policy, events[..last], OnAll(policy, events[..last]), events[last]);
    }
  }

  lemma SubRowClearIff(policy: Policy, events: seq<Event>, i: nat, r: Row)
    requires SubRow(policy, events, i, r)
    ensures Clear(policy, r) <==> SubtestClear(policy, events, i)
  {}

  lemma SubtestsClearIff(policy: Policy, events: seq<Event>, c: Captured)
    requires SubtestsTold(policy, events, c)
    ensures (forall r :: r in c.subtests ==> Clear(policy, r)) <==>
            forall i :: 0 <= i < |events| ==> SubtestClear(policy, events, i)
  {
    if forall r :: r in c.subtests ==> Clear(policy, r) {
      forall i | 0 <= i < |events| ensures SubtestClear(policy, events, i) {
        if SubGiven(events[i]).Some? {
          var r :| r in c.subtests && SubRow(policy, events, i, r);
          SubRowClearIff(policy, events, i, r);
        }
      }
    }
    if forall i :: 0 <= i < |events| ==> SubtestClear(policy, events, i) {
      forall r | r in c.subtests ensures Clear(policy, r) {
        var i: nat :| SubRow(policy, events, i, r);
        SubRowClearIff(policy, events, i, r);
      }
    }
  }

  lemma {:induction false} CleanHasNoProblems(policy: Policy, events: seq<Event>)
    requires Untainted(events) && CollectedOnce(events)
    ensures OnAll(policy, events).problems == {}
  {
    if events == [] {
    } else {
      var last := |events| - 1;
      var pre, e := events[..last], events[last];
      assert forall i :: 0 <= i < |pre| ==> pre[i] == events[i];
      CleanHasNoProblems(policy, pre);
      EveryCaptureIsGrounded(policy, pre);
      if e.Collect? && e.node.Some? {
        var n := e.node.value;
        if Collected(pre, n) {
          var i :| 0 <= i < |pre| && Collects(pre[i], n);
          assert Collects(events[i], n) && Collects(events[last], n);
        }
      }
    }
  }

  // ---------------------------------------------------------------------------------------
  // Release acceptance
  // ---------------------------------------------------------------------------------------

  ghost predicate RowsClear(policy: Policy, c: Captured) {
    && (forall n :: n in c.rows ==> Clear(policy, c.rows[n]))
    && (forall r :: r in c.subtests ==> Clear(policy, r))
  }

  ghost predicate SomeRowPassed(c: Captured) {
    exists n :: n in c.rows && c.rows[n].outcome == Passed
  }

  lemma CaseIsClear(c: Captured, policy: Policy, b: Body, ids: seq<string>, i: nat)
    requires Records(c, policy, b, ids) && RowsClear(policy, c) && c.nodes <= c.rows.Keys && i < |b.cases|
    ensures Clear(policy, b.cases[i])
  {
    assert CaseIs(c, policy, b.cases[i], ids[i]) && ids[i] in ids;
  }

  lemma ClearRecordsQualify(c: Captured, policy: Policy, b: Body, ids: seq<string>)
    requires Records(c, policy, b, ids) && RowsClear(policy, c) && c.nodes <= c.rows.Keys
    ensures NothingBlocks(b, policy)
    ensures SomeRowPassed(c) ==> exists i :: 0 <= i < |b.cases| && b.cases[i].outcome == Passed
  {
    forall i | 0 <= i < |AllRows(b)| ensures Clear(policy, AllRows(b)[i]) {
      if i < |b.cases| { CaseIsClear(c, policy, b, ids, i); } else { assert b.subtests[i - |b.cases|] in c.subtests; }
    }
    if n :| n in c.rows && c.rows[n].outcome == Passed {
      var i := CaseNamed(c, policy, b, ids, n);
      assert CaseIs(c, policy, b.cases[i], ids[i]);
    }
  }

  lemma QualifyingRecordsAreClear(c: Captured, policy: Policy, b: Body, ids: seq<string>)
    requires Records(c, policy, b, ids) && NothingBlocks(b, policy)
    ensures RowsClear(policy, c)
    ensures (exists i :: 0 <= i < |b.cases| && b.cases[i].outcome == Passed) ==> SomeRowPassed(c)
  {
    forall n | n in c.rows ensures Clear(policy, c.rows[n]) {
      var i := CaseNamed(c, policy, b, ids, n);
      assert CaseIs(c, policy, b.cases[i], ids[i]) && AllRows(b)[i] == b.cases[i];
    }
    forall r | r in c.subtests ensures Clear(policy, r) {
      var j :| 0 <= j < |b.subtests| && b.subtests[j] == r;
      assert AllRows(b)[|b.cases| + j] == r;
    }
    if i :| 0 <= i < |b.cases| && b.cases[i].outcome == Passed {
      assert CaseIs(c, policy, b.cases[i], ids[i]);
    }
  }

  // The rows in terms of the events, once the stream is untainted.
  lemma RowsTold(policy: Policy, events: seq<Event>, n: string)
    requires Untainted(events)
    ensures var c := OnAll(policy, events);
            && (n in c.rows <==> Answered(events, n))
            && (n in c.rows ==> (Clear(policy, c.rows[n]) <==> Forgiven(policy, events, n)))
            && (n in c.rows ==> (c.rows[n].outcome == Passed <==> Untroubled(events, n)))
  {
    var c := OnAll(policy, events);
    UntaintedIsTold(policy, events);
    assert Told(policy, events, c, n);
    if n in c.rows { RowClearIff(policy, events, c, n); }
  }

  lemma RowsAreReleasable(policy: Policy, events: seq<Event>)
    requires Untainted(events) && CollectedOnce(events)
    requires var c := OnAll(policy, events); RowsClear(policy, c) && c.nodes <= c.rows.Keys && SomeRowPassed(c)
    ensures Releasable(policy, events)
  {
    var c := OnAll(policy, events);
    EverySubtestIsTold(policy, events);
    EveryCaptureIsCounted(policy, events);
    SubtestsClearIff(policy, events, c);
    forall n | n in CollectedNames(events) ensures Answered(events, n) && Forgiven(policy, events, n) {
      RowsTold(policy, events, n);
    }
    var n :| n in c.rows && c.rows[n].outcome == Passed;
    RowsTold(policy, events, n);
  }

  lemma ReleasableRowsAreClear(policy: Policy, events: seq<Event>)
    requires Releasable(policy, events) && WellNamed(OnAll(policy, events))
    ensures var c := OnAll(policy, events); RowsClear(policy, c) && c.nodes <= c.rows.Keys && SomeRowPassed(c)
  {
    var c := OnAll(policy, events);
    EverySubtestIsTold(policy, events);
    EveryCaptureIsCounted(policy, events);
    SubtestsClearIff(policy, events, c);
    forall n | n in c.rows ensures Clear(policy, c.rows[n]) { RowsTold(policy, events, n); }
    forall n | n in c.nodes ensures n in c.rows.Keys { RowsTold(policy, events, n); }
    var n :| Answered(events, n) && Untroubled(events, n);
    RowsTold(policy, events, n);
  }

  lemma ReleasableIsAccepted(policy: Policy, events: seq<Event>, binding: Binding, a: Artifact)
    requires Finished(OnAll(policy, events), binding, Some(0), true, a)
    requires NamedStream(events) && Releasable(policy, events)
    ensures Acceptable(a, binding, policy, true)
  {
    var c := OnAll(policy, events);
    StreamAcceptedIff(policy, events, binding, Some(0), true, a);
    NamedStreamIsWell(policy, events);
    EveryCaptureIsShaped(policy, events);
    var ids := FinishedRecords(c, policy, binding, Some(0), true, a);
    CleanHasNoProblems(policy, events);
    ReleasableRowsAreClear(policy, events);
    ClearRecordsQualify(c, policy, a.body, ids);
    assert c.nodes - c.rows.Keys == {};
    assert a.body.problems == Completed(c).problems == {};
  }

  lemma AcceptedIsReleasable(policy: Policy, events: seq<Event>, binding: Binding, code: Option<int>, completed: bool,
                             a: Artifact)
    requires Finished(OnAll(policy, events), binding, code, completed, a) && Acceptable(a, binding, policy, true)
    ensures NamedStream(events) && Releasable(policy, events) && completed && code == Some(0)
  {
    var c := OnAll(policy, events);
    AcceptedStreamIsClean(policy, events, binding, code, completed, a);
    StreamAcceptedIff(policy, events, binding, code, completed, a);
    NamedStreamIsWell(policy, events);
    EveryCaptureIsShaped(policy, events);
    var ids := FinishedRecords(c, policy, binding, code, completed, a);
    QualifyingIsUntainted(c, policy, a.body, ids);
    QualifyingRecordsAreClear(c, policy, a.body, ids);
    RowsAreReleasable(policy, events);
  }

  // What finish() writes is accepted as release evidence exactly when the events are named and
  // releasable and the command completed with exit code 0.
  lemma ReleaseAcceptedIff(policy: Policy, events: seq<Event>, binding: Binding, code: Option<int>, completed: bool,
                           a: Artifact)
    requires Finished(OnAll(policy, events), binding, code, completed, a)
    ensures Acceptable(a, binding, policy, true) <==>
            NamedStream(events) && Releasable(policy, events) && completed && code == Some(0)
  {
    if Acceptable(a, binding, policy, true) {
      AcceptedIsReleasable(policy, events, binding, code, completed, a);
    } else if NamedStream(events) && Releasable(policy, events) && completed && code == Some(0) {
      ReleasableIsAccepted(policy, events, binding, a);
    }
  }

  // Collector and validator in one: the verdict on a whole stream of events.
  method CollectAndValidate(policy: Policy, binding: Binding, events: seq<Event>, code: Option<int>, completed: bool)
    returns (r: Result<(int, int), Refusal>)
    ensures r.Ok? <==> NamedStream(events) && Releasable(policy, events) && completed && code == Some(0)
  {
    var capture := new Capture(binding, policy);
    capture.HandleAll(events);
    var a := capture.Finish(code, completed);
    ReleaseAcceptedIff(policy, events, binding, code, completed, a);
    r := ValidateOutcomes(a, binding, policy, true);
  }

  // ---------------------------------------------------------------------------------------
  // An accepted stream
  // ---------------------------------------------------------------------------------------

  lemma TwoEvents(e: Event, f: Event, n: string)
    requires e == Collect(Some(n)) && f == TestReport(Some(n), Report(ReportPassed, Call, false, ""))
    ensures CollectedNames([e, f]) == {n} && NamedSubtests([e, f]) == 0 && forall p :: SubtestsOf([e, f], p) == 0
  {
    assert [e, f][..1] == [e] && [e][..0] == [];
    assert CollectedNames([e]) == {n} && NamedSubtests([e]) == 0;
    forall p ensures SubtestsOf([e, f], p) == 0 { assert SubtestsOf([e], p) == 0; }
  }

  // One collected test that passed is releasable under every policy.
  lemma OnePassedTest(n: string, policy: Policy) returns (events: seq<Event>)
    requires SafeNode(n)
    ensures NamedStream(events) && Releasable(policy, events)
  {
    var e, f := Collect(Some(n)), TestReport(Some(n), Report(ReportPassed, Call, false, ""));
    events := [e, f];
    TwoEvents(e, f, n);
    assert Untroubled(events, n);
    assert AnswersAt(events, 1, n);
    assert Answered(events, n);
    assert Forgiven(policy, events, n);
  }

  lemma SafeName() returns (n: string)
    ensures SafeNode(n)
  {
    var path, names, ident := "t.py", "::a", "a";
    assert names[2..] == ident && IsIdent(ident);
    assert LastNameAt(names, 0);
    assert path[1..] == ".py";
    NodeJoins(path, names);
    n := path + names;
  }

  // Under every policy some stream is accepted as release evidence.
  lemma SomeStreamIsReleasable(policy: Policy) returns (events: seq<Event>)
    ensures NamedStream(events) && Releasable(policy, events)
  {
    var n := SafeName();
    events := OnePassedTest(n, policy);
  }
}
