/** The release outcome collector: an arbitrary stream of collection and report events folded into
  * the artifact that the validator judges.
  */
module OutcomeCapture {
  import opened Wrappers
  import opened Text
  import opened Outcomes

  datatype Status = ReportPassed | ReportFailed | ReportSkipped

  type KnownWhen = w: When | !w.OtherPhase? witness Setup

  datatype Report = Report(status: Status, when: KnownWhen, wasXFail: bool, reason: string)

  type OwnProblem = p: Problem | !p.ForeignProblem? witness UnsafeTestIdentity

  // A node of None is a test that has no safe name; failing to name one is a Note of its own.  A
  // deselected test is mapped when its collection named it.  A unittest fixture that fails is one
  // UnitResult for each test it affects.
  datatype Event =
    | Collect(node: Option<string>)
    | Note(problem: OwnProblem)
    | Deselect(node: Option<string>, mapped: bool)
    | TestReport(node: Option<string>, report: Report)
    | SubtestReport(parent: Option<string>, report: Report)
    | UnitResult(node: Option<string>, outcome: Outcome, when: KnownWhen, reason: string)
    | UnitSubtest(parent: Option<string>, outcome: Outcome, reason: string)
    | UnitStop(node: Option<string>)

  datatype Captured = Captured(
    nodes: set<string>,
    rows: map<string, Row>,
    subtests: seq<Row>,
    problems: set<Problem>,
    subindices: map<string, nat>)

  const EMPTY := Captured({}, map[], [], {}, map[])

  // ---------------------------------------------------------------------------------------
  // One event
  // ---------------------------------------------------------------------------------------

  // pytest_runtest_logreport; None is a passing setup or teardown, which is not terminal.
  function TerminalOutcome(r: Report): Option<Outcome> {
    if r.status == ReportFailed then Some(if r.when == Call then Failed else Errors)
    else if r.wasXFail then Some(if r.status == ReportSkipped then XFailed else XPassed)
    else if r.status == ReportSkipped then Some(Skipped)
    else if r.when == Call then Some(Passed)
    else None
  }

  function SubtestOutcome(r: Report): Outcome {
    match r.status
    case ReportPassed => Passed
    case ReportSkipped => Skipped
    case ReportFailed => Failed
  }

  // Which reports give which outcome, on the report's own fields.
  lemma ReportOutcomes(r: Report)
    ensures TerminalOutcome(r) == Some(Failed) <==> r.status == ReportFailed && r.when == Call
    ensures TerminalOutcome(r) == Some(Errors) <==> r.status == ReportFailed && r.when != Call
    ensures TerminalOutcome(r) == Some(XFailed) <==> r.status == ReportSkipped && r.wasXFail
    ensures TerminalOutcome(r) == Some(Skipped) <==> r.status == ReportSkipped && !r.wasXFail
    ensures TerminalOutcome(r) == Some(XPassed) <==> r.status == ReportPassed && r.wasXFail
    ensures TerminalOutcome(r) == Some(Passed) <==> r.status == ReportPassed && !r.wasXFail && r.when == Call
    ensures TerminalOutcome(r) == None <==> r.status == ReportPassed && !r.wasXFail && r.when != Call
    ensures SubtestOutcome(r) == Failed <==> r.status == ReportFailed
    ensures SubtestOutcome(r) == Skipped <==> r.status == ReportSkipped
    ensures SubtestOutcome(r) == Passed <==> r.status == ReportPassed
  {}

  predicate Bad(o: Outcome) {
    o == Failed || o == Errors || o == XPassed
  }

  function MakeRow(policy: Policy, node: string, o: Outcome, when: When, reason: string, parent: Option<string>): Row {
    Row(node, o, when, parent, if o == Skipped then Some(NoteFor(policy, node, ReasonDigest(reason))) else None)
  }

  // A later row replaces an earlier one only to make it worse.
  predicate Replaces(c: Captured, row: Row) {
    || row.nodeid !in c.rows
    || Bad(row.outcome)
    || (c.rows[row.nodeid].outcome == Passed && row.outcome != Passed)
  }

  function Put(c: Captured, policy: Policy, node: Option<string>, o: Outcome, when: When, reason: string): Captured {
    if node.None? then c.(problems := c.problems + {UnmappedTestResult})
    else
      var row := MakeRow(policy, node.value, o, when, reason, None);
      if Replaces(c, row) then c.(rows := c.rows[node.value := row]) else c
  }

  function SubName(parent: string, k: nat): string {
    parent + ("::" + ("subtest_" + Decimal(k)))
  }

  function NextSub(c: Captured, parent: string): nat {
    if parent in c.subindices then c.subindices[parent] else 0
  }

  function PutSub(c: Captured, policy: Policy, parent: Option<string>, o: Outcome, when: When, reason: string): Captured {
    if parent.None? then c.(problems := c.problems + {UnmappedSubtest})
    else
      var k := NextSub(c, parent.value);
      var row := MakeRow(policy, SubName(parent.value, k), o, when, reason, parent);
      c.(subindices := c.subindices[parent.value := k + 1], subtests := c.subtests + [row])
  }

  function Add(c: Captured, node: Option<string>): Captured {
    if node.None? then c
    else c.(nodes := c.nodes + {node.value},
            problems := c.problems + if node.value in c.nodes then {DuplicateTestIdentity} else {})
  }

  // stopTest: a unittest that only reported subtests gets a row of its own.
  function Stop(c: Captured, policy: Policy, node: Option<string>): Captured {
    if node.Some? && node.value !in c.rows && exists r :: r in c.subtests && r.parent == node then
      Put(c, policy, node,
          if exists r :: r in c.subtests && r.parent == node && r.outcome == Failed then Failed else Passed,
          Call, "")
    else c
  }

  function On(c: Captured, policy: Policy, e: Event): Captured {
    match e
    case Collect(node) => Add(c, node)
    case Note(problem) => c.(problems := c.problems + {problem})
    case Deselect(node, mapped) =>
      var known := if node.Some? && mapped then c else Add(c, node);
      var put := Put(known, policy, node, Deselected, Collection, "");
      put.(problems := put.problems + {DeselectedTests})
    case TestReport(node, report) =>
      if TerminalOutcome(report).Some? then Put(c, policy, node, TerminalOutcome(report).value, report.when, report.reason)
      else c
    case SubtestReport(parent, report) => PutSub(c, policy, parent, SubtestOutcome(report), report.when, report.reason)
    case UnitResult(node, o, when, reason) => Put(c, policy, node, o, when, reason)
    case UnitSubtest(parent, o, reason) => PutSub(c, policy, parent, o, Call, reason)
    case UnitStop(node) => Stop(c, policy, node)
  }

  function OnAll(policy: Policy, events: seq<Event>): Captured {
    if events == [] then EMPTY else On(OnAll(policy, events[..|events| - 1]), policy, events[|events| - 1])
  }

  // ---------------------------------------------------------------------------------------
  // The artifact
  // ---------------------------------------------------------------------------------------

  // finish(): collected tests without a row become errors.
  function Completed(c: Captured): Captured {
    var missing := c.nodes - c.rows.Keys;
    c.(problems := c.problems + (if missing != {} then {MissingTerminalResults} else {}),
       rows := c.rows + map n | n in missing :: Row(n, Errors, Collection, None, None))
  }

  function RowsOf(ids: seq<string>, rows: map<string, Row>): (out: seq<Row>)
    requires forall n :: n in ids ==> n in rows
    ensures |out| == |ids| && forall i :: 0 <= i < |ids| ==> out[i] == rows[ids[i]]
  {
    seq(|ids|, i requires 0 <= i < |ids| => assert ids[i] in ids; rows[ids[i]])
  }

  function Assemble(c: Captured, binding: Binding, code: Option<int>, completed: bool,
                    collected: seq<string>, ids: seq<string>): Artifact
    requires forall n :: n in ids ==> n in Completed(c).rows
  {
    var cases := RowsOf(ids, Completed(c).rows);
    var counts: Counts := map o | o in OUTCOMES :: Tally(cases, o);
    var body := Body(binding, completed, code, collected, cases, c.subtests, counts, Completed(c).problems);
    Artifact(body, DigestOf(body))
  }

  ghost predicate Finished(c: Captured, binding: Binding, code: Option<int>, completed: bool, a: Artifact) {
    exists collected, ids ::
      && Enumerates(collected, c.nodes) && Enumerates(ids, Completed(c).rows.Keys)
      && a == Assemble(c, binding, code, completed, collected, ids)
  }

  class Capture {
    var nodes: set<string>
    var rows: map<string, Row>
    var subtests: seq<Row>
    var problems: set<Problem>
    var subindices: map<string, nat>
    const policy: Policy
    const binding: Binding

    function Contents(): Captured
      reads this
    {
      Captured(nodes, rows, subtests, problems, subindices)
    }

    constructor (binding: Binding, policy: Policy)
      ensures Contents() == EMPTY && this.binding == binding && this.policy == policy
    {
      nodes, rows, subtests, problems, subindices := {}, map[], [], {}, map[];
      this.binding, this.policy := binding, policy;
    }

    method AddNode(node: Option<string>)
      modifies this
      ensures Contents() == Add(old(Contents()), node)
    {
      if node.None? { return; }
      if node.value in nodes { problems := problems + {DuplicateTestIdentity}; }
      nodes := nodes + {node.value};
    }

    method AddRow(node: Option<string>, o: Outcome, when: When, reason: string)
      modifies this
      ensures Contents() == Put(old(Contents()), policy, node, o, when, reason)
    {
      if node.None? { problems := problems + {UnmappedTestResult}; return; }
      var row := MakeRow(policy, node.value, o, when, reason, None);
      if node.value !in rows || Bad(o) {
        rows := rows[node.value := row];
      } else if rows[node.value].outcome == Passed && o != Passed {
        rows := rows[node.value := row];
      }
    }

    method AddSubtest(parent: Option<string>, o: Outcome, when: When, reason: string)
      modifies this
      ensures Contents() == PutSub(old(Contents()), policy, parent, o, when, reason)
    {
      if parent.None? { problems := problems + {UnmappedSubtest}; return; }
      var k := if parent.value in subindices then subindices[parent.value] else 0;
      subindices := subindices[parent.value := k + 1];
      subtests := subtests + [MakeRow(policy, SubName(parent.value, k), o, when, reason, parent)];
    }

    method Handle(e: Event)
      modifies this
      ensures Contents() == On(old(Contents()), policy, e)
    {
      match e
      case Collect(node) => AddNode(node);
      case Note(problem) => problems := problems + {problem};
      case Deselect(node, mapped) =>
        if node.None? || !mapped { AddNode(node); }
        AddRow(node, Deselected, Collection, "");
        problems := problems + {DeselectedTests};
      case TestReport(node, report) =>
        var o := TerminalOutcome(report);
        if o.Some? { AddRow(node, o.value, report.when, report.reason); }
      case SubtestReport(parent, report) => AddSubtest(parent, SubtestOutcome(report), report.when, report.reason);
      case UnitResult(node, o, when, reason) => AddRow(node, o, when, reason);
      case UnitSubtest(parent, o, reason) => AddSubtest(parent, o, Call, reason);
      case UnitStop(node) =>
        if node.Some? && node.value !in rows && exists r :: r in subtests && r.parent == node {
          var failed := exists r :: r in subtests && r.parent == node && r.outcome == Failed;
          AddRow(node, if failed then Failed else Passed, Call, "");
        }
    }

    method HandleAll(events: seq<Event>)
      requires Contents() == EMPTY
      modifies this
      ensures Contents() == OnAll(policy, events)
    {
      for i := 0 to |events|
        invariant Contents() == OnAll(policy, events[..i])
      {
        assert events[..i + 1][..i] == events[..i];
        Handle(events[i]);
      }
      assert events[..|events|] == events;
    }

    method Finish(code: Option<int>, completed: bool) returns (a: Artifact)
      modifies this
      ensures Contents() == Completed(old(Contents()))
      ensures Finished(old(Contents()), binding, code, completed, a)
    {
      var c := Contents();
      var missing := nodes - rows.Keys;
      if missing != {} { problems := problems + {MissingTerminalResults}; }
      rows := rows + map n | n in missing :: Row(n, Errors, Collection, None, None);
      assert Contents() == Completed(c);
      var collected := SortedPaths(nodes);
      var ids := SortedPaths(rows.Keys);
      a := Assemble(c, binding, code, completed, collected, ids);
    }
  }

  // ---------------------------------------------------------------------------------------
  // What the folded records hold
  // ---------------------------------------------------------------------------------------

  predicate ShapedRow(policy: Policy, r: Row) {
    && !r.when.OtherPhase?
    && (r.outcome == Skipped <==> r.skip.Some?)
    && (r.skip.Some? ==>
          !r.skip.value.digest.Malformed? && r.skip.value == NoteFor(policy, r.nodeid, r.skip.value.digest))
  }

  // A subtest's generated name carries an index that its parent has already used.
  ghost predicate Numbered(c: Captured, r: Row) {
    r.parent.Some? && exists k: nat :: k < NextSub(c, r.parent.value) && r.nodeid == SubName(r.parent.value, k)
  }

  ghost predicate Shaped(c: Captured, policy: Policy) {
    && (forall n :: n in c.rows ==>
          ShapedRow(policy, c.rows[n]) && c.rows[n].nodeid == n && c.rows[n].parent.None?)
    && (forall r :: r in c.subtests ==> ShapedRow(policy, r) && Numbered(c, r))
    && DistinctIds(c.subtests)
    && (forall p :: p in c.problems ==> !p.ForeignProblem?)
  }

  lemma SubNamesDiffer(p: string, k: nat, q: string, m: nat)
    requires SubName(p, k) == SubName(q, m)
    ensures p == q && k == m
  {
    var mark := "::subtest_";
    assert SubName(p, k) == (p + mark) + Decimal(k);
    assert SubName(q, m) == (q + mark) + Decimal(m);
    NumeralSuffix(p + mark, q + mark, k, m);
    assert p == (p + mark)[..|p|] && q == (q + mark)[..|q|];
  }

  lemma SubtestKeepsShape(c: Captured, policy: Policy, parent: Option<string>, o: Outcome, when: When, reason: string)
    requires Shaped(c, policy) && !when.OtherPhase?
    ensures Shaped(PutSub(c, policy, parent, o, when, reason), policy)
  {
    if parent.Some? {
      var after := PutSub(c, policy, parent, o, when, reason);
      var next := NextSub(c, parent.value);
      var row := MakeRow(policy, SubName(parent.value, next), o, when, reason, parent);
      forall r | r in c.subtests ensures Numbered(after, r) && r.nodeid != row.nodeid {
        var k: nat :| k < NextSub(c, r.parent.value) && r.nodeid == SubName(r.parent.value, k);
        assert k < NextSub(after, r.parent.value);
        if r.nodeid == row.nodeid { SubNamesDiffer(r.parent.value, k, parent.value, next); }
      }
      assert next < NextSub(after, parent.value);
      assert Numbered(after, row);
      forall i, j | 0 <= i < j < |after.subtests| ensures after.subtests[i].nodeid != after.subtests[j].nodeid {
        assert c.subtests[i] in c.subtests;
      }
    }
  }

  // Names, problems and indices aside, a capture with well-shaped rows is well shaped.
  lemma RowsKeepShape(c: Captured, d: Captured, policy: Policy)
    requires Shaped(c, policy) && d.subtests == c.subtests && d.subindices == c.subindices
    requires forall n :: n in d.rows ==>
                           ShapedRow(policy, d.rows[n]) && d.rows[n].nodeid == n && d.rows[n].parent.None?
    requires forall p :: p in d.problems ==> !p.ForeignProblem?
    ensures Shaped(d, policy)
  {
    forall r | r in d.subtests ensures Numbered(d, r) {
      var k: nat :| k < NextSub(c, r.parent.value) && r.nodeid == SubName(r.parent.value, k);
      assert k < NextSub(d, r.parent.value);
    }
  }

  lemma PutKeepsShape(c: Captured, policy: Policy, node: Option<string>, o: Outcome, when: When, reason: string)
    requires Shaped(c, policy) && !when.OtherPhase?
    ensures Shaped(Put(c, policy, node, o, when, reason), policy)
  {
    RowsKeepShape(c, Put(c, policy, node, o, when, reason), policy);
  }

  lemma OnKeepsShape(c: Captured, policy: Policy, e: Event)
    requires Shaped(c, policy)
    ensures Shaped(On(c, policy, e), policy)
  {
    match e {
      case Collect(node) => RowsKeepShape(c, Add(c, node), policy);
      case Note(problem) => RowsKeepShape(c, On(c, policy, e), policy);
      case Deselect(node, mapped) =>
        var known := if node.Some? && mapped then c else Add(c, node);
        RowsKeepShape(c, known, policy);
        PutKeepsShape(known, policy, node, Deselected, Collection, "");
        RowsKeepShape(Put(known, policy, node, Deselected, Collection, ""), On(c, policy, e), policy);
      case TestReport(node, r) =>
        if TerminalOutcome(r).Some? { PutKeepsShape(c, policy, node, TerminalOutcome(r).value, r.when, r.reason); }
      case SubtestReport(parent, r) => SubtestKeepsShape(c, policy, parent, SubtestOutcome(r), r.when, r.reason);
      case UnitResult(node, o, when, reason) => PutKeepsShape(c, policy, node, o, when, reason);
      case UnitSubtest(parent, o, reason) => SubtestKeepsShape(c, policy, parent, o, Call, reason);
      case UnitStop(node) =>
        PutKeepsShape(c, policy, node, Failed, Call, "");
        PutKeepsShape(c, policy, node, Passed, Call, "");
    }
  }

  lemma {:induction false} EveryCaptureIsShaped(policy: Policy, events: seq<Event>)
    ensures Shaped(OnAll(policy, events), policy)
  {
    if events == [] {
    } else {
      EveryCaptureIsShaped(policy, events[..|events| - 1]);
      OnKeepsShape(OnAll(policy, events[..|events| - 1]), policy, events[|events| - 1]);
    }
  }
}
