/** The graduated circuit breaker: a clamped ladder healthy, steering, constrained, stopped.
  *
  * The class follows the source field by field; the functions below it say what a whole run of
  * checkpoints amounts to.
  */
module Breaker {
  import opened Wrappers

  datatype Mode = Shadow | Enforce

  datatype Level = Healthy | Steering | Constrained | Stopped

  function Index(l: Level): (i: nat)
    ensures i <= 3
  {
    match l
    case Healthy => 0
    case Steering => 1
    case Constrained => 2
    case Stopped => 3
  }

  function LevelAt(i: nat): (l: Level)
    requires i <= 3
    ensures Index(l) == i
  {
    if i == 0 then Healthy else if i == 1 then Steering else if i == 2 then Constrained else Stopped
  }

  // ---------------------------------------------------------------------------------------
  // Signals
  // ---------------------------------------------------------------------------------------

  // A signal name; Unknown stands for every string outside the vocabulary.
  datatype Signal = ToolLoop | ErrorStorm | NoProgress | WorkTokenCap | CleanCheckpoint | Unknown(text: string)

  datatype Action = NoAction | Steer | Constrain | Stop | Recover

  predicate IsTrigger(s: Signal) {
    s == ToolLoop || s == ErrorStorm || s == NoProgress || s == WorkTokenCap
  }

  predicate IsSignal(s: Signal) {
    IsTrigger(s) || s == CleanCheckpoint
  }

  ghost predicate Distinct(s: seq<Signal>) {
    forall i, j :: 0 <= i < j < |s| ==> s[i] != s[j]
  }

  // The known names of a list, each at its first occurrence.
  function FirstSeen(signals: seq<Signal>): (out: seq<Signal>)
    ensures Distinct(out)
    ensures forall x :: x in out <==> x in signals && IsSignal(x)
  {
    if signals == [] then []
    else
      var n := |signals| - 1;
      assert signals == signals[..n] + [signals[n]];
      var front := FirstSeen(signals[..n]);
      if IsSignal(signals[n]) && signals[n] !in front then front + [signals[n]] else front
  }

  method NormalizeSignals(signals: seq<Signal>) returns (out: seq<Signal>)
    ensures out == FirstSeen(signals)
    ensures Distinct(out)
    ensures forall x :: x in out <==> x in signals && IsSignal(x)
  {
    var seen: set<Signal> := {};
    out := [];
    for i := 0 to |signals|
      invariant out == FirstSeen(signals[..i])
      invariant forall x :: x in seen <==> x in out
    {
      var item := signals[i];
      assert signals[..i + 1][..i] == signals[..i];
      if IsSignal(item) && item !in seen {
        seen := seen + {item};
        out := out + [item];
      }
    }
    assert signals[..|signals|] == signals;
  }

  // What a checkpoint offers: active signals, the progress record, token use and extra triggers.
  datatype Evidence = Evidence(
    active: seq<Signal>,
    judgedInactive: bool,
    recordToolLoop: bool,
    workTokens: Option<int>,
    extras: seq<Signal>)

  // When a trigger of that name holds at a checkpoint.
  predicate Holds(e: Evidence, overBudget: bool, name: Signal) {
    && IsTrigger(name)
    && (|| ((name == ToolLoop || name == ErrorStorm) && name in e.active)
        || (name == NoProgress && e.judgedInactive)
        || (name == ToolLoop && e.recordToolLoop)
        || (name == WorkTokenCap && overBudget)
        || name in e.extras)
  }

  predicate Triggered(e: Evidence, overBudget: bool) {
    || Holds(e, overBudget, ToolLoop) || Holds(e, overBudget, ErrorStorm)
    || Holds(e, overBudget, NoProgress) || Holds(e, overBudget, WorkTokenCap)
  }

  // The work-token cap holds outside a compaction grace window.
  predicate Exceeds(cap: Option<int>, graceUntil: Option<real>, e: Evidence, now: real) {
    && cap.Some? && !(graceUntil.Some? && now < graceUntil.value)
    && e.workTokens.Some? && e.workTokens.value >= 0 && e.workTokens.value > cap.value
  }

  function Named(holds: bool, name: Signal): seq<Signal> {
    if holds then [name] else []
  }

  // The direct triggers in the fixed order of their names.
  function DirectList(e: Evidence, overBudget: bool): seq<Signal> {
    Named(ToolLoop in e.active || e.recordToolLoop, ToolLoop) + Named(ErrorStorm in e.active, ErrorStorm)
    + Named(e.judgedInactive, NoProgress) + Named(overBudget, WorkTokenCap)
  }

  // The extra triggers that are not among the earlier ones.
  function NewTriggers(early: seq<Signal>, extras: seq<Signal>): seq<Signal> {
    if extras == [] then []
    else
      var n := |extras| - 1;
      var front := NewTriggers(early, extras[..n]);
      if IsTrigger(extras[n]) && extras[n] !in early && extras[n] !in front then front + [extras[n]] else front
  }

  // Direct triggers come first, in the order of their names, then extra ones as first mentioned.
  function TriggerList(e: Evidence, overBudget: bool): seq<Signal> {
    DirectList(e, overBudget) + NewTriggers(DirectList(e, overBudget), FirstSeen(e.extras))
  }

  lemma JoinsDistinct(early: seq<Signal>, holds: bool, name: Signal)
    requires Distinct(early) && name !in early
    ensures Distinct(early + Named(holds, name))
    ensures forall x :: x in early + Named(holds, name) <==> x in early || (holds && x == name)
  {}

  lemma DirectMembers(e: Evidence, overBudget: bool)
    ensures Distinct(DirectList(e, overBudget))
    ensures forall x :: x in DirectList(e, overBudget) <==>
              || (x == ToolLoop && (ToolLoop in e.active || e.recordToolLoop)) || (x == ErrorStorm && ErrorStorm in e.active)
              || (x == NoProgress && e.judgedInactive) || (x == WorkTokenCap && overBudget)
  {
    var one := Named(ToolLoop in e.active || e.recordToolLoop, ToolLoop);
    JoinsDistinct(one, ErrorStorm in e.active, ErrorStorm);
    var two := one + Named(ErrorStorm in e.active, ErrorStorm);
    JoinsDistinct(two, e.judgedInactive, NoProgress);
    var three := two + Named(e.judgedInactive, NoProgress);
    JoinsDistinct(three, overBudget, WorkTokenCap);
  }

  lemma DirectListHolds(e: Evidence, overBudget: bool)
    ensures Distinct(DirectList(e, overBudget))
    ensures forall x :: x in DirectList(e, overBudget) <==> Holds(e.(extras := []), overBudget, x)
  {
    DirectMembers(e, overBudget);
    forall x ensures x in DirectList(e, overBudget) <==> Holds(e.(extras := []), overBudget, x) {}
  }

  lemma {:induction false} NewTriggersAre(early: seq<Signal>, extras: seq<Signal>)
    requires Distinct(early)
    ensures Distinct(early + NewTriggers(early, extras))
    ensures forall x :: x in NewTriggers(early, extras) <==> x in extras && IsTrigger(x) && x !in early
  {
    if extras == [] {
    } else {
      var n := |extras| - 1;
      NewTriggersAre(early, extras[..n]);
      assert extras == extras[..n] + [extras[n]];
      var front := NewTriggers(early, extras[..n]);
      if NewTriggers(early, extras) != front {
        JoinsDistinct(early + front, true, extras[n]);
        assert early + (front + [extras[n]]) == (early + front) + Named(true, extras[n]);
      }
    }
  }

  // The list names each trigger that holds at the checkpoint, once, and no other.
  lemma TriggerListHolds(e: Evidence, overBudget: bool)
    ensures Distinct(TriggerList(e, overBudget))
    ensures forall x :: x in TriggerList(e, overBudget) <==> Holds(e, overBudget, x)
  {
    DirectListHolds(e, overBudget);
    NewTriggersAre(DirectList(e, overBudget), FirstSeen(e.extras));
    forall x ensures x in TriggerList(e, overBudget) <==> Holds(e, overBudget, x) {}
  }

  // What triggers a checkpoint: a tool loop or an error storm among the active signals, a progress
  // record that judges no activity or shows a tool loop, an exceeded token cap, or an extra trigger
  // of a known name.
  lemma TriggeredIff(e: Evidence, overBudget: bool)
    ensures Triggered(e, overBudget) <==>
              || ToolLoop in e.active || ErrorStorm in e.active || e.judgedInactive || e.recordToolLoop || overBudget
              || ToolLoop in e.extras || ErrorStorm in e.extras || NoProgress in e.extras || WorkTokenCap in e.extras
  {}

  // collect_triggers up to the extra triggers of the caller.
  method DirectTriggers(e: Evidence, overBudget: bool) returns (out: seq<Signal>)
    ensures out == DirectList(e, overBudget)
  {
    out := [];
    if ToolLoop in e.active { out := out + [ToolLoop]; }
    if ErrorStorm in e.active { out := out + [ErrorStorm]; }
    if e.judgedInactive { out := out + [NoProgress]; }
    if e.recordToolLoop && ToolLoop !in out { out := [ToolLoop] + out; }
    if overBudget { out := out + [WorkTokenCap]; }
  }

  method AddExtras(early: seq<Signal>, extras: seq<Signal>) returns (out: seq<Signal>)
    ensures out == early + NewTriggers(early, extras)
  {
    out := early;
    for i := 0 to |extras|
      invariant out == early + NewTriggers(early, extras[..i])
    {
      assert extras[..i + 1][..i] == extras[..i];
      if IsTrigger(extras[i]) && extras[i] !in out { out := out + [extras[i]]; }
    }
    assert extras[..|extras|] == extras;
  }

  // ---------------------------------------------------------------------------------------
  // The breaker and its decisions
  // ---------------------------------------------------------------------------------------

  datatype DecisionData = DecisionData(
    fromLevel: Level,
    toLevel: Level,
    transitioned: bool,
    escalated: bool,
    recovered: bool,
    action: Action,
    enforced: bool,
    signals: seq<Signal>,
    transitions: nat,
    checkpoints: nat,
    readOnly: bool,                      // constrained_permission is "read-only"
    steering: Option<seq<Signal>>)       // the signals named by the fixed steering message

  function Cap(allowStop: bool): nat {
    if allowStop then 3 else 2
  }

  function NextIndex(i: nat, triggered: bool, allowStop: bool): (r: nat)
    requires i <= 3
    ensures r <= 3
  {
    if i == 3 then 3
    else if triggered then if i + 1 <= Cap(allowStop) then i + 1 else Cap(allowStop)
    else if i == 0 then 0 else i - 1
  }

  // What a step of the ladder calls for: a climb is named by where it leads.
  function ActionFor(before: Level, after: Level): Action {
    if Index(after) < Index(before) then Recover
    else if after == before then NoAction
    else match after
      case Healthy => NoAction
      case Steering => Steer
      case Constrained => Constrain
      case Stopped => Stop
  }

  // A stop, a constraint and a steer are called for exactly on the climb to their level, a recovery
  // on every way down.
  lemma ActionIs(before: Level, after: Level)
    ensures var action := ActionFor(before, after);
            && (action == Stop <==> after == Stopped && before != Stopped)
            && (action == Constrain <==> after == Constrained && (before == Healthy || before == Steering))
            && (action == Steer <==> after == Steering && before == Healthy)
            && (action == NoAction <==> after == before)
  {}

  datatype Previous = Previous(level: Level, transitions: nat, last: Option<DecisionData>)

  class GraduatedBreaker {
    const mode: Mode
    const allowStop: bool
    const maxWorkTokens: Option<int>
    const graceSeconds: real
    var level: Level
    var transitions: nat
    var checkpoints: nat
    var compactionUntil: Option<real>
    var last: Option<DecisionData>

    constructor (mode: Mode, allowStop: bool, maxWorkTokens: Option<int>, graceSeconds: real)
      ensures this.mode == mode && this.allowStop == allowStop
      ensures this.maxWorkTokens == maxWorkTokens && this.graceSeconds == graceSeconds
      ensures level == Healthy && transitions == 0 && checkpoints == 0 && compactionUntil == None && last == None
    {
      this.mode, this.allowStop := mode, allowStop;
      this.maxWorkTokens, this.graceSeconds := maxWorkTokens, graceSeconds;
      level, transitions, checkpoints, compactionUntil, last := Healthy, 0, 0, None, None;
    }

    method NoteCompaction(now: real)
      modifies this`compactionUntil
      ensures compactionUntil == Some(now + graceSeconds)
    {
      compactionUntil := Some(now + graceSeconds);
    }

    predicate OverBudget(e: Evidence, now: real)
      reads this
    {
      Exceeds(maxWorkTokens, compactionUntil, e, now)
    }

    // The trigger names that hold, each once, in order.
    method CollectTriggers(e: Evidence, now: real) returns (out: seq<Signal>)
      ensures out == TriggerList(e, OverBudget(e, now))
      ensures Distinct(out)
      ensures forall x :: x in out <==> Holds(e, OverBudget(e, now), x)
    {
      out := DirectTriggers(e, OverBudget(e, now));
      TriggerListHolds(e, OverBudget(e, now));
      var extras := NormalizeSignals(e.extras);
      out := AddExtras(out, extras);
    }

    // One checkpoint.
    method Evaluate(e: Evidence, now: real) returns (decision: BreakerDecision)
      modifies this
      ensures fresh(decision)
      ensures var triggered := Triggered(e, old(OverBudget(e, now)));
              && Index(level) == NextIndex(Index(old(level)), triggered, allowStop)
              && transitions == old(transitions) + (if level != old(level) then 1 else 0)
              && checkpoints == old(checkpoints) + 1
              && compactionUntil == old(compactionUntil)
              && last == Some(decision.data)
              && decision.data.fromLevel == old(level) && decision.data.toLevel == level
              && (decision.data.transitioned <==> level != old(level))
              && (decision.data.escalated <==> Index(level) > Index(old(level)))
              && (decision.data.recovered <==> Index(level) < Index(old(level)))
              && decision.data.transitions == transitions && decision.data.checkpoints == checkpoints
              && (decision.data.readOnly <==> level == Constrained)
              && (decision.data.enforced <==> mode == Enforce && level != old(level))
              && decision.data.action == ActionFor(old(level), level)
              && (decision.data.steering == if level == Steering && triggered then Some(decision.data.signals) else None)
              && decision.data.signals ==
                 (if triggered then TriggerList(e, old(OverBudget(e, now))) else [CleanCheckpoint])
      ensures level != old(level) ==>
                && decision.breaker == this
                && decision.previous == Some(Previous(old(level), old(transitions), old(last)))
      ensures level == old(level) ==> decision.breaker == null
      ensures !decision.rolledBack
    {
      var triggers := CollectTriggers(e, now);
      assert triggers != [] <==> Triggered(e, OverBudget(e, now)) by {
        if triggers != [] { assert triggers[0] in triggers; }
      }
      var previous := Previous(level, transitions, last);
      var before := Index(level);
      var after := if level == Stopped then 3
                   else if triggers != [] then if before + 1 <= Cap(allowStop) then before + 1 else Cap(allowStop)
                   else if before - 1 >= 0 then before - 1 else 0;
      var next := LevelAt(after);
      var transitioned := next != level;
      level := next;
      checkpoints := checkpoints + 1;
      if transitioned { transitions := transitions + 1; }
      var action := if after > before then
                      if next == Steering then Steer else if next == Constrained then Constrain else Stop
                    else if after < before then Recover else NoAction;
      var recorded := if triggers != [] then triggers else [CleanCheckpoint];
      var steering := if next == Steering && (after > before || triggers != []) then Some(recorded) else None;
      var data := DecisionData(previous.level, next, transitioned, after > before, after < before, action,
                               mode == Enforce && action != NoAction, recorded, transitions, checkpoints,
                               next == Constrained, steering);
      last := Some(data);
      decision := new BreakerDecision(data, if transitioned then this else null,
                                      if transitioned then Some(previous) else None);
    }
  }

  class BreakerDecision {
    var data: DecisionData
    var breaker: GraduatedBreaker?
    var previous: Option<Previous>
    var rolledBack: bool

    constructor (data: DecisionData, breaker: GraduatedBreaker?, previous: Option<Previous>)
      ensures this.data == data && this.breaker == breaker && this.previous == previous && !rolledBack
    {
      this.data, this.breaker, this.previous, this.rolledBack := data, breaker, previous, false;
    }

    method Commit()
      modifies this`breaker, this`previous
      ensures breaker == null && previous == None
    {
      breaker, previous := null, None;
    }

    // Restores level, transitions and last, not checkpoints; afterwards the hook is spent.
    method Rollback()
      modifies this, breaker
      ensures old(rolledBack) || old(breaker) == null || old(previous).None? ==>
                data == old(data) && breaker == old(breaker) && previous == old(previous) && rolledBack == old(rolledBack)
      ensures old(rolledBack) || old(previous).None? ==>
                old(breaker) != null ==> unchanged(old(breaker))
      ensures !old(rolledBack) && old(breaker) != null && old(previous).Some? ==>
                && old(breaker).level == old(previous).value.level
                && old(breaker).transitions == old(previous).value.transitions
                && old(breaker).last == old(previous).value.last
                && old(breaker).checkpoints == old(breaker.checkpoints)
                && old(breaker).compactionUntil == old(breaker.compactionUntil)
                && rolledBack && breaker == null && previous == None
                && data.toLevel == old(previous).value.level && !data.transitioned && !data.enforced
                && data.transitions == old(previous).value.transitions
                && (data.readOnly <==> data.toLevel == Constrained)
    {
      if rolledBack || breaker == null || previous.None? { return; }
      var p := previous.value;
      breaker.level := p.level;
      breaker.transitions := p.transitions;
      breaker.last := p.last;
      data := data.(toLevel := p.level, transitioned := false, escalated := false, recovered := false,
                    action := NoAction, enforced := false, transitions := p.transitions,
                    readOnly := p.level == Constrained, steering := None);
      rolledBack := true;
      breaker := null;
      previous := None;
    }
  }

  // ---------------------------------------------------------------------------------------
  // Whole runs
  // ---------------------------------------------------------------------------------------

  // flags[k] says whether checkpoint k was triggered; i is the level the run starts from.
  function IndexAfter(i: nat, flags: seq<bool>, allowStop: bool): (r: nat)
    requires i <= 3
    ensures r <= 3
  {
    if flags == [] then i
    else NextIndex(IndexAfter(i, flags[..|flags| - 1], allowStop), flags[|flags| - 1], allowStop)
  }

  function Changes(i: nat, flags: seq<bool>, allowStop: bool): nat
    requires i <= 3
  {
    if flags == [] then 0
    else
      var front := flags[..|flags| - 1];
      Changes(i, front, allowStop) +
      if IndexAfter(i, front, allowStop) != IndexAfter(i, flags, allowStop) then 1 else 0
  }

  // Triggered minus clean checkpoints.
  function Net(flags: seq<bool>): int {
    if flags == [] then 0
    else Net(flags[..|flags| - 1]) + if flags[|flags| - 1] then 1 else -1
  }

  // A level is held only by evidence: while the ladder is not absorbed at stopped, a level of at
  // least i means that some window of the latest checkpoints has i more triggered than clean.
  lemma {:induction false} LevelNeedsRecentEvidence(flags: seq<bool>, allowStop: bool, i: nat)
    requires i <= IndexAfter(0, flags, allowStop)
    requires flags != [] ==> IndexAfter(0, flags[..|flags| - 1], allowStop) < 3
    ensures exists k :: 0 <= k <= |flags| && Net(flags[k..]) >= i
    decreases |flags|
  {
    if flags == [] || i == 0 {
      assert Net(flags[|flags|..]) >= 0;
    } else {
      var n := |flags| - 1;
      var front := flags[..n];
      if IndexAfter(0, front, allowStop) == 0 {
        assert flags[n..] == [flags[n]] && flags[n..][..0] == [];
        assert Net(flags[n..]) == 1;
      } else {
        NotAbsorbedBefore(front, allowStop);
        var j := if flags[n] then i - 1 else i + 1;
        LevelNeedsRecentEvidence(front, allowStop, j);
        var k :| 0 <= k <= |front| && Net(front[k..]) >= j;
        assert flags[k..][..|flags[k..]| - 1] == front[k..];
        assert Net(flags[k..]) >= i;
      }
    }
  }

  lemma NotAbsorbedBefore(flags: seq<bool>, allowStop: bool)
    requires IndexAfter(0, flags, allowStop) < 3
    ensures flags != [] ==> IndexAfter(0, flags[..|flags| - 1], allowStop) < 3
  {}

  // Below level i, with i within the cap, nothing clamps the ladder from above.
  lemma {:induction false} UnclampedClimb(flags: seq<bool>, allowStop: bool, i: nat, a: nat, b: nat)
    requires i <= Cap(allowStop) && a <= b <= |flags|
    requires forall n :: a <= n <= b ==> IndexAfter(0, flags[..n], allowStop) < i
    ensures IndexAfter(0, flags[..b], allowStop) >= Net(flags[a..b])
    decreases b - a
  {
    if a < b {
      UnclampedClimb(flags, allowStop, i, a, b - 1);
      assert flags[..b][..b - 1] == flags[..b - 1];
      assert flags[a..b][..b - a - 1] == flags[a..b - 1];
      assert IndexAfter(0, flags[..b - 1], allowStop) < i;
    }
  }

  // A level is ever reached exactly when some window of consecutive checkpoints has that many more
  // triggered than clean ones.  In particular `stopped` needs, and is forced by, a surplus of three.
  lemma EverReachedIff(flags: seq<bool>, allowStop: bool, i: nat)
    requires 0 < i <= if allowStop then 3 else 2
    ensures (exists n :: 0 <= n <= |flags| && IndexAfter(0, flags[..n], allowStop) >= i)
            <==> exists a, b :: 0 <= a <= b <= |flags| && Net(flags[a..b]) >= i
  {
    if n :| 0 <= n <= |flags| && IndexAfter(0, flags[..n], allowStop) >= i {
      var m := FirstReach(flags, allowStop, i, n);
      assert flags[..m][..m - 1] == flags[..m - 1];
      LevelNeedsRecentEvidence(flags[..m], allowStop, i);
      var k :| 0 <= k <= m && Net(flags[..m][k..]) >= i;
      assert flags[..m][k..] == flags[k..m];
      assert Net(flags[k..m]) >= i;
    }
    if a, b :| 0 <= a <= b <= |flags| && Net(flags[a..b]) >= i {
      if forall n :: 0 <= n <= |flags| ==> IndexAfter(0, flags[..n], allowStop) < i {
        UnclampedClimb(flags, allowStop, i, a, b);
        assert false;
      }
    }
  }

  lemma {:induction false} FirstReach(flags: seq<bool>, allowStop: bool, i: nat, n: nat) returns (m: nat)
    requires 0 < i && n <= |flags| && IndexAfter(0, flags[..n], allowStop) >= i
    ensures 0 < m <= n && IndexAfter(0, flags[..m], allowStop) >= i
    ensures IndexAfter(0, flags[..m - 1], allowStop) < i
  {
    if IndexAfter(0, flags[..n - 1], allowStop) < i { m := n; }
    else { m := FirstReach(flags, allowStop, i, n - 1); }
  }

  lemma {:induction false} IndexAppend(i: nat, a: seq<bool>, b: seq<bool>, allowStop: bool)
    requires i <= 3
    ensures IndexAfter(i, a + b, allowStop) == IndexAfter(IndexAfter(i, a, allowStop), b, allowStop)
    ensures Changes(i, a + b, allowStop) == Changes(i, a, allowStop) + Changes(IndexAfter(i, a, allowStop), b, allowStop)
    decreases |b|
  {
    if b == [] {
      assert a + b == a;
    } else {
      assert (a + b)[..|a + b| - 1] == a + b[..|b| - 1];
      IndexAppend(i, a, b[..|b| - 1], allowStop);
    }
  }

  // stopped is left by no checkpoint, and entered by none without allow_stop.
  lemma {:induction false} StoppedIsTerminal(i: nat, flags: seq<bool>, allowStop: bool)
    requires i <= 3
    ensures i == 3 ==> IndexAfter(i, flags, allowStop) == 3 && Changes(i, flags, allowStop) == 0
    ensures i < 3 && !allowStop ==> IndexAfter(i, flags, allowStop) < 3
    decreases |flags|
  {
    if flags == [] {
    } else {
      StoppedIsTerminal(i, flags[..|flags| - 1], allowStop);
    }
  }

  // k clean checkpoints in a row step down k levels, to healthy at the lowest.
  lemma {:induction false} CleanRecovers(i: nat, k: nat, allowStop: bool)
    requires i < 3
    ensures IndexAfter(i, seq(k, _ => false), allowStop) == if i > k then i - k else 0
  {
    if k > 0 {
      var flags := seq(k, _ => false);
      assert flags[..k - 1] == seq(k - 1, _ => false);
      CleanRecovers(i, k - 1, allowStop);
    }
  }

  // ---------------------------------------------------------------------------------------
  // Rollback as erasure
  // ---------------------------------------------------------------------------------------

  // One checkpoint and what became of its decision before the next one.  Compactions may be noted
  // before the checkpoint and again until its decision is settled; each has its clock reading.
  datatype Feed = Feed(
    early: seq<real>, evidence: Evidence, now: real, late: seq<real>, kept: bool, repeatRollback: bool)

  // The grace deadline after compactions noted at these times.
  function Noted(grace: Option<real>, times: seq<real>, graceSeconds: real): Option<real> {
    if times == [] then grace else Some(times[|times| - 1] + graceSeconds)
  }

  // The grace deadline after some feeds; a rolled back checkpoint moves it like a kept one.
  function GraceAfter(feeds: seq<Feed>, graceSeconds: real): Option<real> {
    if feeds == [] then None
    else
      var feed := feeds[|feeds| - 1];
      Noted(Noted(GraceAfter(feeds[..|feeds| - 1], graceSeconds), feed.early, graceSeconds), feed.late, graceSeconds)
  }

  // Whether the last checkpoint of a run of feeds is triggered.
  function LastTriggered(feeds: seq<Feed>, cap: Option<int>, graceSeconds: real): bool
    requires feeds != []
  {
    var feed := feeds[|feeds| - 1];
    var grace := Noted(GraceAfter(feeds[..|feeds| - 1], graceSeconds), feed.early, graceSeconds);
    Triggered(feed.evidence, Exceeds(cap, grace, feed.evidence, feed.now))
  }

  function KeptFlags(feeds: seq<Feed>, cap: Option<int>, graceSeconds: real): seq<bool> {
    if feeds == [] then []
    else
      KeptFlags(feeds[..|feeds| - 1], cap, graceSeconds) +
      if feeds[|feeds| - 1].kept then [LastTriggered(feeds, cap, graceSeconds)] else []
  }

  // Evidence that shows nothing but a count of work tokens.
  predicate Quiet(e: Evidence) {
    e.active == [] && !e.judgedInactive && !e.recordToolLoop && e.extras == []
  }

  predicate OverCap(cap: Option<int>, tokens: Option<int>) {
    cap.Some? && tokens.Some? && tokens.value >= 0 && tokens.value > cap.value
  }

  // A compaction shields such a checkpoint from the token cap for the grace that follows it, and no
  // longer; of several compactions the latest counts.
  lemma GraceShieldsIff(feeds: seq<Feed>, cap: Option<int>, graceSeconds: real, times: seq<real>, t: real)
    requires feeds != [] && Quiet(feeds[|feeds| - 1].evidence) && feeds[|feeds| - 1].early == times + [t]
    ensures LastTriggered(feeds, cap, graceSeconds) <==>
              OverCap(cap, feeds[|feeds| - 1].evidence.workTokens) && feeds[|feeds| - 1].now >= t + graceSeconds
  {
    var feed := feeds[|feeds| - 1];
    assert Noted(GraceAfter(feeds[..|feeds| - 1], graceSeconds), feed.early, graceSeconds) == Some(t + graceSeconds);
    TriggeredIff(feed.evidence, Exceeds(cap, Some(t + graceSeconds), feed.evidence, feed.now));
  }

  // A compaction that was noted while an earlier decision was pending shields it as well, whatever
  // became of the decision.
  lemma EarlierGraceShieldsIff(feeds: seq<Feed>, cap: Option<int>, graceSeconds: real, times: seq<real>, t: real)
    requires |feeds| > 1 && Quiet(feeds[|feeds| - 1].evidence) && feeds[|feeds| - 1].early == []
    requires feeds[|feeds| - 2].late == times + [t]
    ensures LastTriggered(feeds, cap, graceSeconds) <==>
              OverCap(cap, feeds[|feeds| - 1].evidence.workTokens) && feeds[|feeds| - 1].now >= t + graceSeconds
  {
    var feed, front := feeds[|feeds| - 1], feeds[..|feeds| - 1];
    assert front[|front| - 1] == feeds[|feeds| - 2];
    assert GraceAfter(front, graceSeconds) == Some(t + graceSeconds);
    TriggeredIff(feed.evidence, Exceeds(cap, Some(t + graceSeconds), feed.evidence, feed.now));
  }

  // Without any compaction the cap alone decides.
  lemma UncompactedIff(feeds: seq<Feed>, cap: Option<int>, graceSeconds: real)
    requires feeds != [] && Quiet(feeds[|feeds| - 1].evidence) && feeds[|feeds| - 1].early == []
    requires forall i :: 0 <= i < |feeds| - 1 ==> feeds[i].early == [] && feeds[i].late == []
    ensures LastTriggered(feeds, cap, graceSeconds) <==> OverCap(cap, feeds[|feeds| - 1].evidence.workTokens)
  {
    var feed := feeds[|feeds| - 1];
    NeverCompacted(feeds[..|feeds| - 1], graceSeconds);
    TriggeredIff(feed.evidence, Exceeds(cap, None, feed.evidence, feed.now));
  }

  lemma {:induction false} NeverCompacted(feeds: seq<Feed>, graceSeconds: real)
    requires forall i :: 0 <= i < |feeds| ==> feeds[i].early == [] && feeds[i].late == []
    ensures GraceAfter(feeds, graceSeconds) == None
  {
    if feeds != [] { NeverCompacted(feeds[..|feeds| - 1], graceSeconds); }
  }

  method NoteAll(b: GraduatedBreaker, times: seq<real>)
    modifies b`compactionUntil
    ensures b.compactionUntil == Noted(old(b.compactionUntil), times, b.graceSeconds)
  {
    for i := 0 to |times|
      invariant b.compactionUntil == Noted(old(b.compactionUntil), times[..i], b.graceSeconds)
    {
      b.NoteCompaction(times[i]);
    }
    assert times[..|times|] == times;
  }

  // One checkpoint whose decision is committed or rolled back, in either case perhaps with one
  // more rollback that must not matter, among any compactions.
  method RunFeed(b: GraduatedBreaker, feed: Feed)
    modifies b
    ensures b.checkpoints == old(b.checkpoints) + 1
    ensures var grace := Noted(old(b.compactionUntil), feed.early, b.graceSeconds);
            && b.compactionUntil == Noted(grace, feed.late, b.graceSeconds)
            && (feed.kept ==>
                  Index(b.level) ==
                  NextIndex(Index(old(b.level)),
                            Triggered(feed.evidence, Exceeds(b.maxWorkTokens, grace, feed.evidence, feed.now)), b.allowStop))
    ensures feed.kept ==> b.transitions == old(b.transitions) + (if b.level != old(b.level) then 1 else 0)
    ensures !feed.kept ==> b.level == old(b.level) && b.transitions == old(b.transitions)
  {
    NoteAll(b, feed.early);
    var decision := b.Evaluate(feed.evidence, feed.now);
    NoteAll(b, feed.late);
    if feed.kept { decision.Commit(); } else { decision.Rollback(); }
    if feed.repeatRollback { decision.Rollback(); }
  }

  lemma KeptStep(feeds: seq<Feed>, i: nat, cap: Option<int>, graceSeconds: real, allowStop: bool)
    requires i < |feeds|
    ensures var kept := KeptFlags(feeds[..i], cap, graceSeconds);
            var flags := KeptFlags(feeds[..i + 1], cap, graceSeconds);
            var t := LastTriggered(feeds[..i + 1], cap, graceSeconds);
            && (!feeds[i].kept ==> flags == kept)
            && (feeds[i].kept ==>
                  && IndexAfter(0, flags, allowStop) == NextIndex(IndexAfter(0, kept, allowStop), t, allowStop)
                  && Changes(0, flags, allowStop) == Changes(0, kept, allowStop) +
                     (if IndexAfter(0, flags, allowStop) != IndexAfter(0, kept, allowStop) then 1 else 0))
  {
    assert feeds[..i + 1][..i] == feeds[..i];
    var kept := KeptFlags(feeds[..i], cap, graceSeconds);
    var t := LastTriggered(feeds[..i + 1], cap, graceSeconds);
    assert (kept + [t])[..|kept|] == kept;
  }

  // What a breaker's fields say after some feeds.
  predicate Erased(level: Level, transitions: nat, grace: Option<real>, feeds: seq<Feed>,
                   cap: Option<int>, graceSeconds: real, allowStop: bool) {
    var flags := KeptFlags(feeds, cap, graceSeconds);
    && Index(level) == IndexAfter(0, flags, allowStop)
    && transitions == Changes(0, flags, allowStop)
    && grace == GraceAfter(feeds, graceSeconds)
  }

  // RunFeed takes the breaker from the feeds before i to those up to i.
  lemma ErasedStep(feeds: seq<Feed>, i: nat, cap: Option<int>, graceSeconds: real, allowStop: bool,
                   level: Level, transitions: nat, grace: Option<real>, level': Level, transitions': nat)
    requires i < |feeds| && Erased(level, transitions, grace, feeds[..i], cap, graceSeconds, allowStop)
    requires feeds[i].kept ==>
               && var noted := Noted(grace, feeds[i].early, graceSeconds);
               && Index(level') == NextIndex(Index(level),
                    Triggered(feeds[i].evidence, Exceeds(cap, noted, feeds[i].evidence, feeds[i].now)), allowStop)
               && transitions' == transitions + (if level' != level then 1 else 0)
    requires !feeds[i].kept ==> level' == level && transitions' == transitions
    ensures Erased(level', transitions', Noted(Noted(grace, feeds[i].early, graceSeconds), feeds[i].late, graceSeconds),
                   feeds[..i + 1], cap, graceSeconds, allowStop)
  {
    assert feeds[..i + 1][..i] == feeds[..i];
    KeptStep(feeds, i, cap, graceSeconds, allowStop);
  }

  // Runs a fresh breaker over checkpoints whose decisions are each committed or rolled back, with
  // compactions noted anywhere in between: level and transition count are those of a ladder that
  // only ever saw the kept checkpoints.
  method RunEpisode(b: GraduatedBreaker, feeds: seq<Feed>)
    requires b.level == Healthy && b.transitions == 0 && b.checkpoints == 0 && b.compactionUntil == None
    modifies b
    ensures var flags := KeptFlags(feeds, b.maxWorkTokens, b.graceSeconds);
            && Index(b.level) == IndexAfter(0, flags, b.allowStop)
            && b.transitions == Changes(0, flags, b.allowStop)
    ensures b.checkpoints == |feeds| && b.compactionUntil == GraceAfter(feeds, b.graceSeconds)
  {
    for i := 0 to |feeds|
      invariant b.checkpoints == i
      invariant Erased(b.level, b.transitions, b.compactionUntil, feeds[..i], b.maxWorkTokens, b.graceSeconds, b.allowStop)
    {
      ghost var level, transitions, grace := b.level, b.transitions, b.compactionUntil;
      RunFeed(b, feeds[i]);
      ErasedStep(feeds, i, b.maxWorkTokens, b.graceSeconds, b.allowStop, level, transitions, grace, b.level, b.transitions);
    }
    assert feeds[..|feeds|] == feeds;
  }
}
