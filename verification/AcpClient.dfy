/** The ACP client loop: permission answers, operator extensions of a request deadline, and the
  * bounded text of a turn.
  */
module AcpClient {
  import opened Wrappers
  import opened Breaker
  import Text

  // ---------------------------------------------------------------------------------------
  // Permission answers
  // ---------------------------------------------------------------------------------------

  datatype ToolKind =
    | ReadTool | Fetch | Search | Think | Edit | Execute | SwitchMode | Move | Other | Unlisted(text: string)

  const READ_ONLY_KINDS: set<ToolKind> := {ReadTool, Fetch, Search, Think}
  const SAFE_EDIT_KINDS: set<ToolKind> := READ_ONLY_KINDS + {Edit}
  const YOLO_KINDS: set<ToolKind> := SAFE_EDIT_KINDS + {Execute, SwitchMode, Move, Other}

  // The tool kinds a tier lets through; the tier is looked up without regard to case.
  function AllowableKinds(permission: string): set<ToolKind> {
    var tier := Text.Lower(permission);
    if tier == "read-only" then READ_ONLY_KINDS
    else if tier == "safe-edit" then SAFE_EDIT_KINDS
    else if tier == "yolo" then YOLO_KINDS
    else {}
  }

  // Position in _PERMISSION_ORDER, which is compared with regard to case.
  function Rank(permission: string): Option<nat> {
    if permission == "read-only" then Some(0)
    else if permission == "safe-edit" then Some(1)
    else if permission == "yolo" then Some(2)
    else None
  }

  // clamp_permission: an unknown tier is kept as declared.
  function Clamp(declared: string, ceiling: string): string {
    if ceiling == "" || Rank(declared).None? || Rank(ceiling).None? then declared
    else if Rank(declared).value <= Rank(ceiling).value then declared else ceiling
  }

  // effective_permission of a breaker.
  function Effective(mode: Mode, level: Level, permission: string): string {
    if mode == Enforce && (level == Constrained || level == Stopped) then Clamp(permission, "read-only") else permission
  }

  datatype ChoiceKind = AllowOnce | AllowAlways | RejectOnce | RejectAlways | Unheard(text: string)

  // optionId is None when the agent sent something other than a string.
  datatype Choice = Choice(kind: ChoiceKind, optionId: Option<string>)

  datatype Live = Live(mode: Mode, level: Level)

  datatype Control = Control(cancelRequested: bool, breakerStopped: bool, constrained: bool)

  // The breaker, if any, and the runtime control, if any, after their refresh.
  datatype Guard = Guard(breaker: Option<Live>, control: Option<Control>)

  // Whether what the control log recorded applies: without a breaker, or with an enforcing one.
  predicate Enforcing(g: Guard) {
    g.breaker.None? || g.breaker.value.mode == Enforce
  }

  predicate Blocked(g: Guard) {
    || (g.control.Some? && g.control.value.cancelRequested)
    || (g.control.Some? && Enforcing(g) && g.control.value.breakerStopped)
    || (g.breaker.Some? && g.breaker.value.mode == Enforce && g.breaker.value.level == Stopped)
  }

  function Tier(g: Guard, permission: string): string {
    var own := if g.breaker.Some? then Effective(g.breaker.value.mode, g.breaker.value.level, permission) else permission;
    if g.control.Some? && Enforcing(g) && g.control.value.constrained then Clamp(own, "read-only") else own
  }

  // The first option of one of these kinds that carries a usable id.
  function FirstOf(options: seq<Choice>, kinds: set<ChoiceKind>): (r: Option<string>)
    ensures r.Some? ==> exists o :: o in options && o.kind in kinds && o.optionId == r
    ensures r.None? ==> forall o :: o in options && o.kind in kinds ==> o.optionId.None?
  {
    if options == [] then None
    else if options[0].kind in kinds && options[0].optionId.Some? then options[0].optionId
    else FirstOf(options[1..], kinds)
  }

  method Find(options: seq<Choice>, kinds: set<ChoiceKind>) returns (r: Option<string>)
    ensures r == FirstOf(options, kinds)
  {
    for i := 0 to |options|
      invariant FirstOf(options, kinds) == FirstOf(options[i..], kinds)
    {
      if options[i].kind in kinds && options[i].optionId.Some? { return options[i].optionId; }
    }
    return None;
  }

  const ALLOW_ONCE: set<ChoiceKind> := {AllowOnce}
  const REJECTS: set<ChoiceKind> := {RejectOnce, RejectAlways}

  function Answer(options: seq<Choice>, toolKind: ToolKind, permission: string, g: Guard): Option<string> {
    if Blocked(g) then None
    else if toolKind in AllowableKinds(Tier(g, permission)) && Usable(FirstOf(options, ALLOW_ONCE))
    then FirstOf(options, ALLOW_ONCE)
    else FirstOf(options, REJECTS)
  }

  // An empty id counts as no allow option.
  predicate Usable(id: Option<string>) {
    id.Some? && id.value != ""
  }

  method AnswerPermission(options: seq<Choice>, toolKind: ToolKind, permission: string, g: Guard)
    returns (chosen: Option<string>)
    ensures chosen == Answer(options, toolKind, permission, g)
  {
    if g.control.Some? {
      if g.control.value.cancelRequested { return None; }
      if Enforcing(g) && g.control.value.breakerStopped { return None; }
    }
    if g.breaker.Some? && g.breaker.value.mode == Enforce && g.breaker.value.level == Stopped { return None; }
    var tier := Tier(g, permission);
    if toolKind in AllowableKinds(tier) {
      chosen := Find(options, ALLOW_ONCE);
      if chosen.Some? && chosen.value != "" { return; }
    }
    chosen := Find(options, REJECTS);
  }

  // Fail closed: an answer is the id of an offered allow_once or reject option; if it is the id of
  // no reject option, the tool kind is inside the effective tier and nothing is blocked.
  lemma AnswersAreOffered(options: seq<Choice>, toolKind: ToolKind, permission: string, g: Guard)
    ensures var r := Answer(options, toolKind, permission, g);
            && (r.Some? ==> exists o :: o in options && o.kind in ALLOW_ONCE + REJECTS && o.optionId == r)
            && ((r.Some? && forall o :: o in options && o.optionId == r ==> o.kind !in REJECTS) ==>
                  !Blocked(g) && toolKind in AllowableKinds(Tier(g, permission)))
  {}

  // The earliest allow_once option with a string id has a non-empty one.
  ghost predicate OffersAllow(options: seq<Choice>) {
    exists i :: 0 <= i < |options| && FirstAllowAt(options, i)
  }

  predicate FirstAllowAt(options: seq<Choice>, i: nat)
    requires i < |options|
  {
    && options[i].kind == AllowOnce && Usable(options[i].optionId)
    && forall j :: 0 <= j < i ==> options[j].kind != AllowOnce || options[j].optionId.None?
  }

  lemma {:induction false} OffersAllowIff(options: seq<Choice>)
    ensures OffersAllow(options) <==> Usable(FirstOf(options, ALLOW_ONCE))
  {
    if options == [] {
    } else {
      var rest := options[1..];
      OffersAllowIff(rest);
      if i :| 0 <= i < |rest| && FirstAllowAt(rest, i) {
        if options[0].kind != AllowOnce || options[0].optionId.None? { assert FirstAllowAt(options, i + 1); }
      }
      if i :| 0 <= i < |options| && FirstAllowAt(options, i) {
        if i > 0 { assert FirstAllowAt(rest, i - 1); }
      }
      if FirstOf(options, ALLOW_ONCE) == options[0].optionId && Usable(options[0].optionId) && options[0].kind == AllowOnce {
        assert FirstAllowAt(options, 0);
      }
    }
  }

  // No answer is given exactly when the turn is blocked, or no reject option has an id and the
  // tool kind is out of tier or the earliest allow_once option has an empty id or there is none.
  lemma SilentIff(options: seq<Choice>, toolKind: ToolKind, permission: string, g: Guard)
    ensures Answer(options, toolKind, permission, g).None? <==>
            || Blocked(g)
            || ((forall o :: o in options && o.optionId.Some? ==> o.kind !in REJECTS)
                && (toolKind !in AllowableKinds(Tier(g, permission)) || !OffersAllow(options)))
  {
    OffersAllowIff(options);
    if forall o :: o in options && o.optionId.Some? ==> o.kind !in REJECTS {
      assert FirstOf(options, REJECTS).None?;
    }
  }

  function KindsAt(g: Guard, permission: string): set<ToolKind> {
    if Blocked(g) then {} else AllowableKinds(Tier(g, permission))
  }

  lemma CanonicalTiers()
    ensures AllowableKinds("read-only") == READ_ONLY_KINDS
    ensures AllowableKinds("safe-edit") == SAFE_EDIT_KINDS
    ensures AllowableKinds("yolo") == YOLO_KINDS
  {
    Text.LowerKeeps("read-only");
    Text.LowerKeeps("safe-edit");
    Text.LowerKeeps("yolo");
  }

  // The clamp turns a known tier into read-only and keeps every other spelling.
  lemma ClampedTier(permission: string)
    ensures Clamp(permission, "read-only") == if Rank(permission).Some? then "read-only" else permission
  {}

  lemma ClampShrinks(permission: string)
    ensures AllowableKinds(Clamp(permission, "read-only")) <= AllowableKinds(permission)
  {
    CanonicalTiers();
    ClampedTier(permission);
  }

  // Climbing the ladder never admits a tool kind, whatever the mode and the control say.
  lemma ClimbingShrinks(mode: Mode, low: Level, high: Level, control: Option<Control>, permission: string)
    requires Index(low) <= Index(high)
    ensures KindsAt(Guard(Some(Live(mode, high)), control), permission)
         <= KindsAt(Guard(Some(Live(mode, low)), control), permission)
  {
    ClampShrinks(permission);
    ClampedTier(permission);
    ClampedTier("read-only");
  }

  // validate_permission: None and the empty string stand for the default tier.
  function ValidatePermission(value: Option<string>): Result<string, string> {
    if value == None || value == Some("") then Ok("safe-edit")
    else if Rank(value.value).Some? then Ok(value.value)
    else Err("Invalid permission")
  }

  // Exactly what each level of an enforcing breaker leaves of an admitted tier: everything below
  // constrained, the read-only kinds at constrained, nothing at stopped.
  lemma AdmittedTierByLevel(value: Option<string>, level: Level, control: Option<Control>)
    requires ValidatePermission(value).Ok?
    requires control.Some? ==> !control.value.cancelRequested && !control.value.breakerStopped && !control.value.constrained
    ensures var permission := ValidatePermission(value).value;
            KindsAt(Guard(Some(Live(Enforce, level)), control), permission) ==
            if level == Stopped then {}
            else if level == Constrained then READ_ONLY_KINDS
            else AllowableKinds(permission)
  {
    CanonicalTiers();
    ClampedTier(ValidatePermission(value).value);
  }

  // At constrained an admitted tier is held to the read-only kinds, whatever the control says.
  lemma ConstrainedIsReadOnly(value: Option<string>, control: Option<Control>)
    requires ValidatePermission(value).Ok?
    ensures KindsAt(Guard(Some(Live(Enforce, Constrained)), control), ValidatePermission(value).value) <= READ_ONLY_KINDS
  {
    CanonicalTiers();
    ClampedTier(ValidatePermission(value).value);
    ClampedTier("read-only");
  }

  // A spelling of a wider tier that the clamp does not know but the lookup does.  No admitted tier
  // is one.
  predicate Disguised(permission: string) {
    && (Text.Lower(permission) == "safe-edit" || Text.Lower(permission) == "yolo")
    && permission != "safe-edit" && permission != "yolo"
  }

  // The clamp on its own compares tiers with case where the lookup does not: for an arbitrary
  // string it holds every tool to the read-only kinds exactly when that is no such spelling.
  lemma ClampedStringIsReadOnlyIff(control: Option<Control>, permission: string)
    requires !Blocked(Guard(Some(Live(Enforce, Constrained)), control))
    ensures KindsAt(Guard(Some(Live(Enforce, Constrained)), control), permission) <= READ_ONLY_KINDS
            <==> !Disguised(permission)
  {
    CanonicalTiers();
    ClampedTier(permission);
    ClampedTier("read-only");
    assert Edit in SAFE_EDIT_KINDS && Edit in YOLO_KINDS && Edit !in READ_ONLY_KINDS;
  }

  // No answer at all at stopped, for every string and control state.
  lemma StoppedAnswersNothing(options: seq<Choice>, toolKind: ToolKind, permission: string, control: Option<Control>)
    ensures Answer(options, toolKind, permission, Guard(Some(Live(Enforce, Stopped)), control)).None?
  {}

  // ---------------------------------------------------------------------------------------
  // Which tool is approved, tier by tier
  // ---------------------------------------------------------------------------------------

  // No reject option can be selected.
  ghost predicate NoReject(options: seq<Choice>) {
    forall o :: o in options && (o.kind == RejectOnce || o.kind == RejectAlways) ==> o.optionId == None
  }

  predicate Reads(toolKind: ToolKind) {
    toolKind == ReadTool || toolKind == Fetch || toolKind == Search || toolKind == Think
  }

  predicate Acts(toolKind: ToolKind) {
    toolKind == Execute || toolKind == SwitchMode || toolKind == Move || toolKind == Other
  }

  lemma AllowableIff(toolKind: ToolKind, permission: string)
    ensures toolKind in AllowableKinds(permission) <==>
              var tier := Text.Lower(permission);
              || (Reads(toolKind) && (tier == "read-only" || tier == "safe-edit" || tier == "yolo"))
              || (toolKind == Edit && (tier == "safe-edit" || tier == "yolo"))
              || (Acts(toolKind) && tier == "yolo")
  {}

  lemma WithoutReject(options: seq<Choice>, toolKind: ToolKind, permission: string, g: Guard)
    requires NoReject(options)
    ensures Answer(options, toolKind, permission, g).Some? <==>
              !Blocked(g) && toolKind in AllowableKinds(Tier(g, permission)) && OffersAllow(options)
  {
    SilentIff(options, toolKind, permission, g);
  }

  // With nothing to restrain it and nothing to reject with, a tool is approved exactly if an
  // allow_once option is usable and the tier, in any letter case, is wide enough: every tier for
  // reading, fetching, searching and thinking, the upper two for an edit, the widest for executing,
  // moving, switching modes and the rest, and none for a kind that is not listed.
  lemma ApprovedByTier(options: seq<Choice>, toolKind: ToolKind, permission: string)
    requires NoReject(options)
    ensures Answer(options, toolKind, permission, Guard(None, None)).Some? <==>
              && OffersAllow(options)
              && match toolKind
                 case ReadTool | Fetch | Search | Think =>
                   || Text.Lower(permission) == "read-only" || Text.Lower(permission) == "safe-edit"
                   || Text.Lower(permission) == "yolo"
                 case Edit => Text.Lower(permission) == "safe-edit" || Text.Lower(permission) == "yolo"
                 case Execute | SwitchMode | Move | Other => Text.Lower(permission) == "yolo"
                 case Unlisted(_) => false
  {
    WithoutReject(options, toolKind, permission, Guard(None, None));
    AllowableIff(toolKind, permission);
  }

  // A guard that answers nothing: cancellation was requested, or the control log or an enforcing
  // breaker says stopped and no observing breaker overrules the log.
  lemma BlockedIff(g: Guard)
    ensures Blocked(g) <==>
              || (g.control.Some? && g.control.value.cancelRequested)
              || (g.control.Some? && g.control.value.breakerStopped
                  && (g.breaker == None || g.breaker.value.mode == Enforce))
              || (exists level :: g.breaker == Some(Live(Enforce, level)) && level == Stopped)
  {}

  // What holds every tool to reading: an enforcing breaker at constrained or above, or a control log
  // that says so unless an observing breaker overrules it.
  predicate Held(g: Guard) {
    || (g.breaker.Some? && g.breaker.value.mode == Enforce && g.breaker.value.level in {Constrained, Stopped})
    || (g.control.Some? && g.control.value.constrained && (g.breaker == None || g.breaker.value.mode == Enforce))
  }

  lemma HeldTier(g: Guard, permission: string)
    requires Rank(permission).Some?
    ensures Tier(g, permission) == if Held(g) then "read-only" else permission
  {
    ClampedTier(permission);
    ClampedTier("read-only");
  }

  // For every guard and every admitted tier: what is approved when nothing can be rejected with.
  // The default tier is the middle one.
  lemma ApprovedUnderGuard(options: seq<Choice>, toolKind: ToolKind, value: Option<string>, g: Guard)
    requires NoReject(options) && ValidatePermission(value).Ok?
    ensures Answer(options, toolKind, ValidatePermission(value).value, g).Some? <==>
              && OffersAllow(options)
              && !Blocked(g)
              && match toolKind
                 case ReadTool | Fetch | Search | Think => true
                 case Edit => !Held(g) && value != Some("read-only")
                 case Execute | SwitchMode | Move | Other => !Held(g) && value == Some("yolo")
                 case Unlisted(_) => false
  {
    var permission := ValidatePermission(value).value;
    WithoutReject(options, toolKind, permission, g);
    HeldTier(g, permission);
    KnownTierIff(toolKind, Tier(g, permission));
  }

  lemma KnownTierIff(toolKind: ToolKind, tier: string)
    requires Rank(tier).Some?
    ensures toolKind in AllowableKinds(tier) <==>
              || Reads(toolKind)
              || (toolKind == Edit && tier != "read-only")
              || (Acts(toolKind) && tier == "yolo")
  {
    AllowableIff(toolKind, tier);
    Text.LowerKeeps(tier);
  }

  lemma AdmittedTiers(value: Option<string>)
    ensures ValidatePermission(value).Ok? <==>
              || value == None || value == Some("") || value == Some("read-only") || value == Some("safe-edit")
              || value == Some("yolo")
  {}

  predicate RejectAt(options: seq<Choice>, i: nat)
    requires i < |options|
  {
    (options[i].kind == RejectOnce || options[i].kind == RejectAlways) && options[i].optionId.Some?
  }

  // A tool outside its tier is answered with the earliest reject option that has an id.
  lemma {:induction false} OutOfTierIsRejected(options: seq<Choice>, toolKind: ToolKind, permission: string, g: Guard, i: nat)
    requires i < |options| && RejectAt(options, i) && forall j: nat :: j < i ==> !RejectAt(options, j)
    requires !Blocked(g) && toolKind !in AllowableKinds(Tier(g, permission))
    ensures Answer(options, toolKind, permission, g) == options[i].optionId
    decreases i
  {
    assert !(exists j: nat :: j < i && RejectAt(options, j));
    if i > 0 {
      var rest := options[1..];
      assert !RejectAt(options, 0) && RejectAt(rest, i - 1);
      forall j: nat | j < i - 1 ensures !RejectAt(rest, j) { assert !RejectAt(options, j + 1); }
      OutOfTierIsRejected(rest, toolKind, permission, g, i - 1);
    }
  }

  lemma {:induction false} FirstAllowIs(options: seq<Choice>, i: nat)
    requires i < |options| && FirstAllowAt(options, i)
    ensures FirstOf(options, ALLOW_ONCE) == options[i].optionId
    decreases i
  {
    if i > 0 {
      assert FirstAllowAt(options[1..], i - 1);
      FirstAllowIs(options[1..], i - 1);
    } else {
      assert options[0].kind in ALLOW_ONCE;
    }
  }

  // A tool inside its tier is answered with the earliest allow_once option that has an id.
  lemma InTierIsAllowed(options: seq<Choice>, toolKind: ToolKind, permission: string, g: Guard, i: nat)
    requires i < |options| && FirstAllowAt(options, i)
    requires !Blocked(g) && toolKind in AllowableKinds(Tier(g, permission))
    ensures Answer(options, toolKind, permission, g) == options[i].optionId
  {
    FirstAllowIs(options, i);
  }

  // ---------------------------------------------------------------------------------------
  // Operator extensions
  // ---------------------------------------------------------------------------------------

  const MAX_EXTENSION_MS: int := 7 * 24 * 60 * 60 * 1000

  // The milliseconds of the commands that count: a duration from one to the longest allowed.
  function Queued(durations: seq<Option<int>>): nat {
    if durations == [] then 0
    else
      var last := durations[|durations| - 1];
      Queued(durations[..|durations| - 1])
      + if last.Some? && 1 <= last.value <= 7 * 24 * 60 * 60 * 1000 then last.value else 0
  }

  lemma {:induction false} QueuedParts(a: seq<Option<int>>, b: seq<Option<int>>)
    ensures Queued(a + b) == Queued(a) + Queued(b)
  {
    if b == [] {
      assert a + b == a;
    } else {
      assert (a + b)[..|a + b| - 1] == a + b[..|b| - 1];
      QueuedParts(a, b[..|b| - 1]);
    }
  }

  // Of these commands, what a run may still be given that may already last this long: seven days at
  // most in all.
  function Granted(maxRuntimeMs: int, durations: seq<Option<int>>): nat {
    var room := 7 * 24 * 60 * 60 * 1000 - maxRuntimeMs;
    if room <= 0 then 0 else if Queued(durations) <= room then Queued(durations) else room
  }

  lemma GrantedParts(maxRuntimeMs: int, a: seq<Option<int>>, b: seq<Option<int>>)
    ensures Granted(maxRuntimeMs, a + b) ==
            Granted(maxRuntimeMs, a) + Granted(maxRuntimeMs + Granted(maxRuntimeMs, a), b)
  {
    QueuedParts(a, b);
  }

  class RuntimeControl {
    var maxRuntimeMs: int
    var operatorExtensionMs: nat

    constructor (maxRuntimeMs: int)
      ensures this.maxRuntimeMs == maxRuntimeMs && operatorExtensionMs == 0
    {
      this.maxRuntimeMs, operatorExtensionMs := maxRuntimeMs, 0;
    }

    // refresh, under the control's own lock: apply the newly queued extend commands in order and
    // return what was added.  A duration of None is a command that came after the hard deadline.
    method Refresh(durations: seq<Option<int>>) returns (added: nat)
      modifies this
      ensures added == Granted(old(maxRuntimeMs), durations)
      ensures operatorExtensionMs == old(operatorExtensionMs) + added
      ensures maxRuntimeMs == old(maxRuntimeMs) + added
      ensures old(maxRuntimeMs) <= MAX_EXTENSION_MS ==> maxRuntimeMs <= MAX_EXTENSION_MS
      ensures old(maxRuntimeMs) >= MAX_EXTENSION_MS ==> added == 0
    {
      added := 0;
      for i := 0 to |durations|
        invariant operatorExtensionMs == old(operatorExtensionMs) + added
        invariant maxRuntimeMs == old(maxRuntimeMs) + added
        invariant added == Granted(old(maxRuntimeMs), durations[..i])
      {
        assert durations[..i + 1][..i] == durations[..i];
        if durations[i].Some? && 1 <= durations[i].value <= MAX_EXTENSION_MS {
          var capacity := if MAX_EXTENSION_MS - maxRuntimeMs > 0 then MAX_EXTENSION_MS - maxRuntimeMs else 0;
          var applied := if durations[i].value <= capacity then durations[i].value else capacity;
          added := added + applied;
          maxRuntimeMs := maxRuntimeMs + applied;
          operatorExtensionMs := operatorExtensionMs + applied;
        }
      }
      assert durations[..|durations|] == durations;
    }
  }

  // One wait slice of `request`: commands the reader thread picks up before and after the poll's
  // own refresh, those the poll picks up itself, and what the slice ends with.
  datatype Slice = Slice(
    early: seq<Option<int>>,
    own: seq<Option<int>>,
    late: seq<Option<int>>,
    answered: bool,
    stops: bool,                  // cancellation, containment or expiry raises out of the loop
    now: real)

  datatype Ending = Answered | TimedOut | Raised | Waiting

  function Max(a: int, b: int): int {
    if a >= b then a else b
  }

  // All commands that come to light in a slice.
  function Heard(s: Slice): seq<Option<int>> {
    s.early + s.own + s.late
  }

  function Commands(slices: seq<Slice>): seq<Option<int>> {
    if slices == [] then [] else Commands(slices[..|slices| - 1]) + Heard(slices[|slices| - 1])
  }

  // One poll: refresh, then fold the growth of operator_extension_ms into seen.
  method Poll(rc: RuntimeControl, s: Slice, seen: nat) returns (delta: nat, seen': nat)
    requires seen <= rc.operatorExtensionMs
    modifies rc
    ensures rc.operatorExtensionMs == old(rc.operatorExtensionMs) + Granted(old(rc.maxRuntimeMs), Heard(s))
    ensures rc.maxRuntimeMs == old(rc.maxRuntimeMs) + Granted(old(rc.maxRuntimeMs), Heard(s))
    ensures seen' == rc.operatorExtensionMs && delta == seen' - seen
  {
    GrantedParts(rc.maxRuntimeMs, s.early + s.own, s.late);
    GrantedParts(rc.maxRuntimeMs, s.early, s.own);
    var taken := rc.Refresh(s.early);
    var added := rc.Refresh(s.own);
    taken := rc.Refresh(s.late);
    var current := rc.operatorExtensionMs;
    delta := Max(added, Max(0, current - seen));
    seen' := seen;
    if delta > 0 { seen' := Max(seen + delta, current); }
  }

  function Allowance(timeout: real, addedMs: nat): real {
    var slice := timeout + addedMs as real / 1000.0;
    if slice >= 0.05 then slice else 0.05
  }

  // The timeout, with what was added before the request was sent, is at least a twentieth of a
  // second; what is added afterwards moves the deadline in full.
  function DeadlineAfter(start: real, timeout: real, early: nat, applied: nat): real {
    var first := timeout + early as real / 1000.0;
    start + (if first < 0.05 then 0.05 else first) + (applied - early) as real / 1000.0
  }

  lemma DeadlineMoves(start: real, timeout: real, early: nat, applied: nat, delta: nat)
    ensures DeadlineAfter(start, timeout, early, applied + delta) ==
            DeadlineAfter(start, timeout, early, applied) + delta as real / 1000.0
    ensures delta as real / 1000.0 >= 0.0
  {}

  // What a wait that has gone on without an end looks like: no answer, nothing to raise, and the
  // deadline as it came to be not reached.
  ghost predicate Uneventful(slices: seq<Slice>, deadline: real) {
    forall s :: s in slices ==> !s.answered && !s.stops && s.now < deadline
  }

  // request(): extensions, in milliseconds, move the deadline.  applied is what this request added
  // to its allowance, early of it before the request was sent; read is operator_extension_ms as
  // this request last folded it in; ended is the slice that ended it, if any did.
  method Request(rc: RuntimeControl, entry: Slice, timeout: real, start: real, slices: seq<Slice>)
    returns (ending: Ending, deadline: real, early: nat, applied: nat, read: nat, ended: nat)
    modifies rc
    ensures entry.stops ==> ending == Raised && ended == 0 && early == applied == 0
    ensures !entry.stops ==> early == Granted(old(rc.maxRuntimeMs), Heard(entry))
    ensures !entry.stops ==> deadline == DeadlineAfter(start, timeout, early, applied)
    ensures old(rc.operatorExtensionMs) <= read <= rc.operatorExtensionMs
    ensures applied == read - old(rc.operatorExtensionMs) && early <= applied
    ensures ending != Raised ==> read == rc.operatorExtensionMs
    ensures ended <= |slices| && Uneventful(slices[..ended], deadline)
    ensures ending == Waiting <==> !entry.stops && ended == |slices|
    ensures !entry.stops && ended < |slices| ==>
              var s := slices[ended];
              && (ending == Answered <==> s.answered)
              && (ending == Raised <==> !s.answered && s.stops)
              && (ending == TimedOut <==> !s.answered && !s.stops && s.now >= deadline)
    ensures !entry.stops ==>
              var polled := if ended < |slices| && ending == TimedOut then ended + 1 else ended;
              applied == Granted(old(rc.maxRuntimeMs), Heard(entry) + Commands(slices[..polled]))
  {
    read, applied, early, deadline, ended := rc.operatorExtensionMs, 0, 0, start, 0;
    ghost var before, limit := read, rc.maxRuntimeMs;
    var delta, seen := Poll(rc, entry, read);
    if entry.stops { return Raised, deadline, early, applied, read, ended; }
    early, applied, read := delta, delta, seen;
    deadline := start + Allowance(timeout, early);
    assert Heard(entry) + Commands(slices[..0]) == Heard(entry);
    while ended < |slices|
      invariant ended <= |slices|
      invariant read == rc.operatorExtensionMs && read == before + applied && early <= applied
      invariant deadline == DeadlineAfter(start, timeout, early, applied)
      invariant rc.maxRuntimeMs == limit + applied
      invariant applied == Granted(limit, Heard(entry) + Commands(slices[..ended]))
      invariant Uneventful(slices[..ended], deadline)
    {
      var s := slices[ended];
      if s.answered { return Answered, deadline, early, applied, read, ended; }
      ghost var was := deadline;
      MoreHeard(limit, Heard(entry), slices, ended);
      delta, seen := Poll(rc, s, read);
      if s.stops { return Raised, deadline, early, applied, read, ended; }
      DeadlineMoves(start, timeout, early, applied, delta);
      applied, read := applied + delta, seen;
      deadline := deadline + delta as real / 1000.0;
      LaterDeadline(slices, ended, was, deadline);
      if s.now >= deadline { return TimedOut, deadline, early, applied, read, ended; }
      ended := ended + 1;
    }
    return Waiting, deadline, early, applied, read, ended;
  }

  lemma MoreHeard(limit: int, entry: seq<Option<int>>, slices: seq<Slice>, i: nat)
    requires i < |slices|
    ensures var before := Granted(limit, entry + Commands(slices[..i]));
            Granted(limit, entry + Commands(slices[..i + 1])) == before + Granted(limit + before, Heard(slices[i]))
  {
    assert slices[..i + 1][..i] == slices[..i];
    assert entry + Commands(slices[..i + 1]) == entry + Commands(slices[..i]) + Heard(slices[i]);
    GrantedParts(limit, entry + Commands(slices[..i]), Heard(slices[i]));
  }

  lemma LaterDeadline(slices: seq<Slice>, i: nat, was: real, deadline: real)
    requires i < |slices| && Uneventful(slices[..i], was) && was <= deadline
    ensures Uneventful(slices[..i], deadline)
    ensures !slices[i].answered && !slices[i].stops && slices[i].now < deadline ==> Uneventful(slices[..i + 1], deadline)
  {
    assert slices[..i + 1] == slices[..i] + [slices[i]];
  }

  // ---------------------------------------------------------------------------------------
  // Bounded turn text
  // ---------------------------------------------------------------------------------------

  const MAX_TEXT_CHARS: nat := 200_000

  function Joined(chunks: seq<string>): string {
    if chunks == [] then "" else Joined(chunks[..|chunks| - 1]) + chunks[|chunks| - 1]
  }

  function Clip(s: string): string {
    if |s| <= MAX_TEXT_CHARS then s else s[..MAX_TEXT_CHARS]
  }

  class TurnState {
    var text: seq<string>
    var textChars: nat
    var truncated: bool
    var meaningfulEvents: nat
    ghost var received: seq<string>      // every chunk ever added
    ghost var surplus: bool              // a chunk arrived when the text was already full

    ghost predicate Valid()
      reads this
    {
      && Joined(text) == Clip(Joined(received))
      && textChars == |Joined(text)|
      && meaningfulEvents == |received|
      && (truncated <==> |Joined(received)| > MAX_TEXT_CHARS || surplus)
      && (surplus ==> textChars == MAX_TEXT_CHARS)
    }

    constructor ()
      ensures Valid() && received == []
    {
      text, textChars, truncated, meaningfulEvents := [], 0, false, 0;
      received, surplus := [], false;
    }

    // The text is always the first 200,000 characters of everything received, and it is marked
    // truncated when something was cut, or when a chunk came after it was full.
    method AddText(chunk: string)
      requires Valid()
      modifies this
      ensures Valid() && received == old(received) + [chunk]
      ensures truncated <==> |Joined(received)| > MAX_TEXT_CHARS || old(truncated) || old(textChars) == MAX_TEXT_CHARS
    {
      JoinedMore(received, chunk);
      ClipMore(Joined(received), chunk);
      received := received + [chunk];
      meaningfulEvents := meaningfulEvents + 1;
      var room := MAX_TEXT_CHARS - textChars;
      if room <= 0 {
        truncated, surplus := true, true;
      } else {
        var piece := if |chunk| > room then chunk[..room] else chunk;
        truncated := truncated || |chunk| > room;
        JoinedMore(text, piece);
        text := text + [piece];
        textChars := textChars + |piece|;
      }
    }
  }

  lemma ClipMore(all: string, chunk: string)
    ensures var room := MAX_TEXT_CHARS - |Clip(all)|;
            Clip(all + chunk) == Clip(all) + if |chunk| > room then chunk[..room] else chunk
  {}

  lemma JoinedMore(chunks: seq<string>, chunk: string)
    ensures Joined(chunks + [chunk]) == Joined(chunks) + chunk
  {
    assert (chunks + [chunk])[..|chunks|] == chunks;
  }
}
