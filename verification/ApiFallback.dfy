/** One API call: a request to the configured endpoint and, behind its gates, one retry on the
  * pay-as-you-go companion of a Coding Plan endpoint, inside one wall-clock budget.
  */
module ApiFallback {
  import opened Wrappers
  import opened Text
  import opened RouteRewrite

  // The operator's surfaces that may allow per-token billing.
  datatype Consent = Consent(flag: bool, freshOnly: bool, env: Option<string>, preference: bool)

  // A base URL and how the route predicates classify it.
  datatype Endpoint = Endpoint(url: Url, coding: bool, zai: bool, platform: bool, payg: Option<Url>)

  datatype Invocation = Invocation(
    model: string,
    base: Option<Endpoint>,
    keyEnv: string,
    modelRefused: bool,
    keyMissing: bool,
    keyChanged: bool,
    consent: Consent)

  // How the endpoint answered a request that was opened.
  datatype Answer =
    | Success
    | HttpError(code: int, detail: string, reason: string)
    | Unreachable
    | BadResponse
    | BadShape

  // One physical attempt as the environment decides it: whether the body fits the transport
  // ceiling, whether the launch control lets it pass, and when it opens and closes, in seconds.
  datatype Attempt = Attempt(fits: bool, passes: bool, opens: real, closes: real, answer: Answer)

  datatype Control = NoControl | Control(allowSecondary: bool)

  // Submission accounting, when supplied, settles the first request and prepares and settles a child.
  datatype Accounting = NoAccounting | Accounting(settlesRoot: bool, preparesChild: bool, settlesChild: bool)

  // start is the clock reading that fixes the wall deadline, checked the one before a retry.
  datatype World = World(
    start: real, first: Attempt, checked: real, second: Attempt, control: Control, accounting: Accounting)

  datatype Event =
    | Request(url: Url, timeout: real, opens: real, closes: real)
    | SettleRoot(ok: bool)
    | PrepareChild(ok: bool)
    | SettleChild(ok: bool)

  datatype Submission = NotSubmitted | Submitted | Indeterminate

  datatype Billing = NoBilling | PlanQuota | PayAsYouGo

  datatype ErrorKind = ConsentMissing | CredentialMissing | TransportBudget | AccountingUnavailable

  datatype Response = Response(
    success: bool, submission: Submission, worthy: bool, billing: Billing, fallback: bool,
    uncertainSpend: bool, kind: Option<ErrorKind>)

  // ---------------------------------------------------------------------------------------
  // Consent and worthiness
  // ---------------------------------------------------------------------------------------

  function PaygConsent(c: Consent): bool {
    if c.flag then true
    else if c.freshOnly then false
    else c.env == Some("1") || c.preference
  }

  predicate HasWordAt(s: string, i: nat, word: string) {
    i + |word| <= |s| && s[i..i + |word|] == word
  }

  predicate HasWord(s: string, word: string) {
    exists i :: 0 <= i <= |s| && HasWordAt(s, i, word)
  }

  // is_payg_fallback_worthy
  function Worthy(code: Option<int>, detail: string): bool {
    if code.None? then false
    else if code.value == 401 || code.value == 403 || code.value >= 500 then false
    else if code.value == 429 then true
    else if !(400 <= code.value < 500) then false
    else PlanLimited(Lower(detail))
  }

  predicate PlanLimited(low: string) {
    || HasWord(low, "unsupportedmodel") || HasWord(low, "does not support the coding plan")
    || HasWord(low, "quota")
    || (HasWord(low, "plan") && (HasWord(low, "limit") || HasWord(low, "exceed")))
    || (HasWord(low, "rate") && HasWord(low, "limit"))
  }

  function Detail(a: Answer): string
    requires a.HttpError?
  {
    var read := if |a.detail| > 500 then a.detail[..500] else a.detail;
    if read == "" then a.reason else read
  }

  lemma WordKept(s: string, before: string, after: string, word: string)
    requires HasWord(s, word)
    ensures HasWord(before + s + after, word)
  {
    var i :| 0 <= i <= |s| && HasWordAt(s, i, word);
    var t := before + s + after;
    assert t[|before|..|before| + |s|] == s;
    assert t[|before| + i..|before| + i + |word|] == s[i..i + |word|];
    assert HasWordAt(t, |before| + i, word);
  }

  lemma LimitKept(s: string, before: string, after: string)
    requires PlanLimited(s)
    ensures PlanLimited(before + s + after)
  {
    if HasWord(s, "unsupportedmodel") { WordKept(s, before, after, "unsupportedmodel"); }
    if HasWord(s, "does not support the coding plan") { WordKept(s, before, after, "does not support the coding plan"); }
    if HasWord(s, "quota") { WordKept(s, before, after, "quota"); }
    if HasWord(s, "plan") { WordKept(s, before, after, "plan"); }
    if HasWord(s, "limit") { WordKept(s, before, after, "limit"); }
    if HasWord(s, "exceed") { WordKept(s, before, after, "exceed"); }
    if HasWord(s, "rate") { WordKept(s, before, after, "rate"); }
  }

  // Only a client error other than 401 and 403 is worth a retry, whatever its text says, and
  // wrapping the text in more text or changing its case never makes it less worthy.
  lemma WorthyIsMonotone(code: Option<int>, detail: string, other: string, before: string, after: string)
    requires Worthy(code, detail) && Lower(other) == Lower(detail)
    ensures Worthy(code, before + other + after)
    ensures code.Some? && 400 <= code.value < 500 && code.value != 401 && code.value != 403
  {
    if code.value != 429 {
      LowerParts(before + other, after);
      LowerParts(before, other);
      LimitKept(Lower(detail), Lower(before), Lower(after));
    }
  }

  lemma HasWordIff(s: string, word: string)
    ensures HasWord(s, word) <==> exists before, after {:trigger before + word + after} :: s == before + word + after
  {
    if HasWord(s, word) {
      var i :| 0 <= i <= |s| && HasWordAt(s, i, word);
      assert s == s[..i] + word + s[i + |word|..];
    }
    if before, after :| s == before + word + after {
      assert HasWordAt(s, |before|, word);
    }
  }

  // A text that says one of these things, in any letter case, makes any client error but 401 and 403
  // worth a retry: that the model is unsupported, that the quota is used up, that a plan limit was
  // exceeded, or that the rate is limited.
  lemma PlanTextIsWorthy(code: int, detail: string, before: string, said: string, between: string, also: string, after: string)
    requires 400 <= code < 500 && code != 401 && code != 403
    requires Lower(detail) == before + said + (between + also + after)
    requires || said in ["unsupportedmodel", "does not support the coding plan", "quota"]
             || (said == "plan" && (also == "limit" || also == "exceed"))
             || (said == "rate" && also == "limit")
    ensures Worthy(Some(code), detail)
  {
    var low := Lower(detail);
    HasWordIff(low, said);
    HasWordIff(low, also);
    assert low == (before + said + between) + also + after;
  }

  // A text that says none of them is worth a retry only for a rate limit by its code.
  lemma OtherTextIsNot(code: int, detail: string)
    requires !HasWord(Lower(detail), "unsupportedmodel") && !HasWord(Lower(detail), "does not support the coding plan")
    requires !HasWord(Lower(detail), "quota")
    requires HasWord(Lower(detail), "plan") ==> !HasWord(Lower(detail), "limit") && !HasWord(Lower(detail), "exceed")
    requires HasWord(Lower(detail), "rate") ==> !HasWord(Lower(detail), "limit")
    ensures Worthy(Some(code), detail) <==> code == 429
  {}

  // ---------------------------------------------------------------------------------------
  // Time
  // ---------------------------------------------------------------------------------------

  // max(1, ms / 1000), in seconds
  function Seconds(ms: int): real {
    if ms <= 1000 then 1.0 else ms as real / 1000.0
  }

  // int(x): truncation toward zero
  function Truncate(x: real): int {
    if x >= 0.0 then x.Floor else -((-x).Floor)
  }

  function Deadline(start: real, timeoutMs: int): real {
    start + Seconds(timeoutMs)
  }

  function RemainingMs(deadline: real, now: real): int {
    Truncate((deadline - now) * 1000.0)
  }

  // ---------------------------------------------------------------------------------------
  // What a call does
  // ---------------------------------------------------------------------------------------

  predicate Blank(s: string) {
    forall i :: 0 <= i < |s| ==> s[i] == ' ' || '\t' <= s[i] <= '\r' || '\U{1c}' <= s[i] <= '\U{1f}'
  }

  predicate Refused(inv: Invocation) {
    || inv.model == "" || inv.base.None? || inv.modelRefused
    || (inv.base.value.platform && (!PaygConsent(inv.consent) || Blank(inv.keyEnv)))
    || (inv.keyEnv != "" && inv.keyMissing)
    || inv.keyChanged
  }

  // The refusal that asks for consent.
  predicate LacksConsent(inv: Invocation) {
    && inv.model != "" && inv.base.Some? && !inv.modelRefused
    && inv.base.value.platform && !PaygConsent(inv.consent)
  }

  predicate Opens(a: Attempt, control: Control) {
    a.fits && (control.NoControl? || a.passes)
  }

  function Classify(u: Url): Endpoint {
    Endpoint(u, CodingPlan(Some(u)), ZaiCodingPlan(Some(u)), Platform(Some(u)), CodingToPayg(Some(u)))
  }

  ghost predicate Classified(inv: Invocation) {
    inv.base.Some? ==> inv.base.value == Classify(inv.base.value.url)
  }

  // The answer that makes a retry worth its bill.
  predicate WorthyAnswer(e: Endpoint, a: Answer) {
    a.HttpError? && e.coding && !e.zai && Worthy(Some(a.code), Detail(a))
  }

  lemma LimitIsWorthy(e: Endpoint, a: Answer)
    requires a.HttpError? && a.code == 429
    ensures WorthyAnswer(e, a) <==> e.coding && !e.zai
  {}

  // The gates before the clock is read again.
  predicate ReadsClock(inv: Invocation, w: World) {
    && !Refused(inv) && Opens(w.first, w.control) && WorthyAnswer(inv.base.value, w.first.answer)
    && (w.control.NoControl? || w.control.allowSecondary)
    && PaygConsent(inv.consent)
    && inv.base.value.payg.Some?
  }

  // The gates before the accounting.
  predicate Eligible(inv: Invocation, timeoutMs: int, w: World) {
    ReadsClock(inv, w) && RemainingMs(Deadline(w.start, timeoutMs), w.checked) >= 1000
  }

  // Every gate before the accounting child.
  predicate MayRetry(inv: Invocation, timeoutMs: int, w: World) {
    Eligible(inv, timeoutMs, w) && (w.accounting.NoAccounting? || w.accounting.settlesRoot)
  }

  predicate Retries(inv: Invocation, timeoutMs: int, w: World) {
    && MayRetry(inv, timeoutMs, w)
    && (w.accounting.NoAccounting? || w.accounting.preparesChild)
    && Opens(w.second, w.control)
  }

  function Attempted(url: Url, ms: int, a: Attempt, control: Control): seq<Event> {
    if Opens(a, control) then [Request(url, Seconds(ms), a.opens, a.closes)] else []
  }

  function FirstPart(inv: Invocation, timeoutMs: int, w: World): seq<Event>
    requires !Refused(inv)
  {
    Attempted(inv.base.value.url, timeoutMs, w.first, w.control)
    + if w.accounting.Accounting? then [SettleRoot(w.accounting.settlesRoot)] else []
  }

  function SecondPart(inv: Invocation, timeoutMs: int, w: World): seq<Event>
    requires MayRetry(inv, timeoutMs, w)
  {
    var ms := RemainingMs(Deadline(w.start, timeoutMs), w.checked);
    var retry := Attempted(inv.base.value.payg.value, ms, w.second, w.control);
    match w.accounting
    case NoAccounting => retry
    case Accounting(_, prepares, settles) =>
      if prepares then [PrepareChild(true)] + retry + [SettleChild(settles)] else [PrepareChild(false)]
  }

  // The requests and accounting steps of one call, in order.
  function CallTrace(inv: Invocation, timeoutMs: int, w: World): seq<Event> {
    if Refused(inv) then []
    else FirstPart(inv, timeoutMs, w) + if MayRetry(inv, timeoutMs, w) then SecondPart(inv, timeoutMs, w) else []
  }

  function PlanBilling(e: Endpoint): Billing {
    if e.zai || e.coding then PlanQuota else NoBilling
  }

  // The request was opened and nobody knows whether the endpoint took it.
  predicate Lost(a: Answer) {
    a == Unreachable || a == BadResponse
  }

  // A child of the accounting was prepared for the retry.
  predicate Prepared(inv: Invocation, timeoutMs: int, w: World) {
    MayRetry(inv, timeoutMs, w) && w.accounting.Accounting? && w.accounting.preparesChild
  }

  const REFUSAL := Response(false, NotSubmitted, false, NoBilling, false, false, None)

  class Backend {
    var trace: seq<Event>

    // _do_request
    method DoRequest(e: Endpoint, timeoutMs: int, a: Attempt, control: Control) returns (r: Response)
      modifies this
      ensures trace == old(trace) + Attempted(e.url, timeoutMs, a, control)
      ensures Opens(a, control) <==> r.submission != NotSubmitted
      ensures r.success <==> Opens(a, control) && a.answer == Success
      ensures r.submission == Indeterminate <==> Opens(a, control) && Lost(a.answer)
      ensures r.worthy <==> Opens(a, control) && WorthyAnswer(e, a.answer)
      ensures r.billing == if r.success && (e.coding || e.zai) then PlanQuota else NoBilling
      ensures r.kind == if a.fits then None else Some(TransportBudget)
      ensures r.uncertainSpend <==> r.submission == Indeterminate
      ensures !r.fallback
    {
      if !a.fits { return REFUSAL.(kind := Some(TransportBudget)); }
      if control.Control? && !a.passes { return REFUSAL; }
      trace := trace + [Request(e.url, Seconds(timeoutMs), a.opens, a.closes)];
      match a.answer
      case Success => r := Response(true, Submitted, false, PlanBilling(e), false, false, None);
      case HttpError(code, _, _) =>
        r := REFUSAL.(submission := Submitted, worthy := e.coding && !e.zai && Worthy(Some(code), Detail(a.answer)));
      case Unreachable => r := REFUSAL.(submission := Indeterminate, uncertainSpend := true);
      case BadResponse => r := REFUSAL.(submission := Indeterminate, uncertainSpend := true);
      case BadShape => r := REFUSAL.(submission := Submitted);
    }

    // The refusals of call that precede any request.
    method Preflight(inv: Invocation) returns (refusal: Option<Response>)
      ensures refusal.Some? <==> Refused(inv)
      ensures refusal.Some? ==> refusal.value == REFUSAL.(kind := refusal.value.kind)
      ensures refusal.Some? && refusal.value.kind == Some(ConsentMissing) <==> LacksConsent(inv)
      ensures refusal.Some? ==> refusal.value.kind in {None, Some(ConsentMissing), Some(CredentialMissing)}
    {
      if inv.model == "" || inv.base.None? || inv.modelRefused { return Some(REFUSAL); }
      if inv.base.value.platform && !PaygConsent(inv.consent) { return Some(REFUSAL.(kind := Some(ConsentMissing))); }
      if inv.base.value.platform && Blank(inv.keyEnv) { return Some(REFUSAL.(kind := Some(CredentialMissing))); }
      if inv.keyEnv != "" && inv.keyMissing { return Some(REFUSAL.(kind := Some(CredentialMissing))); }
      return if inv.keyChanged then Some(REFUSAL) else None;
    }

    // The end of call: the second request, once its gates are open.
    method Retry(inv: Invocation, timeoutMs: int, w: World, url: Url, remaining: int, primary: Response)
      returns (r: Response)
      requires Eligible(inv, timeoutMs, w) && inv.base.value.payg == Some(url)
      requires remaining == RemainingMs(Deadline(w.start, timeoutMs), w.checked)
      requires !primary.success && primary.submission == Submitted && primary.billing == NoBilling
      requires primary.kind == None
      requires !primary.worthy && !primary.fallback && !primary.uncertainSpend
      modifies this
      ensures trace == old(trace) + if MayRetry(inv, timeoutMs, w) then SecondPart(inv, timeoutMs, w) else []
      ensures !r.worthy && (r.fallback <==> r.success)
      ensures r.success <==> Retries(inv, timeoutMs, w) && w.second.answer == Success
      ensures r.billing == if r.success then PayAsYouGo else NoBilling
      ensures r.submission == NotSubmitted <==> Stopped(inv, timeoutMs, w)
      ensures r.submission == Indeterminate <==> Retries(inv, timeoutMs, w) && Lost(w.second.answer)
      ensures r.uncertainSpend <==>
                r.submission == Indeterminate || (Prepared(inv, timeoutMs, w) && !w.accounting.settlesChild)
      ensures r.kind == Some(AccountingUnavailable) <==> w.accounting.Accounting? && !Prepared(inv, timeoutMs, w)
      ensures r.kind != Some(ConsentMissing)
    {
      r := primary;
      if w.accounting.Accounting? {
        if !w.accounting.settlesRoot { return r.(kind := Some(AccountingUnavailable)); }
        trace := trace + [PrepareChild(w.accounting.preparesChild)];
        if !w.accounting.preparesChild { return r.(kind := Some(AccountingUnavailable)); }
      }
      r := DoRequest(Classify(url), remaining, w.second, w.control);
      if w.accounting.Accounting? {
        trace := trace + [SettleChild(w.accounting.settlesChild)];
        if !w.accounting.settlesChild { r := r.(uncertainSpend := true); }
      }
      r := r.(worthy := false);
      if r.success { r := r.(billing := PayAsYouGo, fallback := true); }
    }

    // call
    method Call(inv: Invocation, timeoutMs: int, w: World) returns (r: Response)
      modifies this
      ensures trace == old(trace) + CallTrace(inv, timeoutMs, w)
      ensures !r.worthy
      ensures r.fallback <==> Retries(inv, timeoutMs, w) && w.second.answer == Success
      ensures !Refused(inv) || !r.success
      ensures r.success && !r.fallback <==> !Refused(inv) && Opens(w.first, w.control) && w.first.answer == Success
      ensures r.billing == if !r.success then NoBilling
                           else if r.fallback then PayAsYouGo
                           else if inv.base.value.coding || inv.base.value.zai then PlanQuota
                           else NoBilling
      ensures r.submission == NotSubmitted <==>
                Refused(inv) || !Opens(w.first, w.control) || Stopped(inv, timeoutMs, w)
      ensures r.submission == Indeterminate <==>
                if Retries(inv, timeoutMs, w) then Lost(w.second.answer)
                else !Refused(inv) && Opens(w.first, w.control) && Lost(w.first.answer)
      ensures r.uncertainSpend <==>
                r.submission == Indeterminate || (Prepared(inv, timeoutMs, w) && !w.accounting.settlesChild)
      ensures r.kind == Some(ConsentMissing) <==> LacksConsent(inv)
      ensures r.kind == Some(AccountingUnavailable) <==>
                Eligible(inv, timeoutMs, w) && w.accounting.Accounting? && !Prepared(inv, timeoutMs, w)
    {
      var refusal := Preflight(inv);
      if refusal.Some? { return refusal.value; }
      var deadline := w.start + Seconds(timeoutMs);
      r := DoRequest(inv.base.value, timeoutMs, w.first, w.control);
      if w.accounting.Accounting? { trace := trace + [SettleRoot(w.accounting.settlesRoot)]; }
      var worthy := !r.success && r.worthy && (w.control.NoControl? || w.control.allowSecondary);
      r := r.(worthy := false);
      if !worthy || !PaygConsent(inv.consent) { return; }
      if inv.base.value.payg.None? { return; }
      var remaining := Truncate((deadline - w.checked) * 1000.0);
      if remaining < 1000 { return; }
      r := Retry(inv, timeoutMs, w, inv.base.value.payg.value, remaining, r);
    }
  }

  // The retry was stopped after its gates and before it opened: its answer says that nothing was
  // submitted, although the first request was.
  predicate Stopped(inv: Invocation, timeoutMs: int, w: World) {
    && MayRetry(inv, timeoutMs, w)
    && (w.accounting.NoAccounting? || w.accounting.preparesChild)
    && !Opens(w.second, w.control)
  }

  // The first request is rate-limited after a second, and the control lets the retry pass or not.
  function LimitedWorld(passes: bool): World {
    var limited := Attempt(true, true, 0.0, 1.0, HttpError(429, "", ""));
    World(0.0, limited, 1.0, Attempt(true, passes, 1.0, 2.0, Success), Control(true), NoAccounting)
  }

  function LimitedCall(u: Url): Invocation {
    Invocation("model", Some(Classify(u)), "", false, false, false, Consent(true, false, None, false))
  }

  lemma LimitedIsEligible(u: Url, inv: Invocation, w: World, passes: bool)
    requires Classify(u).coding && !Classify(u).zai && !Classify(u).platform && Classify(u).payg.Some?
    requires inv == LimitedCall(u) && w == LimitedWorld(passes)
    ensures Classified(inv) && MayRetry(inv, 5000, w) && (Retries(inv, 5000, w) <==> passes)
    ensures Stopped(inv, 5000, w) <==> !passes
    ensures RemainingMs(Deadline(0.0, 5000), 1.0) == 4000
  {
    LimitIsWorthy(inv.base.value, w.first.answer);
    FourSeconds();
  }

  lemma FourSeconds()
    ensures RemainingMs(Deadline(0.0, 5000), 1.0) == 4000
  {}

  // A retry stopped after its first request was submitted: the control refuses the second launch.
  lemma StoppedAfterSubmission() returns (inv: Invocation, w: World)
    ensures Classified(inv) && Stopped(inv, 5000, w)
    ensures |CallTrace(inv, 5000, w)| == 1 && CallTrace(inv, 5000, w)[0].Request?
  {
    var u := Url("https", "volces.com", "volces.com", CODING, "", "");
    PlainCodingUrl(u);
    inv, w := LimitedCall(u), LimitedWorld(false);
    LimitedIsEligible(u, inv, w, false);
  }

  // ---------------------------------------------------------------------------------------
  // Two requests at most, and what stands behind the second
  // ---------------------------------------------------------------------------------------

  function Requests(trace: seq<Event>): (n: nat)
    ensures n <= |trace|
  {
    if trace == [] then 0 else (if trace[0].Request? then 1 else 0) + Requests(trace[1..])
  }

  lemma {:induction false} RequestsOfParts(a: seq<Event>, b: seq<Event>)
    ensures Requests(a + b) == Requests(a) + Requests(b)
  {
    if a == [] {
      assert a + b == b;
    } else {
      assert (a + b)[1..] == a[1..] + b;
      RequestsOfParts(a[1..], b);
    }
  }

  lemma FirstPartRequests(inv: Invocation, timeoutMs: int, w: World)
    requires !Refused(inv)
    ensures Requests(FirstPart(inv, timeoutMs, w)) == if Opens(w.first, w.control) then 1 else 0
  {
    RequestsOfParts(Attempted(inv.base.value.url, timeoutMs, w.first, w.control),
                    if w.accounting.Accounting? then [SettleRoot(w.accounting.settlesRoot)] else []);
  }

  lemma SecondPartRequests(inv: Invocation, timeoutMs: int, w: World)
    requires MayRetry(inv, timeoutMs, w)
    ensures Requests(SecondPart(inv, timeoutMs, w)) == if Retries(inv, timeoutMs, w) then 1 else 0
  {
    var ms := RemainingMs(Deadline(w.start, timeoutMs), w.checked);
    var retry := Attempted(inv.base.value.payg.value, ms, w.second, w.control);
    assert Requests(retry) == if Opens(w.second, w.control) then 1 else 0;
    if w.accounting.Accounting? && w.accounting.preparesChild {
      RequestsOfParts([PrepareChild(true)] + retry, [SettleChild(w.accounting.settlesChild)]);
      RequestsOfParts([PrepareChild(true)], retry);
    }
  }

  // A call opens two requests exactly when every gate lets the retry through, and never more.
  lemma TwoRequestsIff(inv: Invocation, timeoutMs: int, w: World)
    ensures Requests(CallTrace(inv, timeoutMs, w)) <= 2
    ensures Requests(CallTrace(inv, timeoutMs, w)) == 2 <==> Retries(inv, timeoutMs, w)
    ensures Requests(CallTrace(inv, timeoutMs, w)) == 0 <==> Refused(inv) || !Opens(w.first, w.control)
  {
    if !Refused(inv) {
      FirstPartRequests(inv, timeoutMs, w);
      if MayRetry(inv, timeoutMs, w) {
        SecondPartRequests(inv, timeoutMs, w);
        RequestsOfParts(FirstPart(inv, timeoutMs, w), SecondPart(inv, timeoutMs, w));
      } else {
        assert CallTrace(inv, timeoutMs, w) == FirstPart(inv, timeoutMs, w);
      }
    }
  }

  lemma RemainingFits(deadline: real, now: real)
    requires RemainingMs(deadline, now) >= 1000
    ensures deadline - now - 0.001 < Seconds(RemainingMs(deadline, now)) <= deadline - now
  {
    var x := (deadline - now) * 1000.0;
    assert x >= 0.0;
    var ms := x.Floor;
    assert ms as real <= x < ms as real + 1.0;
    assert Seconds(ms) == ms as real / 1000.0;
  }

  ghost predicate Between(trace: seq<Event>, i: nat, j: nat, e: Event) {
    exists k :: i < k < j < |trace| && trace[k] == e
  }

  // Whatever the gates, the accounting and the endpoint do: a request that follows another in a
  // call's trace goes to the rewritten URL with no more time than was left, at least a second; and
  // with accounting the first request was settled and the child prepared in between, in this order.
  lemma LaterRequestIsBacked(inv: Invocation, timeoutMs: int, w: World, i: nat, j: nat)
    requires i < j < |CallTrace(inv, timeoutMs, w)|
    requires CallTrace(inv, timeoutMs, w)[i].Request? && CallTrace(inv, timeoutMs, w)[j].Request?
    ensures var t := CallTrace(inv, timeoutMs, w);
            && t[i].url == inv.base.value.url && inv.base.value.payg == Some(t[j].url)
            && 1.0 <= t[j].timeout <= Deadline(w.start, timeoutMs) - w.checked
            && (w.accounting.Accounting? ==>
                  exists k :: i < k < j && t[k] == SettleRoot(true) && Between(t, k, j, PrepareChild(true)))
  {
    var t := CallTrace(inv, timeoutMs, w);
    OnlyRetryFollows(inv, timeoutMs, w, i, j);
    RemainingFits(Deadline(w.start, timeoutMs), w.checked);
    if w.accounting.Accounting? {
      assert t[1] == SettleRoot(true) && t[2] == PrepareChild(true);
      assert Between(t, 1, j, PrepareChild(true));
    }
  }

  // The first event of a call that contacts anyone is the request to the configured URL, with the
  // whole budget, which is at least a second.
  lemma FirstRequestIs(inv: Invocation, timeoutMs: int, w: World)
    requires Requests(CallTrace(inv, timeoutMs, w)) > 0
    ensures var t := CallTrace(inv, timeoutMs, w);
            && t != [] && t[0].Request? && inv.base.Some? && t[0].url == inv.base.value.url
            && t[0].timeout == (if timeoutMs > 1000 then timeoutMs as real / 1000.0 else 1.0)
            && t[0].opens == w.first.opens && t[0].closes == w.first.closes
  {
    TwoRequestsIff(inv, timeoutMs, w);
  }

  // Of a long answer the first 500 characters decide, and without any the reason phrase does.
  lemma AnswerIsReadTo500(e: Endpoint, code: int, read: string, rest: string, reason: string)
    requires read == "" ==> rest == ""
    requires rest != "" ==> |read| == 500
    requires |read| <= 500
    ensures WorthyAnswer(e, HttpError(code, read + rest, reason)) <==>
              e.coding && !e.zai && Worthy(Some(code), if read == "" then reason else read)
  {
    if |read + rest| > 500 {
      assert (read + rest)[..500] == read;
    } else {
      assert read + rest == read;
    }
  }

  lemma OnlyRetryFollows(inv: Invocation, timeoutMs: int, w: World, i: nat, j: nat)
    requires i < j < |CallTrace(inv, timeoutMs, w)|
    requires CallTrace(inv, timeoutMs, w)[i].Request? && CallTrace(inv, timeoutMs, w)[j].Request?
    ensures Retries(inv, timeoutMs, w) && i == 0 && j == if w.accounting.Accounting? then 3 else 1
  {
    var first := FirstPart(inv, timeoutMs, w);
    assert forall k :: 1 <= k < |first| ==> !first[k].Request?;
    assert !MayRetry(inv, timeoutMs, w) ==> CallTrace(inv, timeoutMs, w) == first;
    if MayRetry(inv, timeoutMs, w) {
      var second := SecondPart(inv, timeoutMs, w);
      assert CallTrace(inv, timeoutMs, w) == first + second;
      assert forall k :: 0 <= k < |second| && second[k].Request? ==> k == if w.accounting.Accounting? then 1 else 0;
    }
  }

  lemma WorthyIsClientError(code: int, detail: string)
    requires Worthy(Some(code), detail)
    ensures 400 <= code < 500 && code != 401 && code != 403
  {}

  // A retry follows a client error other than 401 and 403 of a Coding Plan request, has the
  // operator's consent, and goes to a Platform URL under the same scheme and authority.
  lemma RetryIsGated(inv: Invocation, timeoutMs: int, w: World)
    ensures Classified(inv) && Requests(CallTrace(inv, timeoutMs, w)) == 2 ==>
              && w.first.answer.HttpError? && 400 <= w.first.answer.code < 500
              && w.first.answer.code != 401 && w.first.answer.code != 403
              && (inv.consent.flag
                  || (!inv.consent.freshOnly && (inv.consent.env == Some("1") || inv.consent.preference)))
              && (w.control.NoControl? || w.control.allowSecondary)
              && CodingPlan(Some(inv.base.value.url)) && Platform(inv.base.value.payg)
              && inv.base.value.payg.value.netloc == inv.base.value.url.netloc
              && inv.base.value.payg.value.scheme == inv.base.value.url.scheme
  {
    TwoRequestsIff(inv, timeoutMs, w);
    if Classified(inv) && Retries(inv, timeoutMs, w) {
      WorthyIsClientError(w.first.answer.code, Detail(w.first.answer));
      RewriteLeavesSubscription(Some(inv.base.value.url));
    }
  }

  // No per-token request without consent: a Platform URL is contacted, first or second, only with
  // the flag or, unless fresh consent is demanded, the environment or the preference.
  lemma PlatformNeedsConsent(inv: Invocation, timeoutMs: int, w: World, e: Event)
    ensures Classified(inv) && e in CallTrace(inv, timeoutMs, w) && e.Request? && Platform(Some(e.url)) ==>
              var c := inv.consent;
              c.flag || (!c.freshOnly && (c.env == Some("1") || c.preference))
  {
    if Classified(inv) && e in CallTrace(inv, timeoutMs, w) && e.Request? && Platform(Some(e.url)) {
      if e !in FirstPart(inv, timeoutMs, w) {
        assert MayRetry(inv, timeoutMs, w);
      } else {
        assert e.url == inv.base.value.url;
      }
    }
  }

  // A call contacts nobody exactly when it is refused for one of these reasons, or its request is
  // stopped before it opens.
  lemma SilentCallIff(inv: Invocation, timeoutMs: int, w: World)
    requires Classified(inv)
    ensures Requests(CallTrace(inv, timeoutMs, w)) == 0 <==>
              || inv.model == "" || inv.base == None || inv.modelRefused || inv.keyChanged
              || (inv.keyEnv != "" && inv.keyMissing)
              || (Platform(Some(inv.base.value.url)) && forall c :: c in inv.keyEnv ==> c in SPACES)
              || (Platform(Some(inv.base.value.url)) && !inv.consent.flag
                  && (inv.consent.freshOnly || (inv.consent.env != Some("1") && !inv.consent.preference)))
              || !w.first.fits || (w.control.Control? && !w.first.passes)
  {
    TwoRequestsIff(inv, timeoutMs, w);
    BlankIff(inv.keyEnv);
  }

  const SPACES := " \t\n\U{b}\U{c}\r\U{1c}\U{1d}\U{1e}\U{1f}"

  lemma BlankIff(s: string)
    ensures Blank(s) <==> forall c :: c in s ==> c in SPACES
  {
    var spaces := SPACES;
    forall c: char ensures c in spaces <==> c == ' ' || '\t' <= c <= '\r' || '\U{1c}' <= c <= '\U{1f}' {
      if '\t' <= c <= '\r' { assert c == spaces[c as int - 8]; }
      if '\U{1c}' <= c <= '\U{1f}' { assert c == spaces[c as int - 22]; }
    }
    if Blank(s) {
      forall c | c in s ensures c in spaces {
        var i :| 0 <= i < |s| && s[i] == c;
      }
    } else {
      var i :| 0 <= i < |s| && !(s[i] == ' ' || '\t' <= s[i] <= '\r' || '\U{1c}' <= s[i] <= '\U{1f}');
      assert s[i] in s && s[i] !in spaces;
    }
  }

  // A call whose plan is rate-limited is retried if and only if the operator consents by the flag
  // or, unless fresh consent is demanded, by the environment or the preference, and at least a
  // second is left, the control allows it, the accounting goes along, and the request opens.
  lemma LimitedCallRetriesIff(inv: Invocation, timeoutMs: int, w: World)
    requires Requests(CallTrace(inv, timeoutMs, w)) > 0
    requires w.first.answer.HttpError? && w.first.answer.code == 429
    requires inv.base.Some? && inv.base.value.coding && !inv.base.value.zai && inv.base.value.payg.Some?
    ensures Requests(CallTrace(inv, timeoutMs, w)) == 2 <==>
              && (inv.consent.flag
                  || (!inv.consent.freshOnly && (inv.consent.env == Some("1") || inv.consent.preference)))
              && w.checked + 1.0 <= w.start + (if timeoutMs > 1000 then timeoutMs as real / 1000.0 else 1.0)
              && (w.control.NoControl? || (w.control.allowSecondary && w.second.passes))
              && (w.accounting.NoAccounting? || (w.accounting.settlesRoot && w.accounting.preparesChild))
              && w.second.fits
  {
    TwoRequestsIff(inv, timeoutMs, w);
    LimitIsWorthy(inv.base.value, w.first.answer);
    SecondLeftIff(Deadline(w.start, timeoutMs), w.checked);
  }

  lemma SecondLeftIff(deadline: real, now: real)
    ensures RemainingMs(deadline, now) >= 1000 <==> now + 1.0 <= deadline
  {
    var x := (deadline - now) * 1000.0;
    if x >= 0.0 { assert x.Floor as real <= x < x.Floor as real + 1.0; }
  }

  // ---------------------------------------------------------------------------------------
  // The wall-clock budget
  // ---------------------------------------------------------------------------------------

  // A request ends within its timeout.
  predicate Prompt(e: Event) {
    e.Request? ==> e.closes <= e.opens + e.timeout
  }

  // When each request ends within its timeout, a request ends past the wall deadline by no more
  // than the time between the clock reading before it and its opening.
  lemma BudgetHolds(inv: Invocation, timeoutMs: int, w: World, e: Event)
    requires e in CallTrace(inv, timeoutMs, w) && e.Request? && Prompt(e)
    ensures || e.closes <= Deadline(w.start, timeoutMs) + (w.first.opens - w.start)
            || (Retries(inv, timeoutMs, w) && e.closes <= Deadline(w.start, timeoutMs) + (w.second.opens - w.checked))
    ensures w.first.opens == w.start && w.second.opens == w.checked ==> e.closes <= Deadline(w.start, timeoutMs)
  {
    if e !in FirstPart(inv, timeoutMs, w) {
      RemainingFits(Deadline(w.start, timeoutMs), w.checked);
      var ms := RemainingMs(Deadline(w.start, timeoutMs), w.checked);
      assert e.timeout == Seconds(ms) && e.opens == w.second.opens;
    }
  }

  function Closing(w: World, first: real, second: real): World {
    w.(first := w.first.(closes := first), second := w.second.(closes := second))
  }

  ghost predicate AllPrompt(trace: seq<Event>) {
    forall e :: e in trace ==> Prompt(e)
  }

  ghost predicate AllInTime(trace: seq<Event>, deadline: real) {
    forall e :: e in trace && e.Request? ==> e.closes <= deadline
  }

  // The clock readings and the openings come in the order of the code.
  predicate Ordered(inv: Invocation, timeoutMs: int, w: World) {
    && w.start <= w.first.opens
    && (ReadsClock(inv, w) ==> w.first.opens <= w.checked)
    && (Retries(inv, timeoutMs, w) ==> w.checked <= w.second.opens)
  }

  // So do the closings: the clock is read again only after the first request has closed.
  predicate Coherent(inv: Invocation, timeoutMs: int, w: World) {
    && Ordered(inv, timeoutMs, w)
    && w.first.opens <= w.first.closes && w.second.opens <= w.second.closes
    && (ReadsClock(inv, w) ==> w.first.closes <= w.checked)
  }

  // However the endpoint times its answers, requests that end within their timeouts end in time.
  ghost predicate KeepsDeadline(inv: Invocation, timeoutMs: int, w: World) {
    forall f, c :: Coherent(inv, timeoutMs, Closing(w, f, c)) && AllPrompt(CallTrace(inv, timeoutMs, Closing(w, f, c))) ==>
                     AllInTime(CallTrace(inv, timeoutMs, Closing(w, f, c)), Deadline(w.start, timeoutMs))
  }

  // The first request opens no later than the deadline's clock reading, unless a second reading
  // shows that it has closed in time; and a retry opens early enough for the timeout it was given.
  predicate OpensInTime(inv: Invocation, timeoutMs: int, w: World) {
    && (!Refused(inv) && Opens(w.first, w.control) ==>
          w.first.opens <= w.start || (ReadsClock(inv, w) && w.checked <= Deadline(w.start, timeoutMs)))
    && (Retries(inv, timeoutMs, w) ==>
          w.second.opens + Seconds(RemainingMs(Deadline(w.start, timeoutMs), w.checked)) <= Deadline(w.start, timeoutMs))
  }

  lemma ClosingKeepsGates(inv: Invocation, timeoutMs: int, w: World, f: real, c: real)
    ensures MayRetry(inv, timeoutMs, Closing(w, f, c)) <==> MayRetry(inv, timeoutMs, w)
    ensures Retries(inv, timeoutMs, Closing(w, f, c)) <==> Retries(inv, timeoutMs, w)
    ensures ReadsClock(inv, Closing(w, f, c)) <==> ReadsClock(inv, w)
  {}

  // The requests of a call, one by one.
  lemma RequestsAre(inv: Invocation, timeoutMs: int, w: World, e: Event)
    requires e.Request?
    ensures var ms := RemainingMs(Deadline(w.start, timeoutMs), w.checked);
            e in CallTrace(inv, timeoutMs, w) <==>
            || (!Refused(inv) && Opens(w.first, w.control)
                && e == Request(inv.base.value.url, Seconds(timeoutMs), w.first.opens, w.first.closes))
            || (Retries(inv, timeoutMs, w)
                && e == Request(inv.base.value.payg.value, Seconds(ms), w.second.opens, w.second.closes))
  {
    if !Refused(inv) {
      assert e in FirstPart(inv, timeoutMs, w) <==>
        e in Attempted(inv.base.value.url, timeoutMs, w.first, w.control);
      if MayRetry(inv, timeoutMs, w) {
        var ms := RemainingMs(Deadline(w.start, timeoutMs), w.checked);
        var retry := Attempted(inv.base.value.payg.value, ms, w.second, w.control);
        assert e in SecondPart(inv, timeoutMs, w) <==>
          (w.accounting.NoAccounting? || w.accounting.preparesChild) && e in retry;
      }
    }
  }

  lemma EarlyOpeningKeepsDeadline(inv: Invocation, timeoutMs: int, w: World, f: real, c: real)
    requires OpensInTime(inv, timeoutMs, w) && Coherent(inv, timeoutMs, Closing(w, f, c))
    requires AllPrompt(CallTrace(inv, timeoutMs, Closing(w, f, c)))
    ensures AllInTime(CallTrace(inv, timeoutMs, Closing(w, f, c)), Deadline(w.start, timeoutMs))
  {
    var trace := CallTrace(inv, timeoutMs, Closing(w, f, c));
    ClosingKeepsGates(inv, timeoutMs, w, f, c);
    forall e | e in trace && e.Request? ensures e.closes <= Deadline(w.start, timeoutMs) {
      RequestsAre(inv, timeoutMs, Closing(w, f, c), e);
      assert Prompt(e);
    }
  }

  // The latest a first request may close: at its timeout, and before the clock is read again.
  function LatestFirst(inv: Invocation, timeoutMs: int, w: World): real {
    var full := w.first.opens + Seconds(timeoutMs);
    if ReadsClock(inv, w) && w.checked < full then w.checked else full
  }

  lemma SlowestRequests(inv: Invocation, timeoutMs: int, w: World)
    requires Ordered(inv, timeoutMs, w)
    ensures var f := LatestFirst(inv, timeoutMs, w);
            var c := w.second.opens + Seconds(RemainingMs(Deadline(w.start, timeoutMs), w.checked));
            && Coherent(inv, timeoutMs, Closing(w, f, c))
            && AllPrompt(CallTrace(inv, timeoutMs, Closing(w, f, c)))
            && (AllInTime(CallTrace(inv, timeoutMs, Closing(w, f, c)), Deadline(w.start, timeoutMs)) ==>
                  OpensInTime(inv, timeoutMs, w))
  {
    var ms := RemainingMs(Deadline(w.start, timeoutMs), w.checked);
    var f, c := LatestFirst(inv, timeoutMs, w), w.second.opens + Seconds(ms);
    var v := Closing(w, f, c);
    var trace := CallTrace(inv, timeoutMs, v);
    ClosingKeepsGates(inv, timeoutMs, w, f, c);
    forall e | e in trace ensures Prompt(e) {
      if e.Request? { RequestsAre(inv, timeoutMs, v, e); }
    }
    if !Refused(inv) && Opens(w.first, w.control) {
      RequestsAre(inv, timeoutMs, v, Request(inv.base.value.url, Seconds(timeoutMs), w.first.opens, f));
    }
    if Retries(inv, timeoutMs, w) {
      RequestsAre(inv, timeoutMs, v, Request(inv.base.value.payg.value, Seconds(ms), w.second.opens, c));
    }
  }

  // Over every timing in the order of the code: the wall deadline is kept, whenever each request
  // ends within its timeout, if and only if each request opens in time.
  lemma DeadlineKeptIff(inv: Invocation, timeoutMs: int, w: World)
    requires Ordered(inv, timeoutMs, w)
    ensures KeepsDeadline(inv, timeoutMs, w) <==> OpensInTime(inv, timeoutMs, w)
  {
    if OpensInTime(inv, timeoutMs, w) {
      forall f, c | Coherent(inv, timeoutMs, Closing(w, f, c)) && AllPrompt(CallTrace(inv, timeoutMs, Closing(w, f, c)))
        ensures AllInTime(CallTrace(inv, timeoutMs, Closing(w, f, c)), Deadline(w.start, timeoutMs))
      {
        EarlyOpeningKeepsDeadline(inv, timeoutMs, w, f, c);
      }
    }
    if KeepsDeadline(inv, timeoutMs, w) { SlowestRequests(inv, timeoutMs, w); }
  }

  // The bound is reached: a retry that opens late, as it does when preparing its accounting takes
  // time, and then uses its whole timeout ends that late after the deadline, but for a millisecond.
  lemma LateRetryOverruns(inv: Invocation, timeoutMs: int, w: World, lag: real) returns (late: World)
    requires Retries(inv, timeoutMs, w) && lag >= 0.0
    ensures late == w.(second := late.second) && late.second.opens == w.checked + lag
    ensures Retries(inv, timeoutMs, late)
    ensures late.second.closes == late.second.opens + Seconds(RemainingMs(Deadline(w.start, timeoutMs), w.checked))
    ensures late.second.closes > Deadline(w.start, timeoutMs) + lag - 0.001
    ensures Coherent(inv, timeoutMs, w) ==> Coherent(inv, timeoutMs, late)
  {
    var ms := RemainingMs(Deadline(w.start, timeoutMs), w.checked);
    late := w.(second := w.second.(opens := w.checked + lag, closes := w.checked + lag + Seconds(ms)));
    RemainingFits(Deadline(w.start, timeoutMs), w.checked);
  }

  // It happens: in the order of the code, with both requests within their timeouts, a retry that
  // opens two seconds after the clock reading ends after the deadline.
  lemma OverrunHappens() returns (inv: Invocation, w: World)
    ensures Classified(inv) && Retries(inv, 5000, w) && Coherent(inv, 5000, w)
    ensures AllPrompt(CallTrace(inv, 5000, w)) && !AllInTime(CallTrace(inv, 5000, w), Deadline(w.start, 5000))
  {
    var u := Url("https", "volces.com", "volces.com", CODING, "", "");
    PlainCodingUrl(u);
    inv := LimitedCall(u);
    var v := LimitedWorld(true);
    LimitedIsEligible(u, inv, v, true);
    w := LateRetryOverruns(inv, 5000, v, 2.0);
    forall e | e in CallTrace(inv, 5000, w) ensures Prompt(e) {
      if e.Request? { RequestsAre(inv, 5000, w, e); }
    }
    RequestsAre(inv, 5000, w, Request(inv.base.value.payg.value, Seconds(4000), w.second.opens, w.second.closes));
  }
}
