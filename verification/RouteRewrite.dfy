/** BytePlus routes: the classifier that decides which URLs draw on a Coding Plan subscription, and
  * the rewrite of such a URL to its pay-as-you-go companion.
  */
module RouteRewrite {
  import opened Wrappers
  import opened Text

  // A URL as urlsplit cuts it; host is the hostname within netloc.
  datatype Url = Url(scheme: string, netloc: string, host: string, path: string, query: string, fragment: string)

  const CODING := "/api/coding"
  const PAYG := "/api/v3"

  // ---------------------------------------------------------------------------------------
  // Paths
  // ---------------------------------------------------------------------------------------

  predicate HexDigit(c: char) {
    Digit(c) || 'a' <= c <= 'f' || 'A' <= c <= 'F'
  }

  function HexValue(c: char): (n: nat)
    requires HexDigit(c)
    ensures n < 16
  {
    if Digit(c) then c as int - '0' as int
    else if 'a' <= c <= 'f' then c as int - 'a' as int + 10
    else c as int - 'A' as int + 10
  }

  // A percent-escape at the head of s.
  predicate Escape(s: string) {
    |s| >= 3 && s[0] == '%' && HexDigit(s[1]) && HexDigit(s[2])
  }

  // Percent-decoding (section 2.1 of RFC 3986), one character for each byte.
  function Unquote(s: string): string {
    if s == "" then ""
    else if Escape(s) then
      [(16 * HexValue(s[1]) + HexValue(s[2])) as char] + Unquote(s[3..])
    else [s[0]] + Unquote(s[1..])
  }

  // The length of the run before the first slash.
  function SegmentEnd(s: string): (n: nat)
    ensures n <= |s| && (n < |s| ==> s[n] == '/') && forall i :: 0 <= i < n ==> s[i] != '/'
  {
    if s == "" || s[0] == '/' then 0 else 1 + SegmentEnd(s[1..])
  }

  // The segments that are left once repeated slashes are collapsed.
  function Segments(s: string): seq<string> {
    if s == "" then []
    else if s[0] == '/' then Segments(s[1..])
    else [s[..SegmentEnd(s)]] + Segments(s[SegmentEnd(s)..])
  }

  function Join(segments: seq<string>): string {
    if segments == [] then "" else "/" + segments[0] + Join(segments[1..])
  }

  function DropDots(segments: seq<string>): seq<string> {
    if segments == [] then []
    else (if segments[0] == "." then [] else [segments[0]]) + DropDots(segments[1..])
  }

  // The classifier's view of a path: decoded, collapsed, free of dot segments, in lower case.
  function NormalPath(raw: string): string {
    var segments := Segments(Unquote(if raw == "" then "/" else raw));
    var kept := DropDots(segments);
    if ".." in segments then "/__traversal__"
    else Lower(if kept == [] then "/" else Join(kept))
  }

  function TrimSlashes(s: string): (t: string)
    ensures t <= s && (t != "" ==> t[|t| - 1] != '/')
    ensures forall i :: |t| <= i < |s| ==> s[i] == '/'
  {
    if s != "" && s[|s| - 1] == '/' then TrimSlashes(s[..|s| - 1]) else s
  }

  // ---------------------------------------------------------------------------------------
  // Routes
  // ---------------------------------------------------------------------------------------

  function TrimDots(s: string): (t: string)
    ensures t <= s && (t != "" ==> t[|t| - 1] != '.')
    ensures forall i :: |t| <= i < |s| ==> s[i] == '.'
  {
    if s != "" && s[|s| - 1] == '.' then TrimDots(s[..|s| - 1]) else s
  }

  // casefold() of a hostname: of the letters outside ASCII only the long s folds to one that a
  // known host contains.
  function FoldHost(host: string): (r: string)
    ensures |r| == |host|
    ensures forall i :: 0 <= i < |host| ==> r[i] == if host[i] == '\U{17F}' then 's' else LowerChar(host[i])
  {
    seq(|host|, i requires 0 <= i < |host| => if host[i] == '\U{17F}' then 's' else LowerChar(host[i]))
  }

  predicate Within(host: string, domain: string) {
    host == domain || (|host| > |domain| && host[|host| - |domain| - 1..] == "." + domain)
  }

  predicate ModelArk(u: Url) {
    var host := TrimDots(FoldHost(u.host));
    Within(host, "bytepluses.com") || Within(host, "volces.com")
  }

  predicate CodingPath(raw: string) {
    var path := TrimSlashes(NormalPath(raw));
    path == CODING || path == CODING + "/v3"
  }

  // is_coding_plan_endpoint; None is a URL that is missing or does not parse.
  predicate CodingPlan(base: Option<Url>) {
    base.Some? && ModelArk(base.value) && CodingPath(base.value.path)
  }

  // is_byteplus_platform_endpoint
  predicate Platform(base: Option<Url>) {
    base.Some? && ModelArk(base.value) && !CodingPath(base.value.path)
  }

  predicate ZaiCodingPlan(base: Option<Url>) {
    && base.Some? && Lower(base.value.scheme) == "https" && FoldHost(base.value.host) == "api.z.ai"
    && Lower(TrimSlashes(base.value.path)) == "/api/coding/paas/v4"
    && base.value.query == "" && base.value.fragment == ""
  }

  // ---------------------------------------------------------------------------------------
  // The rewrite
  // ---------------------------------------------------------------------------------------

  // A case-insensitive occurrence of a pattern given in lower case.
  predicate At(s: string, i: nat, pattern: string) {
    i + |pattern| <= |s| && Lower(s[i..i + |pattern|]) == pattern
  }

  predicate Contains(s: string, pattern: string) {
    exists i :: 0 <= i < |s| && At(s, i, pattern)
  }

  // The leftmost occurrence at i or later; |s| when there is none.
  function Find(s: string, pattern: string, i: nat): (k: nat)
    requires i <= |s| && pattern != ""
    ensures i <= k <= |s| && (k < |s| ==> At(s, k, pattern))
    ensures forall j :: i <= j < k ==> !At(s, j, pattern)
    decreases |s| - i
  {
    if i == |s| || At(s, i, pattern) then i else Find(s, pattern, i + 1)
  }

  function DigitsEnd(s: string, i: nat): (k: nat)
    requires i <= |s|
    ensures i <= k <= |s|
    decreases |s| - i
  {
    if i < |s| && Digit(s[i]) then DigitsEnd(s, i + 1) else i
  }

  // The end of an optional version segment, a slash, a v and digits, at i.
  function VersionEnd(s: string, i: nat): (k: nat)
    requires i <= |s|
    ensures i <= k <= |s|
  {
    if i + 2 < |s| && At(s, i, "/v") && Digit(s[i + 2]) then DigitsEnd(s, i + 2) else i
  }

  // The first subscription prefix, with its version and one slash, becomes the pay-as-you-go one.
  function ReplaceCoding(s: string): string {
    var i := Find(s, CODING, 0);
    if i == |s| then s else s[..i] + PAYG + s[CodingEnd(s, i)..]
  }

  function CodingEnd(s: string, i: nat): (k: nat)
    requires i + |CODING| <= |s|
    ensures k <= |s|
  {
    var j := VersionEnd(s, i + |CODING|);
    if j < |s| && s[j] == '/' then j + 1 else j
  }

  // Every pay-as-you-go prefix loses a version that follows it.
  function CollapseVersions(s: string): string
    decreases |s|, 1
  {
    CollapseAt(s, Find(s, PAYG, 0))
  }

  function CollapseAt(s: string, i: nat): string
    requires i == |s| || i + |PAYG| <= |s|
    decreases |s|, 0
  {
    if i == |s| then s else s[..i] + PAYG + CollapseVersions(s[VersionEnd(s, i + |PAYG|)..])
  }

  // None is the ValueError of a rewrite that gives no usable path.
  function RewritePath(raw: string): Option<string> {
    var trimmed := TrimSlashes(CollapseVersions(ReplaceCoding(raw)));
    var path := if trimmed == "" then PAYG else trimmed;
    if !Contains(path, PAYG) || path == TrimSlashes(raw) then None else Some(path)
  }

  // coding_to_payg_base_url
  function CodingToPayg(base: Option<Url>): Option<Url> {
    if ZaiCodingPlan(base) || !CodingPlan(base) then None
    else
      match RewritePath(base.value.path)
      case None => None
      case Some(path) => Some(base.value.(path := path, query := "", fragment := ""))
  }

  // ---------------------------------------------------------------------------------------
  // Segments
  // ---------------------------------------------------------------------------------------

  predicate IsSegment(s: string) {
    s != "" && '/' !in s
  }

  lemma SegmentsOfRooted(s: string)
    ensures Segments("/" + s) == Segments(s)
  {
    assert ("/" + s)[1..] == s;
  }

  lemma SegmentFirst(w: string, rest: string)
    requires IsSegment(w) && (rest == "" || rest[0] == '/')
    ensures Segments(w + rest) == [w] + Segments(rest)
  {
    var s := w + rest;
    assert s[..|w|] == w && s[|w|..] == rest;
    assert forall i :: 0 <= i < |w| ==> s[i] == w[i] && w[i] in w;
    assert rest != "" ==> s[|w|] == '/';
    assert SegmentEnd(s) == |w|;
  }

  lemma {:induction false} SegmentsOfParts(a: string, b: string)
    requires b == "" || b[0] == '/'
    ensures Segments(a + b) == Segments(a) + Segments(b)
    decreases |a|
  {
    if a == "" {
      assert a + b == b;
    } else if a[0] == '/' {
      var rest := a[1..];
      assert a == "/" + rest && a + b == "/" + (rest + b);
      SegmentsOfRooted(rest);
      SegmentsOfRooted(rest + b);
      SegmentsOfParts(rest, b);
    } else {
      var w, rest := a[..SegmentEnd(a)], a[SegmentEnd(a)..];
      assert a == w + rest && a + b == w + (rest + b);
      SegmentFirst(w, rest);
      SegmentFirst(w, rest + b);
      SegmentsOfParts(rest, b);
    }
  }

  ghost predicate AllSegments(segments: seq<string>) {
    forall i :: 0 <= i < |segments| ==> IsSegment(segments[i])
  }

  lemma {:induction false} SegmentsAre(s: string)
    ensures AllSegments(Segments(s))
    decreases |s|
  {
    if s == "" {
    } else {
      if s[0] == '/' {
        SegmentsAre(s[1..]);
      } else {
        SegmentsAre(s[SegmentEnd(s)..]);
      }
    }
  }

  lemma JoinIsRooted(segments: seq<string>)
    ensures segments != [] ==> Join(segments) != "" && Join(segments)[0] == '/'
  {}

  lemma {:induction false} JoinEnds(segments: seq<string>)
    requires AllSegments(segments) && segments != []
    ensures Join(segments) != "" && Join(segments)[|Join(segments)| - 1] != '/'
  {
    var w, rest := segments[0], Join(segments[1..]);
    assert IsSegment(w) && w[|w| - 1] in w;
    if segments[1..] != [] {
      JoinEnds(segments[1..]);
      assert Join(segments)[|Join(segments)| - 1] == rest[|rest| - 1];
    }
  }

  lemma {:induction false} SegmentsOfJoin(segments: seq<string>)
    requires AllSegments(segments)
    ensures Segments(Join(segments)) == segments
  {
    if segments == [] {
    } else {
      var rest := Join(segments[1..]);
      JoinIsRooted(segments[1..]);
      SegmentsOfJoin(segments[1..]);
      assert Join(segments) == "/" + (segments[0] + rest);
      SegmentsOfRooted(segments[0] + rest);
      SegmentFirst(segments[0], rest);
    }
  }

  function LowerAll(segments: seq<string>): seq<string> {
    seq(|segments|, i requires 0 <= i < |segments| => Lower(segments[i]))
  }

  lemma LowerParts(a: string, b: string)
    ensures Lower(a + b) == Lower(a) + Lower(b)
  {}

  lemma {:induction false} LowerJoin(segments: seq<string>)
    ensures Lower(Join(segments)) == Join(LowerAll(segments))
  {
    if segments == [] {
    } else {
      LowerJoin(segments[1..]);
      LowerParts("/" + segments[0], Join(segments[1..]));
      LowerParts("/", segments[0]);
      assert LowerAll(segments)[1..] == LowerAll(segments[1..]);
      assert Lower("/") == "/";
    }
  }

  lemma {:induction false} DropDotsKeeps(segments: seq<string>)
    requires AllSegments(segments)
    ensures AllSegments(DropDots(segments))
  {
    if segments == [] {
    } else {
      DropDotsKeeps(segments[1..]);
    }
  }

  lemma {:induction false} DropDotsParts(a: seq<string>, b: seq<string>)
    ensures DropDots(a + b) == DropDots(a) + DropDots(b)
  {
    if a == [] {
      assert a + b == b;
    } else {
      assert (a + b)[1..] == a[1..] + b;
      DropDotsParts(a[1..], b);
    }
  }

  lemma TrimNothing(s: string)
    requires s != "" && s[|s| - 1] != '/'
    ensures TrimSlashes(s) == s
  {}

  // What the classifier keeps of a path.
  function Route(raw: string): seq<string> {
    LowerAll(DropDots(Segments(Unquote(if raw == "" then "/" else raw))))
  }

  predicate Traverses(raw: string) {
    ".." in Segments(Unquote(if raw == "" then "/" else raw))
  }

  lemma JoinOfTwo(a: string, b: string)
    ensures Join([a, b]) == "/" + a + "/" + b
  {
    assert [a, b][1..] == [b] && [b][1..] == [];
    assert Join([b]) == "/" + b;
  }

  lemma JoinOfThree(a: string, b: string, c: string)
    ensures Join([a, b, c]) == "/" + a + "/" + b + "/" + c
  {
    JoinOfTwo(b, c);
    assert [a, b, c][1..] == [b, c];
  }

  lemma JoinInjective(a: seq<string>, b: seq<string>)
    requires AllSegments(a) && AllSegments(b) && Join(a) == Join(b)
    ensures a == b
  {
    SegmentsOfJoin(a);
    SegmentsOfJoin(b);
  }

  // The paths of the subscription, by their segments.
  predicate CodingRoute(segments: seq<string>) {
    segments == ["api", "coding"] || segments == ["api", "coding", "v3"]
  }

  lemma CodingJoins(segments: seq<string>)
    requires AllSegments(segments)
    ensures Join(segments) == CODING || Join(segments) == CODING + "/v3" <==> CodingRoute(segments)
  {
    JoinOfTwo("api", "coding");
    JoinOfThree("api", "coding", "v3");
    var two, three := ["api", "coding"], ["api", "coding", "v3"];
    assert CODING == Join(two) && CODING + "/v3" == Join(three);
    assert AllSegments(two) && AllSegments(three);
    if Join(segments) == Join(two) { JoinInjective(segments, two); }
    if Join(segments) == Join(three) { JoinInjective(segments, three); }
  }

  lemma LowerSegments(segments: seq<string>)
    requires AllSegments(segments)
    ensures AllSegments(LowerAll(segments))
  {
    forall i | 0 <= i < |segments| ensures IsSegment(LowerAll(segments)[i]) { assert IsSegment(segments[i]); }
  }

  // A path is a Coding Plan path exactly when it decodes to the segments api, coding and perhaps
  // v3, in any case, with any number of slashes and dots between them and no traversal.
  lemma CodingPathIff(raw: string)
    ensures CodingPath(raw) <==> !Traverses(raw) && CodingRoute(Route(raw))
  {
    var decoded := Unquote(if raw == "" then "/" else raw);
    SegmentsAre(decoded);
    DropDotsKeeps(Segments(decoded));
    var kept := DropDots(Segments(decoded));
    if Traverses(raw) {
      TrimNothing("/__traversal__");
      assert NormalPath(raw) == "/__traversal__";
    } else if kept == [] {
      assert NormalPath(raw) == Lower("/") == "/";
      assert |TrimSlashes("/")| <= 1;
    } else {
      LowerSegments(kept);
      LowerJoin(kept);
      JoinEnds(LowerAll(kept));
      TrimNothing(Join(LowerAll(kept)));
      CodingJoins(LowerAll(kept));
    }
  }

  // A path with a traversal in it, decoded or not, is no Coding Plan path, wherever it leads.
  lemma TraversalIsNotCoding(a: string, dots: string, b: string)
    requires Unquote(dots) == ".."
    ensures !CodingPath(a + ("/" + (dots + ("/" + b))))
  {
    var raw := a + ("/" + (dots + ("/" + b)));
    var tail := "/" + Unquote(b);
    UnquotePlain("/", b);
    UnquoteParts(dots, "/" + b);
    UnquotePlain("/", dots + ("/" + b));
    UnquoteParts(a, "/" + (dots + ("/" + b)));
    SegmentFirst("..", tail);
    SegmentsOfRooted(".." + tail);
    SegmentsOfParts(Unquote(a), "/" + (".." + tail));
    assert ".." in [".."] + Segments(tail);
    CodingPathIff(raw);
  }

  function HexOf(n: nat, letter: char): (c: char)
    requires n < 16 && (letter == 'a' || letter == 'A')
    ensures HexDigit(c) && HexValue(c) == n
  {
    if n < 10 then ('0' as int + n) as char else (letter as int + n - 10) as char
  }

  // Every byte as a percent-escape.
  function Escaped(s: string, letter: char): string
    requires (letter == 'a' || letter == 'A') && forall i :: 0 <= i < |s| ==> s[i] as int < 256
  {
    if s == "" then ""
    else ['%', HexOf(s[0] as int / 16, letter), HexOf(s[0] as int % 16, letter)] + Escaped(s[1..], letter)
  }

  // Decoding undoes percent-encoding, with hexadecimal letters of either case.
  lemma {:induction false} UnquoteUndoesEscape(s: string, letter: char)
    requires (letter == 'a' || letter == 'A') && forall i :: 0 <= i < |s| ==> s[i] as int < 256
    ensures Unquote(Escaped(s, letter)) == s
  {
    if s == "" {
    } else {
      var e := Escaped(s, letter);
      UnquoteUndoesEscape(s[1..], letter);
      assert e[3..] == Escaped(s[1..], letter) && Escape(e);
      assert (16 * HexValue(e[1]) + HexValue(e[2])) as char == s[0];
      assert s == [s[0]] + s[1..];
    }
  }

  // The ModelArk hosts are the two domains and their subdomains, in any letter case, with or without
  // final dots.
  lemma ModelArkIff(u: Url)
    ensures ModelArk(u) <==>
              var host := TrimDots(FoldHost(u.host));
              || (|host| >= 14 && host[|host| - 14..] == "bytepluses.com" && (|host| == 14 || host[|host| - 15] == '.'))
              || (|host| >= 10 && host[|host| - 10..] == "volces.com" && (|host| == 10 || host[|host| - 11] == '.'))
  {
    var host := TrimDots(FoldHost(u.host));
    WithinIff(host, "bytepluses.com", 14);
    WithinIff(host, "volces.com", 10);
  }

  lemma WithinIff(host: string, domain: string, n: nat)
    requires |domain| == n
    ensures Within(host, domain) <==> |host| >= n && host[|host| - n..] == domain && (|host| == n || host[|host| - n - 1] == '.')
  {
    if |host| == n {
      assert host[0..] == host;
    } else if |host| > n {
      var k := |host| - n - 1;
      assert host[k..] == [host[k]] + host[k + 1..];
      assert ("." + domain)[0] == '.' && ("." + domain)[1..] == domain;
    }
  }

  // Neither name contains the long s.
  lemma NamedLetters(name: string, i: nat)
    requires (name == "bytepluses.com" || name == "volces.com") && i < |name|
    ensures name[i] != '\U{17F}'
  {
    if name == "bytepluses.com" { assert name[i] in "bytepluses.com"; }
  }

  lemma TrimmedDots(t: string, dots: string)
    requires t != "" && t[|t| - 1] != '.' && forall i :: 0 <= i < |dots| ==> dots[i] == '.'
    ensures TrimDots(t + dots) == t
  {
    var s := t + dots;
    var cut := TrimDots(s);
    assert s[|t| - 1] != '.';
    assert forall k :: |t| <= k < |s| ==> s[k] == dots[k - |t|];
    assert cut == s[..|cut|] && |cut| == |t|;
  }

  // A host that ends in one of the two names, in any letter case, and final dots.
  lemma FoldedHost(host: string, front: string, name: string, dots: string)
    requires host == front + name + dots && (Lower(name) == "bytepluses.com" || Lower(name) == "volces.com")
    requires forall i :: 0 <= i < |dots| ==> dots[i] == '.'
    ensures TrimDots(FoldHost(host)) == FoldHost(front) + Lower(name)
  {
    var folded := FoldHost(host);
    forall i | 0 <= i < |name| ensures folded[|front| + i] == Lower(name)[i] {
      assert host[|front| + i] == name[i] && LowerChar(name[i]) == Lower(name)[i];
      NamedLetters(Lower(name), i);
    }
    assert folded == (FoldHost(front) + Lower(name)) + dots;
    EndsInM(Lower(name));
    TrimmedDots(FoldHost(front) + Lower(name), dots);
  }

  lemma EndsInM(name: string)
    requires name == "bytepluses.com" || name == "volces.com"
    ensures name != "" && name[|name| - 1] == 'm'
  {}

  // So a domain, or anything before a dot and a domain, is one in any letter case,
  lemma SubdomainIsModelArk(u: Url, front: string, name: string, dots: string)
    requires u.host == front + name + dots && (front != "" ==> front[|front| - 1] == '.')
    requires Lower(name) == "bytepluses.com" || Lower(name) == "volces.com"
    requires forall i :: 0 <= i < |dots| ==> dots[i] == '.'
    ensures ModelArk(u)
  {
    FoldedHost(u.host, front, name, dots);
    JoinedWithin(FoldHost(front), Lower(name));
  }

  lemma JoinedWithin(front: string, domain: string)
    requires front != "" ==> front[|front| - 1] == '.'
    ensures Within(front + domain, domain)
  {
    var host, n := front + domain, |front|;
    assert host[n..] == domain;
    WithinIff(host, domain, |domain|);
  }

  // and a host that merely ends in such a name is not.
  lemma LookalikeIsRefused(u: Url, front: string, name: string, dots: string)
    requires u.host == front + name + dots && front != "" && front[|front| - 1] != '.'
    requires Lower(name) == "bytepluses.com" || Lower(name) == "volces.com"
    requires forall i :: 0 <= i < |dots| ==> dots[i] == '.'
    ensures !ModelArk(u)
  {
    FoldedHost(u.host, front, name, dots);
    var host, n := FoldHost(front) + Lower(name), |front|;
    assert host[n..] == Lower(name);
    assert host[n - 1] != '.';
    ModelArkIff(u);
    EndsOnce(host, n);
  }

  lemma EndsOnce(host: string, n: nat)
    requires 0 < n < |host| && host[n - 1] != '.' && (host[n..] == "bytepluses.com" || host[n..] == "volces.com")
    ensures !(|host| >= 14 && host[|host| - 14..] == "bytepluses.com" && (|host| == 14 || host[|host| - 15] == '.'))
    ensures !(|host| >= 10 && host[|host| - 10..] == "volces.com" && (|host| == 10 || host[|host| - 11] == '.'))
  {
    var m := |host|;
    assert host[m - 5] == host[n..][m - n - 5] && host[m - 6] == host[n..][m - n - 6] && host[m - 7] == host[n..][m - n - 7];
    assert host[m - 7] == host[m - 10..][3];
    if host[n..] == "bytepluses.com" {
      assert host[m - 7] == 's';
    } else {
      assert host[m - 7] == 'c' && (m >= 14 ==> host[m - 7] == host[m - 14..][7]);
    }
  }

  // ---------------------------------------------------------------------------------------
  // A pay-as-you-go prefix survives classification
  // ---------------------------------------------------------------------------------------

  lemma EscapeWithin(a: string, b: string)
    requires a != "" && (b == "" || !HexDigit(b[0]))
    ensures Escape(a + b) <==> Escape(a)
  {}

  lemma {:induction false} UnquoteParts(a: string, b: string)
    requires b == "" || !HexDigit(b[0])
    ensures Unquote(a + b) == Unquote(a) + Unquote(b)
    decreases |a|
  {
    if a == "" {
      assert a + b == b;
    } else if Escape(a) {
      assert (a + b)[3..] == a[3..] + b;
      UnquoteParts(a[3..], b);
    } else {
      EscapeWithin(a, b);
      assert (a + b)[1..] == a[1..] + b;
      UnquoteParts(a[1..], b);
    }
  }

  lemma {:induction false} UnquotePlain(x: string, b: string)
    requires '%' !in x
    ensures Unquote(x + b) == x + Unquote(b)
  {
    if x == "" {
      assert x + b == b;
    } else {
      assert (x + b)[1..] == x[1..] + b;
      UnquotePlain(x[1..], b);
    }
  }

  lemma SegmentStarts(x: string, rest: string)
    requires IsSegment(x)
    ensures Segments(x + rest) != [] && x <= Segments(x + rest)[0]
  {
    var s := x + rest;
    assert forall i :: 0 <= i < |x| ==> s[i] == x[i] && x[i] in x;
    assert |x| <= SegmentEnd(s);
    assert s[..SegmentEnd(s)][..|x|] == x;
  }

  lemma SpelledDecoded(a: string, x: string, b: string)
    requires x != "" && x[0] == '/' && '%' !in x
    ensures Unquote(a + (x + b)) == Unquote(a) + (x + Unquote(b))
  {
    UnquoteParts(a, x + b);
    UnquotePlain(x, b);
  }

  lemma SpelledSegments(x1: string, x2: string, b: string) returns (w: string, rest: seq<string>)
    requires IsSegment(x1) && IsSegment(x2)
    ensures Segments(("/" + x1 + "/" + x2) + b) == [x1, w] + rest && x2 <= w
  {
    var tail := x2 + b;
    assert ("/" + x1 + "/" + x2) + b == "/" + (x1 + ("/" + tail));
    SegmentsOfRooted(x1 + ("/" + tail));
    SegmentFirst(x1, "/" + tail);
    SegmentsOfRooted(tail);
    SegmentStarts(x2, b);
    w, rest := Segments(tail)[0], Segments(tail)[1..];
  }

  lemma RouteAround(s1: seq<string>, x1: string, w: string, rest: seq<string>)
    requires Lower(x1) == "api" && |w| >= 2 && Lower(w[..2]) == "v3"
    ensures !CodingRoute(LowerAll(DropDots(s1 + ([x1, w] + rest))))
  {
    DropDotsParts(s1, [x1, w] + rest);
    DropDotsParts([x1, w], rest);
    assert [x1, w][1..] == [w] && DropDots([w]) == [w] && DropDots([x1, w]) == [x1, w];
    var route := LowerAll(DropDots(s1 + ([x1, w] + rest)));
    var n := |DropDots(s1)|;
    assert route[n] == Lower(x1) && route[n + 1] == Lower(w);
    assert Lower(w)[..2] == Lower(w[..2]);
    assert Lower(w)[0] == Lower(w)[..2][0];
  }

  lemma PaygSpelling(x: string) returns (x1: string, x2: string)
    requires Lower(x) == PAYG
    ensures x == "/" + x1 + "/" + x2 && IsSegment(x1) && IsSegment(x2) && '%' !in x
    ensures Lower(x1) == "api" && Lower(x2) == "v3"
  {
    x1, x2 := x[1..4], x[5..7];
    assert forall k :: 0 <= k < 7 ==> LowerChar(x[k]) == PAYG[k];
    assert x[0] == '/' && x[4] == '/';
    assert Lower(x1) == PAYG[1..4] && Lower(x2) == PAYG[5..7];
  }

  // Whatever surrounds it, a path that spells /api/v3 is no Coding Plan path.
  lemma PaygIsNotCoding(raw: string, i: nat)
    requires At(raw, i, PAYG)
    ensures !CodingPath(raw)
  {
    var a, x, b := raw[..i], raw[i..i + |PAYG|], raw[i + |PAYG|..];
    assert raw == a + (x + b);
    var x1, x2 := PaygSpelling(x);
    SpelledDecoded(a, x, b);
    var w, rest := SpelledSegments(x1, x2, Unquote(b));
    SegmentsOfParts(Unquote(a), x + Unquote(b));
    assert w[..2] == x2;
    RouteAround(Segments(Unquote(a)), x1, w, rest);
    CodingPathIff(raw);
  }

  // ---------------------------------------------------------------------------------------
  // The rewrite leaves the subscription
  // ---------------------------------------------------------------------------------------

  predicate Slashes(s: string) {
    forall i :: 0 <= i < |s| ==> s[i] == '/'
  }

  lemma {:induction false} SlashesRouteNowhere(s: string)
    requires Slashes(s)
    ensures Segments(Unquote(s)) == []
  {
    if s == "" {
    } else {
      SlashesRouteNowhere(s[1..]);
      SegmentsOfRooted(Unquote(s[1..]));
    }
  }

  lemma PaygItself()
    ensures Lower(PAYG) == PAYG && Lower(CODING) == CODING
  {
    LowerKeeps(PAYG);
    LowerKeeps(CODING);
  }

  lemma AtWithin(a: string, b: string)
    ensures At(a + PAYG + b, |a|, PAYG)
  {
    PaygItself();
    assert (a + PAYG + b)[|a|..|a| + |PAYG|] == PAYG;
  }

  // Trimming slashes cuts no occurrence.
  lemma TrimKeeps(s: string, i: nat)
    requires At(s, i, PAYG)
    ensures At(TrimSlashes(s), i, PAYG)
  {
    var t, last := TrimSlashes(s), i + |PAYG| - 1;
    assert Lower(s[i..i + |PAYG|])[|PAYG| - 1] == LowerChar(s[last]) == '3';
    assert s[last] != '/' && last < |t|;
    assert t[i..i + |PAYG|] == s[i..i + |PAYG|];
  }

  lemma Found(s: string, pattern: string)
    requires pattern != ""
    ensures Contains(s, pattern) <==> Find(s, pattern, 0) < |s|
  {}

  lemma AtPrefix(t: string, s: string, i: nat, pattern: string)
    requires t <= s && At(t, i, pattern)
    ensures At(s, i, pattern)
  {
    assert s[i..i + |pattern|] == t[i..i + |pattern|];
  }

  lemma CollapseStep(s: string, i: nat)
    requires Find(s, PAYG, 0) == i < |s|
    ensures CollapseVersions(s) == s[..i] + PAYG + CollapseVersions(s[VersionEnd(s, i + |PAYG|)..])
  {}

  lemma CollapseKeeps(s: string)
    requires Contains(s, PAYG)
    ensures Contains(CollapseVersions(s), PAYG)
  {
    Found(s, PAYG);
    var i := Find(s, PAYG, 0);
    var rest := CollapseVersions(s[VersionEnd(s, i + |PAYG|)..]);
    CollapseStep(s, i);
    AtWithin(s[..i], rest);
    assert At(s[..i] + PAYG + rest, i, PAYG);
  }

  lemma CollapseNothing(s: string)
    requires !Contains(s, PAYG)
    ensures CollapseVersions(s) == s
  {
    Found(s, PAYG);
  }

  lemma ReplaceStep(s: string, i: nat)
    requires Find(s, CODING, 0) == i < |s|
    ensures ReplaceCoding(s) == s[..i] + PAYG + s[CodingEnd(s, i)..]
  {}

  lemma ReplaceMakes(s: string)
    requires Contains(s, CODING)
    ensures Contains(ReplaceCoding(s), PAYG)
  {
    Found(s, CODING);
    var i := Find(s, CODING, 0);
    ReplaceStep(s, i);
    AtWithin(s[..i], s[CodingEnd(s, i)..]);
  }

  // The rewrite of a Coding Plan path succeeds exactly when the path spells /api/coding outright,
  // without percent-escapes, doubled slashes or dots inside; its result is no Coding Plan path.
  lemma RewritePathIff(raw: string)
    requires CodingPath(raw)
    ensures RewritePath(raw).Some? <==> Contains(raw, CODING)
    ensures RewritePath(raw).Some? ==> !CodingPath(RewritePath(raw).value)
  {
    var trimmed := TrimSlashes(CollapseVersions(ReplaceCoding(raw)));
    if Contains(raw, CODING) {
      ReplaceMakes(raw);
      CollapseKeeps(ReplaceCoding(raw));
      var i :| 0 <= i < |CollapseVersions(ReplaceCoding(raw))| && At(CollapseVersions(ReplaceCoding(raw)), i, PAYG);
      TrimKeeps(CollapseVersions(ReplaceCoding(raw)), i);
      assert Contains(trimmed, PAYG);
      PaygIsNotCoding(trimmed, i);
      NotJustTrimmed(raw, trimmed);
    } else {
      Found(raw, CODING);
      if i :| 0 <= i < |raw| && At(raw, i, PAYG) { PaygIsNotCoding(raw, i); }
      CollapseNothing(raw);
      if trimmed == "" { OnlySlashes(raw); }
    }
  }

  lemma OnlySlashes(raw: string)
    requires TrimSlashes(raw) == ""
    ensures !CodingPath(raw)
  {
    SlashesRouteNowhere(if raw == "" then "/" else raw);
    assert Route(raw) == [];
    CodingPathIff(raw);
  }

  // A path that spells the pay-as-you-go prefix is not a Coding Plan path without its slashes.
  lemma NotJustTrimmed(raw: string, path: string)
    requires CodingPath(raw) && Contains(path, PAYG)
    ensures path != TrimSlashes(raw)
  {
    if path == TrimSlashes(raw) {
      var i :| 0 <= i < |path| && At(path, i, PAYG);
      AtPrefix(path, raw, i, PAYG);
      PaygIsNotCoding(raw, i);
    }
  }

  lemma ZaiIsElsewhere(u: Url)
    requires FoldHost(u.host) == "api.z.ai"
    ensures !ModelArk(u)
  {
    var host := TrimDots(FoldHost(u.host));
    assert host == "api.z.ai";
    assert host[|host| - 1] != "bytepluses.com"[|"bytepluses.com"| - 1];
    assert host[|host| - 1] != "volces.com"[|"volces.com"| - 1];
  }

  // A Coding Plan URL is rewritten exactly when it spells its path outright; the result keeps the
  // authority and is a Platform URL, whatever escapes, slashes and dots surround the spelling.
  lemma RewriteLeavesSubscription(base: Option<Url>)
    ensures CodingToPayg(base).Some? <==> CodingPlan(base) && Contains(base.value.path, CODING)
    ensures CodingToPayg(base).Some? ==>
              && var u := CodingToPayg(base).value;
              && u.scheme == base.value.scheme && u.netloc == base.value.netloc && u.host == base.value.host
              && u.query == "" && u.fragment == ""
              && Platform(Some(u)) && !CodingPlan(Some(u))
  {
    if CodingPlan(base) {
      RewritePathIff(base.value.path);
      if ZaiCodingPlan(base) { ZaiIsElsewhere(base.value); }
    }
  }

  // The Z.AI subscription is one address: https, its host, and its path in any letter case, with
  // final slashes and neither query nor fragment.
  lemma ZaiAddress(u: Url, path: string, slashes: string)
    requires u.path == path + slashes && Slashes(slashes) && path != "" && path[|path| - 1] != '/'
    ensures ZaiCodingPlan(Some(u)) <==>
              && Lower(u.scheme) == "https" && FoldHost(u.host) == "api.z.ai" && Lower(path) == "/api/coding/paas/v4"
              && u.query == "" && u.fragment == ""
  {
    TrimIs(path, slashes);
  }

  // ---------------------------------------------------------------------------------------
  // The plain spellings
  // ---------------------------------------------------------------------------------------

  lemma TrimIs(t: string, z: string)
    requires Slashes(z) && t != "" && t[|t| - 1] != '/'
    ensures TrimSlashes(t + z) == t
  {
    var s := t + z;
    var cut := TrimSlashes(s);
    assert s[|t| - 1] != '/';
    assert forall k :: |t| <= k < |s| ==> s[k] == z[k - |t|];
    assert cut == s[..|cut|] && |cut| == |t|;
  }

  lemma SlashesSpellNothing(z: string)
    requires Slashes(z)
    ensures !Contains(z, PAYG)
  {
    if i :| 0 <= i < |z| && At(z, i, PAYG) {
      assert LowerChar(z[i + 1]) == Lower(z[i..i + |PAYG|])[1] == 'a';
    }
  }

  lemma PaygThenSlashes(z: string)
    requires Slashes(z)
    ensures TrimSlashes(CollapseVersions(PAYG + z)) == PAYG
  {
    var s := PAYG + z;
    AtWithin("", z);
    assert "" + PAYG + z == s;
    assert Find(s, PAYG, 0) == 0;
    assert VersionEnd(s, |PAYG|) == |PAYG| by {
      if |PAYG| + 2 < |s| { assert s[|PAYG| + 2] == z[2] == '/'; }
    }
    SlashesSpellNothing(z);
    CollapseNothing(z);
    assert s[|PAYG|..] == z && s[..0] == "";
    TrimIs(PAYG, z);
  }

  // A path that is its own prefix, in any case, and perhaps its version, up to final slashes.
  predicate Plain(raw: string) {
    var t := Lower(TrimSlashes(raw));
    t == CODING || t == CODING + "/v3"
  }

  lemma PlainPrefix(raw: string)
    requires Plain(raw)
    ensures At(raw, 0, CODING)
  {
    var t, n := TrimSlashes(raw), |CODING|;
    assert Lower(t)[..n] == CODING;
    assert Lower(t[..n]) == Lower(t)[..n];
    assert raw[0..0 + n] == t[..n];
  }

  lemma PlainReplaced(raw: string) returns (z: string)
    requires Plain(raw)
    ensures Slashes(z) && ReplaceCoding(raw) == PAYG + z
  {
    PlainPrefix(raw);
    PlainVersion(raw);
    assert Find(raw, CODING, 0) == 0;
    ReplaceStep(raw, 0);
    z := raw[CodingEnd(raw, 0)..];
    assert raw[..0] == "";
  }

  lemma PlainVersion(raw: string)
    requires Plain(raw)
    ensures VersionEnd(raw, |CODING|) == |TrimSlashes(raw)|
  {
    var t, n := TrimSlashes(raw), |CODING|;
    if |t| == n {
      if n + 2 < |raw| { assert raw[n + 2] == '/'; }
    } else {
      assert Lower(t)[n..n + 2] == "/v" && Lower(t)[n + 2] == LowerChar(t[n + 2]) == '3';
      assert raw[n..n + 2] == t[n..n + 2] && Lower(t[n..n + 2]) == Lower(t)[n..n + 2];
      assert DigitsEnd(raw, n + 3) == n + 3;
    }
  }

  // Every plain spelling of the subscription path becomes /api/v3.
  lemma PlainIsRewritten(raw: string)
    requires Plain(raw)
    ensures RewritePath(raw) == Some(PAYG)
  {
    var z := PlainReplaced(raw);
    PaygThenSlashes(z);
    AtWithin("", "");
    assert "" + PAYG + "" == PAYG;
    assert Contains(PAYG, PAYG);
    assert |Lower(TrimSlashes(raw))| != |PAYG|;
  }

  // ---------------------------------------------------------------------------------------
  // When the result is the pay-as-you-go path itself
  // ---------------------------------------------------------------------------------------

  // Where the first replacement stops consuming.
  function Consumed(raw: string): (k: nat)
    requires Find(raw, CODING, 0) < |raw|
    ensures k <= |raw|
  {
    CodingEnd(raw, Find(raw, CODING, 0))
  }

  // What neither replacement consumes: the path after its prefix, a version, one slash and, once
  // more, a version.
  function Leftover(raw: string): string
    requires Find(raw, CODING, 0) < |raw|
  {
    raw[Consumed(raw)..][VersionEnd(raw[Consumed(raw)..], 0)..]
  }

  lemma AtIs(s: string, i: nat, pattern: string, k: nat)
    requires k < |pattern|
    ensures At(s, i, pattern) ==> LowerChar(s[i + k]) == pattern[k]
  {
    if At(s, i, pattern) {
      var x := s[i..i + |pattern|];
      assert x[k] == s[i + k] && Lower(x)[k] == LowerChar(x[k]);
    }
  }

  // Part of a Coding Plan path spells no pay-as-you-go prefix.
  lemma SliceHasNoPayg(raw: string, lo: nat, hi: nat)
    requires CodingPath(raw) && lo <= hi <= |raw|
    ensures !Contains(raw[lo..hi], PAYG)
  {
    forall i | 0 <= i < hi - lo ensures !At(raw[lo..hi], i, PAYG) {
      if At(raw[lo..hi], i, PAYG) {
        AtSlice(raw, lo, hi, i);
        PaygIsNotCoding(raw, lo + i);
      }
    }
  }

  lemma SliceOfSlice(s: string, lo: nat, hi: nat, i: nat, j: nat)
    requires lo <= hi <= |s| && i <= j <= hi - lo
    ensures s[lo..hi][i..j] == s[lo + i..lo + j]
  {
    assert forall k :: 0 <= k < j - i ==> s[lo..hi][i..j][k] == s[lo + i..lo + j][k];
  }

  lemma AtSlice(s: string, lo: nat, hi: nat, i: nat)
    requires lo <= hi <= |s| && At(s[lo..hi], i, PAYG)
    ensures At(s, lo + i, PAYG)
  {
    SliceOfSlice(s, lo, hi, i, i + |PAYG|);
  }

  // Two occurrences of the prefix do not overlap.
  lemma OccurrencesApart(s: string, j: nat, n: nat)
    requires n + |PAYG| <= |s| && s[n..n + |PAYG|] == PAYG && j < n < j + |PAYG|
    ensures !At(s, j, PAYG)
  {
    var y := s[n..n + |PAYG|];
    assert s[n] == y[0] == '/' && s[n + 1] == y[1] == 'a';
    AtIs(s, j, PAYG, n - j);
    AtIs(s, j, PAYG, 5);
  }

  // Only the inserted prefix is found first.
  lemma FindsInserted(a: string, tail: string)
    requires !Contains(a, PAYG)
    ensures Find(a + PAYG + tail, PAYG, 0) == |a|
  {
    var s := a + PAYG + tail;
    AtWithin(a, tail);
    forall j | 0 <= j < |a| ensures !At(s, j, PAYG) {
      if j + |PAYG| <= |a| {
        assert a[j..j + |PAYG|] == s[j..j + |PAYG|];
        assert !At(a, j, PAYG);
      } else {
        assert s[|a|..|a| + |PAYG|] == PAYG;
        OccurrencesApart(s, j, |a|);
      }
    }
  }

  lemma {:induction false} DigitsShift(front: string, s: string, i: nat)
    requires i <= |s|
    ensures DigitsEnd(front + s, |front| + i) == |front| + DigitsEnd(s, i)
    decreases |s| - i
  {
    if i < |s| && Digit(s[i]) { DigitsShift(front, s, i + 1); }
  }

  lemma VersionShift(front: string, s: string)
    ensures VersionEnd(front + s, |front|) == |front| + VersionEnd(s, 0)
  {
    assert |s| >= 2 ==> (front + s)[|front|..|front| + 2] == s[0..2];
    if |s| > 2 { DigitsShift(front, s, 2); }
  }

  lemma Dropped(front: string, tail: string, v: nat)
    requires v <= |tail|
    ensures (front + tail)[|front| + v..] == tail[v..] && (front + tail)[..|front|] == front
  {}

  lemma DropTwice(s: string, k: nat, v: nat)
    requires k + v <= |s|
    ensures s[k..][v..] == s[k + v..|s|]
  {}

  lemma RestInserted(a: string, tail: string)
    ensures (a + PAYG + tail)[VersionEnd(a + PAYG + tail, |a| + |PAYG|)..] == tail[VersionEnd(tail, 0)..]
  {
    VersionShift(a + PAYG, tail);
    Dropped(a + PAYG, tail, VersionEnd(tail, 0));
  }

  lemma FrontInserted(a: string, tail: string)
    ensures (a + PAYG + tail)[..|a|] == a
  {}

  lemma CollapseInserted(a: string, tail: string)
    requires Find(a + PAYG + tail, PAYG, 0) == |a|
    requires CollapseVersions(tail[VersionEnd(tail, 0)..]) == tail[VersionEnd(tail, 0)..]
    ensures CollapseVersions(a + PAYG + tail) == a + PAYG + tail[VersionEnd(tail, 0)..]
  {
    CollapseStep(a + PAYG + tail, |a|);
    RestInserted(a, tail);
    FrontInserted(a, tail);
  }

  lemma LeftoverSlice(raw: string) returns (lo: nat)
    requires Find(raw, CODING, 0) < |raw|
    ensures lo <= |raw| && Leftover(raw) == raw[lo..|raw|]
  {
    var k := Consumed(raw);
    lo := k + VersionEnd(raw[k..], 0);
    DropTwice(raw, k, VersionEnd(raw[k..], 0));
  }

  // The two replacements of a Coding Plan path that spells its prefix.
  lemma Replaced(raw: string)
    requires CodingPath(raw) && Find(raw, CODING, 0) < |raw|
    ensures CollapseVersions(ReplaceCoding(raw)) == raw[..Find(raw, CODING, 0)] + PAYG + Leftover(raw)
  {
    var i, tail := Find(raw, CODING, 0), raw[Consumed(raw)..];
    var lo := LeftoverSlice(raw);
    SliceHasNoPayg(raw, 0, i);
    SliceHasNoPayg(raw, lo, |raw|);
    FindsInserted(raw[0..i], tail);
    CollapseNothing(Leftover(raw));
    CollapseInserted(raw[0..i], tail);
    assert raw[..i] == raw[0..i];
  }

  lemma TrimmedIff(a: string, z: string)
    requires a != "" && a[|a| - 1] != '/'
    ensures TrimSlashes(a + z) == a <==> Slashes(z)
    ensures TrimSlashes(a + z) != ""
  {
    var t := TrimSlashes(a + z);
    assert (a + z)[|a| - 1] != '/';
    if Slashes(z) {
      TrimIs(a, z);
    } else {
      var k :| 0 <= k < |z| && z[k] != '/';
      assert (a + z)[|a| + k] == z[k];
      assert |t| > |a|;
    }
  }

  lemma RewrittenIs(raw: string, s: string)
    requires RewritePath(raw).Some? && CollapseVersions(ReplaceCoding(raw)) == s && TrimSlashes(s) != ""
    ensures RewritePath(raw) == Some(TrimSlashes(s))
  {}

  // The promised path, whatever precedes /api/coding followed by /api/v3, comes out exactly when
  // nothing but slashes is left over.
  lemma RewritesToPaygIff(raw: string)
    requires CodingPath(raw) && Contains(raw, CODING)
    ensures Find(raw, CODING, 0) < |raw|
    ensures RewritePath(raw) == Some(raw[..Find(raw, CODING, 0)] + PAYG) <==> Slashes(Leftover(raw))
  {
    Found(raw, CODING);
    RewritePathIff(raw);
    Replaced(raw);
    var front := raw[..Find(raw, CODING, 0)] + PAYG;
    TrimmedIff(front, Leftover(raw));
    RewrittenIs(raw, front + Leftover(raw));
  }

  lemma JoinOfFour(a: string, b: string, c: string, d: string)
    ensures Join([a, b, c, d]) == "/" + a + "/" + b + "/" + c + "/" + d
  {
    JoinOfThree(b, c, d);
    assert [a, b, c, d][1..] == [b, c, d];
  }

  lemma DropsDot(a: string, b: string, c: string, d: string)
    requires a != "." && b != "." && c == "." && d != "."
    ensures DropDots([a, b, c, d]) == [a, b, d]
  {
    assert [a, b, c, d][1..] == [b, c, d] && [b, c, d][1..] == [c, d] && [c, d][1..] == [d] && [d][1..] == [];
    assert DropDots([d]) == [d] && DropDots([c, d]) == [d];
    assert DropDots([b, c, d]) == [b] + [d] && DropDots([a, b, c, d]) == [a] + [b, d];
  }

  predicate PlainWord(x: string) {
    x != "" && x[0] != '.' && forall i :: 0 <= i < |x| ==> x[i] != '/' && x[i] != '%'
  }

  lemma FoldsPlain(x: string)
    requires PlainWord(Lower(x))
    ensures PlainWord(x)
  {
    assert forall i :: 0 <= i < |x| ==> Lower(x)[i] == LowerChar(x[i]);
  }

  // Segments between slashes, one of them a dot, route as if it were not there.
  lemma DottedRoute(a: string, b: string, c: string, d: string)
    requires PlainWord(a) && PlainWord(b) && c == "." && PlainWord(d)
    ensures var raw := "/" + a + "/" + b + "/" + c + "/" + d;
            !Traverses(raw) && Route(raw) == LowerAll([a, b, d])
  {
    var raw := "/" + a + "/" + b + "/" + c + "/" + d;
    UnquotePlain(raw, "");
    assert raw + "" == raw;
    assert Unquote(raw) == raw;
    JoinOfFour(a, b, c, d);
    SegmentsOfJoin([a, b, c, d]);
    DropsDot(a, b, c, d);
  }

  lemma NoVersion(s: string, i: nat)
    requires i <= |s| && (i + 1 < |s| ==> s[i] != '/' || s[i + 1] == '.')
    ensures VersionEnd(s, i) == i
  {
    if i + 2 < |s| {
      var x := s[i..i + 2];
      assert x[0] == s[i] && x[1] == s[i + 1];
      assert Lower(x)[0] == LowerChar(s[i]) && Lower(x)[1] == LowerChar(s[i + 1]);
    }
  }

  // Where the plain spelling of the prefix is followed by a dot segment.
  lemma DotIsLeftOver(raw: string)
    requires |raw| > |CODING| + 1 && At(raw, 0, CODING) && raw[|CODING|] == '/' && raw[|CODING| + 1] == '.'
    ensures Find(raw, CODING, 0) == 0 && !Slashes(Leftover(raw))
  {
    var n := |CODING|;
    NoVersion(raw, n);
    var tail := raw[n + 1..];
    NoVersion(tail, 0);
    assert Leftover(raw) == tail && tail[0] == '.';
  }

  lemma DottedIsCoding(raw: string, a: string, b: string, d: string)
    requires raw == "/" + a + "/" + b + "/" + "." + "/" + d
    requires Lower(a) == "api" && Lower(b) == "coding" && Lower(d) == "v3"
    ensures CodingPath(raw)
  {
    FoldsPlain(a);
    FoldsPlain(b);
    FoldsPlain(d);
    DottedRoute(a, b, ".", d);
    assert LowerAll([a, b, d]) == [Lower(a), Lower(b), Lower(d)];
    CodingPathIff(raw);
  }

  lemma DottedSpells(raw: string, a: string, b: string, d: string)
    requires raw == "/" + a + "/" + b + "/" + "." + "/" + d
    requires Lower(a) == "api" && Lower(b) == "coding"
    ensures |raw| > |CODING| + 1 && At(raw, 0, CODING) && raw[|CODING|] == '/' && raw[|CODING| + 1] == '.'
  {
    var head := "/" + a + "/" + b;
    LowerParts("/" + a + "/", b);
    LowerParts("/" + a, "/");
    LowerParts("/", a);
    assert Lower("/") == "/";
    assert Lower(head) == CODING && raw[0..0 + |CODING|] == head;
  }

  // A dot segment before the version, in any case, is such a leftover: the path is rewritten, but
  // not to /api/v3.
  lemma DottedIsMangled(raw: string, a: string, b: string, d: string)
    requires raw == "/" + a + "/" + b + "/" + "." + "/" + d
    requires Lower(a) == "api" && Lower(b) == "coding" && Lower(d) == "v3"
    ensures CodingPath(raw) && RewritePath(raw).Some? && RewritePath(raw) != Some(PAYG)
  {
    DottedIsCoding(raw, a, b, d);
    DottedSpells(raw, a, b, d);
    LeftoverIsMangled(raw);
  }

  lemma LeftoverIsMangled(raw: string)
    requires CodingPath(raw)
    requires |raw| > |CODING| + 1 && At(raw, 0, CODING) && raw[|CODING|] == '/' && raw[|CODING| + 1] == '.'
    ensures RewritePath(raw).Some? && RewritePath(raw) != Some(PAYG)
  {
    DotIsLeftOver(raw);
    Found(raw, CODING);
    RewritePathIff(raw);
    RewritesToPaygIff(raw);
    assert raw[..0] + PAYG == PAYG;
  }

  // ---------------------------------------------------------------------------------------
  // When nothing is rewritten at all
  // ---------------------------------------------------------------------------------------

  lemma EscapedDecodes(x: string, b: string)
    requires '%' !in b
    ensures Unquote("/" + (x + ("/" + b))) == "/" + (Unquote(x) + ("/" + b))
  {
    UnquotePlain("/", x + ("/" + b));
    UnquoteParts(x, "/" + b);
    UnquotePlain("/" + b, "");
    assert ("/" + b) + "" == "/" + b && ("/" + b) + Unquote("") == "/" + b;
  }

  lemma TwoSegments(a: string, b: string)
    requires IsSegment(a) && IsSegment(b)
    ensures Segments("/" + (a + ("/" + b))) == [a, b]
  {
    SegmentsOfRooted(a + ("/" + b));
    SegmentFirst(a, "/" + b);
    SegmentsOfRooted(b);
    SegmentFirst(b, "");
    assert b + "" == b;
  }

  lemma NoDots(a: string, b: string)
    requires a != "." && b != "."
    ensures DropDots([a, b]) == [a, b]
  {
    assert [a, b][1..] == [b] && [b][1..] == [] && DropDots([b]) == [b];
  }

  // Two segments, the first perhaps escaped.
  lemma EscapedRoute(x: string, b: string)
    requires PlainWord(Unquote(x)) && PlainWord(b)
    ensures !Traverses("/" + (x + ("/" + b))) && Route("/" + (x + ("/" + b))) == LowerAll([Unquote(x), b])
  {
    EscapedDecodes(x, b);
    TwoSegments(Unquote(x), b);
    NoDots(Unquote(x), b);
  }

  lemma EscapedIsCoding(x: string, b: string)
    requires Lower(Unquote(x)) == "api" && Lower(b) == "coding"
    ensures CodingPath("/" + (x + ("/" + b)))
  {
    FoldsPlain(Unquote(x));
    FoldsPlain(b);
    EscapedRoute(x, b);
    assert LowerAll([Unquote(x), b]) == [Lower(Unquote(x)), Lower(b)];
    CodingPathIff("/" + (x + ("/" + b)));
  }

  lemma EscapedSpellsNothing(x: string, b: string)
    requires x != "" && x[0] == '%' && '/' !in x && '/' !in b && |b| == 6
    ensures !Contains("/" + (x + ("/" + b)), CODING)
  {
    var raw := "/" + (x + ("/" + b));
    assert forall k :: 0 < k <= |x| ==> raw[k] == x[k - 1] && x[k - 1] in x;
    forall i | 0 <= i < |raw| ensures !At(raw, i, CODING) {
      AtIs(raw, i, CODING, 0);
      AtIs(raw, i, CODING, 1);
    }
  }

  lemma SixLetters(b: string)
    requires Lower(b) == "coding"
    ensures |b| == 6 && '/' !in b
  {
    FoldsPlain(b);
  }

  lemma Unspelled(raw: string)
    requires CodingPath(raw) && !Contains(raw, CODING)
    ensures RewritePath(raw).None?
  {
    RewritePathIff(raw);
  }

  // A Coding Plan path whose prefix begins with a percent-escape is classified but not rewritten.
  lemma EscapedIsNotRewritten(x: string, b: string)
    requires Lower(Unquote(x)) == "api" && Lower(b) == "coding"
    requires x != "" && x[0] == '%' && '/' !in x
    ensures CodingPath("/" + (x + ("/" + b))) && RewritePath("/" + (x + ("/" + b))).None?
  {
    var raw := "/" + (x + ("/" + b));
    assert CodingPath(raw) by { EscapedIsCoding(x, b); }
    assert !Contains(raw, CODING) by {
      SixLetters(b);
      EscapedSpellsNothing(x, b);
    }
    Unspelled(raw);
  }

  // For example /%61pi/coding.
  lemma EscapedPrefix(x: string, b: string)
    requires x == "%61pi" && b == "coding"
    ensures CodingPath("/" + (x + ("/" + b))) && RewritePath("/" + (x + ("/" + b))).None?
  {
    LowerKeeps("api");
    LowerKeeps(b);
    UnquotesToApi(x);
    EscapedIsNotRewritten(x, b);
  }

  lemma UnquotesToApi(x: string)
    requires x == "%61pi"
    ensures Unquote(x) == "api"
  {
    assert HexValue('6') == 6 && HexValue('1') == 1 && (16 * 6 + 1) as char == 'a';
    assert Escape(x) && x[3..] == "pi";
    UnquotePlain(x[3..], "");
    assert x[3..] + "" == x[3..];
  }

  lemma UnescapedIsCoding(a: string, b: string)
    requires a == "api" && b == "coding"
    ensures CodingPath("/" + (a + ("/" + b)))
  {
    LowerKeeps(a);
    LowerKeeps(b);
    UnquotePlain(a, "");
    assert a + "" == a && a + Unquote("") == a;
    EscapedIsCoding(a, b);
  }

  lemma SpellsItself(raw: string)
    requires raw == CODING
    ensures Contains(raw, CODING)
  {
    PaygItself();
    assert raw[0..0 + |CODING|] == raw;
    assert At(raw, 0, CODING);
  }

  lemma CodingItself(raw: string)
    requires raw == CODING
    ensures CodingPath(raw) && Contains(raw, CODING)
  {
    var a, b := raw[1..4], raw[5..];
    assert raw == "/" + (a + ("/" + b));
    UnescapedIsCoding(a, b);
    SpellsItself(raw);
  }

  lemma ModelArkHost(u: Url, host: string)
    requires u.host == host == "volces.com"
    ensures ModelArk(u) && FoldHost(u.host) != "api.z.ai"
  {
    assert FoldHost(host) == host;
    assert host[|host| - 1] == 'm';
    assert TrimDots(host) == host;
  }

  // A Coding Plan URL that is rewritten.
  lemma PlainCodingUrl(u: Url)
    requires u.host == "volces.com" && u.path == CODING
    ensures CodingPlan(Some(u)) && CodingToPayg(Some(u)).Some? && !ZaiCodingPlan(Some(u))
  {
    ModelArkHost(u, u.host);
    CodingItself(u.path);
    RewriteLeavesSubscription(Some(u));
  }
}
