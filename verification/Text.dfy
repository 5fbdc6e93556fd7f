/** Strings: ASCII case, decimal numerals, and the code-point order that `sorted` uses. */
module Text {

  // ASCII letters lose their case, and nothing else changes.
  function LowerChar(c: char): (r: char)
    ensures 'A' <= c <= 'Z' ==> 'a' <= r <= 'z' && r as int - 'a' as int == c as int - 'A' as int
    ensures !('A' <= c <= 'Z') ==> r == c
  {
    if 'A' <= c <= 'Z' then (c as int + 32) as char else c
  }

  function Lower(s: string): (r: string)
    ensures |r| == |s| && forall i :: 0 <= i < |s| ==> r[i] == LowerChar(s[i])
  {
    seq(|s|, i requires 0 <= i < |s| => LowerChar(s[i]))
  }

  lemma LowerKeeps(s: string)
    requires forall i :: 0 <= i < |s| ==> !('A' <= s[i] <= 'Z')
    ensures Lower(s) == s
  {}

  // ---------------------------------------------------------------------------------------
  // Order
  // ---------------------------------------------------------------------------------------

  predicate Less(a: string, b: string) {
    b != "" && (a == "" || a[0] < b[0] || (a[0] == b[0] && Less(a[1..], b[1..])))
  }

  lemma {:induction false} Irreflexive(a: string)
    ensures !Less(a, a)
  {
    if a == "" {
    } else {
      Irreflexive(a[1..]);
    }
  }

  lemma {:induction false} Transitive(a: string, b: string, c: string)
    requires Less(a, b) && Less(b, c)
    ensures Less(a, c)
  {
    if a == "" {
    } else if a[0] == b[0] == c[0] {
      Transitive(a[1..], b[1..], c[1..]);
    }
  }

  lemma {:induction false} Total(a: string, b: string)
    ensures Less(a, b) || a == b || Less(b, a)
  {
    if a == "" || b == "" {
    } else if a[0] == b[0] {
      Total(a[1..], b[1..]);
      assert a == [a[0]] + a[1..] && b == [b[0]] + b[1..];
    }
  }

  // The order is decided at the first difference, by code point; a proper prefix comes first.
  lemma {:induction false} FirstDifference(p: string, c: char, d: char, x: string, y: string)
    requires c < d
    ensures Less(p + [c] + x, p + [d] + y) && Less(p, p + [c] + x)
  {
    if p == "" {
      assert p + [c] + x == [c] + x && p + [d] + y == [d] + y;
    } else {
      var t := p[1..];
      assert (p + [c] + x)[1..] == t + [c] + x && (p + [d] + y)[1..] == t + [d] + y;
      FirstDifference(t, c, d, x, y);
    }
  }

  // Strictly increasing, hence without repetition: what sorted(set(...)) yields.
  predicate Sorted(s: seq<string>) {
    forall i :: 0 < i < |s| ==> Less(s[i - 1], s[i])
  }

  lemma {:induction false} SortedApart(s: seq<string>, i: nat, j: nat)
    requires Sorted(s) && i < j < |s|
    ensures Less(s[i], s[j]) && s[i] != s[j]
    decreases j
  {
    if i < j - 1 {
      SortedApart(s, i, j - 1);
      Transitive(s[i], s[j - 1], s[j]);
    }
    Irreflexive(s[i]);
  }

  // A set has one sorted enumeration.
  lemma {:induction false} SortedUnique(s: seq<string>, t: seq<string>)
    requires Sorted(s) && Sorted(t) && forall x :: x in s <==> x in t
    ensures s == t
    decreases |s|
  {
    assert (s != [] ==> s[0] in s) && (t != [] ==> t[0] in t);
    if s == [] || t == [] {
    } else {
      HeadLeast(s, t);
      HeadLeast(t, s);
      if s[0] != t[0] { Transitive(s[0], t[0], s[0]); Irreflexive(s[0]); assert false; }
      forall x ensures x in s[1..] <==> x in t[1..] {
        TailMember(s, x);
        TailMember(t, x);
      }
      SortedUnique(s[1..], t[1..]);
      assert s == [s[0]] + s[1..] && t == [t[0]] + t[1..];
    }
  }

  lemma HeadLeast(s: seq<string>, t: seq<string>)
    requires Sorted(s) && s != [] && t != [] && forall x :: x in s <==> x in t
    ensures s[0] == t[0] || Less(s[0], t[0])
  {
    assert t[0] in s;
    var j :| 0 <= j < |s| && s[j] == t[0];
    if j > 0 { SortedApart(s, 0, j); }
  }

  lemma TailMember(s: seq<string>, x: string)
    requires Sorted(s) && s != []
    ensures x in s[1..] <==> x in s && x != s[0]
  {
    if x in s[1..] {
      var j :| 0 <= j < |s[1..]| && s[1..][j] == x;
      SortedApart(s, 0, j + 1);
      assert s[j + 1] == x;
    }
    if x in s && x != s[0] {
      var j :| 0 <= j < |s| && s[j] == x;
      assert s[1..][j - 1] == x;
    }
  }

  // The sorted enumeration of a set.
  ghost predicate Enumerates(paths: seq<string>, names: set<string>) {
    Sorted(paths) && forall p :: p in paths <==> p in names
  }

  lemma {:induction false} EnumerationSize(paths: seq<string>, names: set<string>)
    requires Enumerates(paths, names)
    ensures |paths| == |names|
  {
    if paths == [] {
      assert names == {};
    } else {
      assert paths[0] in paths;
      forall p ensures p in paths[1..] <==> p in names - {paths[0]} { TailMember(paths, p); }
      EnumerationSize(paths[1..], names - {paths[0]});
    }
  }

  method InsertSorted(paths: seq<string>, name: string) returns (out: seq<string>)
    requires Sorted(paths) && name !in paths
    ensures Sorted(out) && forall p :: p in out <==> p in paths || p == name
  {
    var i := |paths|;
    while i > 0 && Less(name, paths[i - 1])
      invariant 0 <= i <= |paths|
      invariant i < |paths| ==> Less(name, paths[i])
    {
      i := i - 1;
    }
    if i > 0 {
      Total(name, paths[i - 1]);
    }
    out := paths[..i] + [name] + paths[i..];
    assert forall p :: p in out <==> p in paths || p == name by {
      assert paths == paths[..i] + paths[i..];
    }
  }

  // sorted(set(files), key=...)
  method SortedPaths(names: set<string>) returns (paths: seq<string>)
    ensures Enumerates(paths, names)
  {
    paths := [];
    var rest := names;
    while rest != {}
      invariant rest <= names && Sorted(paths)
      invariant forall p :: p in paths <==> p in names && p !in rest
      decreases |rest|
    {
      var p :| p in rest;
      paths := InsertSorted(paths, p);
      rest := rest - {p};
    }
  }

  // ---------------------------------------------------------------------------------------
  // Decimal numerals
  // ---------------------------------------------------------------------------------------

  predicate Digit(c: char) {
    '0' <= c <= '9'
  }

  function Decimal(n: nat): (s: string)
    ensures s != "" && forall i :: 0 <= i < |s| ==> Digit(s[i])
  {
    if n < 10 then [('0' as int + n) as char] else Decimal(n / 10) + Decimal(n % 10)
  }

  // The number that a string of digits spells.
  function Value(s: string): int {
    if s == "" then 0 else 10 * Value(s[..|s| - 1]) + s[|s| - 1] as int - '0' as int
  }

  lemma {:induction false} DecimalSpells(n: nat)
    ensures Value(Decimal(n)) == n
  {
    if n < 10 {
      assert Decimal(n)[..0] == "";
    } else {
      DecimalSpells(n / 10);
      var s := Decimal(n);
      assert |Decimal(n % 10)| == 1 && s[..|s| - 1] == Decimal(n / 10);
    }
  }

  lemma {:induction false} DecimalInjective(m: nat, n: nat)
    requires Decimal(m) == Decimal(n)
    ensures m == n
    decreases m + n
  {
    assert (m >= 10 ==> |Decimal(m)| >= 2) && (n >= 10 ==> |Decimal(n)| >= 2);
    if m >= 10 && n >= 10 {
      var s := Decimal(m);
      assert s == Decimal(m / 10) + Decimal(m % 10) && s == Decimal(n / 10) + Decimal(n % 10);
      assert |Decimal(m % 10)| == 1 && |Decimal(n % 10)| == 1;
      assert Decimal(m / 10) == s[..|s| - 1] == Decimal(n / 10);
      assert Decimal(m % 10) == s[|s| - 1..] == Decimal(n % 10);
      DecimalInjective(m / 10, n / 10);
      DecimalInjective(m % 10, n % 10);
    }
  }

  // A text that ends in a numeral after a non-digit splits there in only one way.
  lemma NumeralSuffix(a: string, b: string, m: nat, n: nat)
    requires a != "" && b != "" && !Digit(a[|a| - 1]) && !Digit(b[|b| - 1])
    requires a + Decimal(m) == b + Decimal(n)
    ensures a == b && m == n
  {
    var s := a + Decimal(m);
    assert forall i :: |a| <= i < |s| ==> s[i] == Decimal(m)[i - |a|];
    assert forall i :: |b| <= i < |s| ==> s[i] == Decimal(n)[i - |b|];
    assert s[|a| - 1] == a[|a| - 1] && s[|b| - 1] == b[|b| - 1];
    assert |a| == |b|;
    assert s[..|a|] == a && s[..|a|] == b && s[|a|..] == Decimal(m) && s[|a|..] == Decimal(n);
    DecimalInjective(m, n);
  }
}
