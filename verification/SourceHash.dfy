/** The release source hash: which files it covers, and the byte stream it feeds to SHA-256.
  *
  * Byte strings, and the UTF-8 of paths, are strings of characters below 256.  SHA-256 itself is
  * injective by assumption, so the model compares streams.
  */
module SourceHash {
  import opened Wrappers
  import opened Text

  // ---------------------------------------------------------------------------------------
  // Which files
  // ---------------------------------------------------------------------------------------

  const PAYLOAD_ROOTS: seq<string> := [
    "CHANGELOG.md", "LICENSE", "TERMS.md", "PRODUCT.md", "README.md",
    "install.py", "plugin.json", "summon.py", "mcp.json", "tools",
    "docs", "skills/summon", "skills/council", "skills/deliberate",
    "tests", ".github/workflows"]

  predicate OccursAt(s: string, i: nat, word: string) {
    i + |word| <= |s| && s[i..i + |word|] == word
  }

  // The word is the component of the path that begins at i.
  predicate PartAt(path: string, i: nat, word: string) {
    && OccursAt(path, i, word)
    && (i == 0 || path[i - 1] == '/')
    && (i + |word| == |path| || path[i + |word|] == '/')
  }

  predicate HasPart(path: string, word: string) {
    exists i :: 0 <= i <= |path| && PartAt(path, i, word)
  }

  // The word is a component, and not the last one.
  predicate HasDirectory(path: string, word: string) {
    exists i :: 0 <= i <= |path| && PartAt(path, i, word) && i + |word| < |path|
  }

  // Where the last component begins.
  function NameStart(path: string): (n: nat)
    ensures n <= |path| && (n > 0 ==> path[n - 1] == '/') && forall i :: n <= i < |path| ==> path[i] != '/'
  {
    if path == "" then 0
    else if path[|path| - 1] == '/' then |path|
    else NameStart(path[..|path| - 1])
  }

  // The position of the last dot of a name, if any.
  function LastDot(name: string): (i: int)
    ensures -1 <= i < |name| && (i >= 0 ==> name[i] == '.') && forall j :: i < j < |name| ==> name[j] != '.'
  {
    if name == "" then -1
    else if name[|name| - 1] == '.' then |name| - 1
    else LastDot(name[..|name| - 1])
  }

  function Suffix(path: string): string {
    var name := path[NameStart(path)..];
    var i := LastDot(name);
    if 0 < i < |name| - 1 then name[i..] else ""
  }

  predicate Under(path: string, root: string) {
    path == root || root + "/" <= path
  }

  predicate Included(path: string) {
    && (exists k :: 0 <= k < |PAYLOAD_ROOTS| && Under(path, PAYLOAD_ROOTS[k]))
    && !HasPart(path, "__pycache__") && !HasDirectory(path, ".pytest_cache")
    && Suffix(path) != ".pyc"
  }

  predicate IsText(path: string) {
    var s := Lower(Suffix(path));
    s == ".md" || s == ".json" || s == ".py" || s == ".txt" || s == ".yml" || s == ".yaml"
  }

  // The last component begins at n.
  predicate NameAt(path: string, n: nat) {
    n <= |path| && (n > 0 ==> path[n - 1] == '/') && forall i :: n <= i < |path| ==> path[i] != '/'
  }

  lemma JoinedName(path: string, dir: string, name: string)
    requires '/' !in name && path == dir + "/" + name
    ensures NameAt(path, |dir| + 1) && path[|dir| + 1..] == name
  {
    var n := |dir| + 1;
    forall i | n <= i < |path| ensures path[i] != '/' { assert path[i] == name[i - n] && name[i - n] in name; }
  }

  lemma NameStartIs(path: string, n: nat)
    requires NameAt(path, n)
    ensures NameStart(path) == n
  {}

  lemma SuffixOfName(path: string, n: nat)
    requires NameAt(path, n)
    ensures var name := path[n..];
            var i := LastDot(name);
            Suffix(path) == if 0 < i < |name| - 1 then name[i..] else ""
  {
    NameStartIs(path, n);
  }

  lemma LastDotIs(name: string, stem: string, ext: string)
    requires '.' !in ext && name == stem + "." + ext
    ensures LastDot(name) == |stem| && name[|stem|..] == "." + ext
  {
    var n := |stem|;
    assert name[n] == '.';
    forall j | n < j < |name| ensures name[j] != '.' { assert name[j] == ext[j - n - 1] && ext[j - n - 1] in ext; }
  }

  lemma NoDot(name: string)
    requires '.' !in name
    ensures LastDot(name) == -1
  {}

  // The suffix of a path is what follows the last dot of its last component, with the dot, unless
  // the dot begins or ends that component.
  lemma SuffixIs(path: string, dir: string, stem: string, ext: string)
    requires '/' !in stem && '/' !in ext && '.' !in ext && path == dir + "/" + (stem + "." + ext)
    ensures Suffix(path) == if stem == "" || ext == "" then "" else "." + ext
  {
    var name := stem + "." + ext;
    JoinedName(path, dir, name);
    SuffixOfName(path, |dir| + 1);
    LastDotIs(name, stem, ext);
  }

  lemma NoSuffix(path: string, dir: string, name: string)
    requires '/' !in name && '.' !in name && path == dir + "/" + name
    ensures Suffix(path) == ""
  {
    JoinedName(path, dir, name);
    SuffixOfName(path, |dir| + 1);
    NoDot(name);
  }

  lemma DottedIff(ext: string, word: string, dotted: string)
    requires |dotted| == |word| + 1 && dotted[0] == '.' && dotted[1..] == word
    ensures Lower("." + ext) == dotted <==> Lower(ext) == word
  {
    assert Lower("." + ext) == "." + Lower(ext);
    assert dotted == "." + word && ("." + Lower(ext))[1..] == Lower(ext);
  }

  lemma TextOfSuffix(path: string, ext: string)
    requires Suffix(path) == "." + ext
    ensures IsText(path) <==>
              var low := Lower(ext);
              low == "md" || low == "json" || low == "py" || low == "txt" || low == "yml" || low == "yaml"
  {
    DottedIff(ext, "md", ".md");
    DottedIff(ext, "json", ".json");
    DottedIff(ext, "py", ".py");
    DottedIff(ext, "txt", ".txt");
    DottedIff(ext, "yml", ".yml");
    DottedIff(ext, "yaml", ".yaml");
  }

  // Line endings are canonical in the files with one of six extensions, in any letter case.
  lemma TextIff(path: string, dir: string, stem: string, ext: string)
    requires '/' !in stem && '/' !in ext && '.' !in ext && stem != "" && ext != ""
    requires path == dir + "/" + (stem + "." + ext)
    ensures IsText(path) <==>
              var low := Lower(ext);
              low == "md" || low == "json" || low == "py" || low == "txt" || low == "yml" || low == "yaml"
  {
    SuffixIs(path, dir, stem, ext);
    TextOfSuffix(path, ext);
  }

  lemma UnsuffixedIsNotText(path: string)
    requires Suffix(path) == ""
    ensures !IsText(path)
  {}

  // The release files, and what lies in the release directories.
  predicate Released(path: string) {
    || Under(path, "CHANGELOG.md") || Under(path, "LICENSE") || Under(path, "TERMS.md") || Under(path, "PRODUCT.md")
    || Under(path, "README.md") || Under(path, "install.py") || Under(path, "plugin.json") || Under(path, "summon.py")
    || Under(path, "mcp.json") || Under(path, "tools") || Under(path, "docs") || Under(path, "skills/summon")
    || Under(path, "skills/council") || Under(path, "skills/deliberate") || Under(path, "tests")
    || Under(path, ".github/workflows")
  }

  lemma ReleasedIff(path: string)
    ensures Released(path) <==> exists k :: 0 <= k < |PAYLOAD_ROOTS| && Under(path, PAYLOAD_ROOTS[k])
  {
    var roots := PAYLOAD_ROOTS;
    assert Released(path) <==>
      || Under(path, roots[0]) || Under(path, roots[1]) || Under(path, roots[2]) || Under(path, roots[3])
      || Under(path, roots[4]) || Under(path, roots[5]) || Under(path, roots[6]) || Under(path, roots[7])
      || Under(path, roots[8]) || Under(path, roots[9]) || Under(path, roots[10]) || Under(path, roots[11])
      || Under(path, roots[12]) || Under(path, roots[13]) || Under(path, roots[14]) || Under(path, roots[15]);
    if k :| 0 <= k < |roots| && Under(path, roots[k]) { assert |roots| == 16; }
  }

  // Wherever the word occurs in the path, it is part of a longer name.
  ghost predicate Embedded(path: string, word: string) {
    forall i :: 0 <= i <= |path| && OccursAt(path, i, word) ==>
      (i > 0 && path[i - 1] != '/') || (i + |word| < |path| && path[i + |word|] != '/')
  }

  // Wherever it does not end the path.
  ghost predicate EmbeddedOrLast(path: string, word: string) {
    forall i :: 0 <= i && i + |word| < |path| && OccursAt(path, i, word) ==>
      (i > 0 && path[i - 1] != '/') || path[i + |word|] != '/'
  }

  // Nothing else is hashed, and all of it is where no component names the bytecode cache, none but
  // the last the test cache, and the name does not end in .pyc.
  lemma ReleasedIsHashed(path: string)
    ensures Included(path) ==> Released(path)
    ensures && Released(path)
            && Embedded(path, "__pycache__") && EmbeddedOrLast(path, ".pytest_cache")
            && (|path| < 4 || path[|path| - 4..] != ".pyc")
            ==> Included(path)
  {
    ReleasedIff(path);
    SuffixEnds(path);
  }

  lemma SuffixEnds(path: string)
    ensures |Suffix(path)| <= |path| && path[|path| - |Suffix(path)|..] == Suffix(path)
  {}

  // No file of a bytecode or test cache is hashed, wherever it is, nor any bytecode file.
  lemma CachesAreNotHashed(before: string, cache: string, after: string)
    requires cache == "__pycache__" || cache == ".pytest_cache"
    requires if after == "" then cache == "__pycache__" else after[0] == '/'
    ensures !Included(before + "/" + (cache + after))
  {
    var path, i := before + "/" + (cache + after), |before| + 1;
    assert path[i..i + |cache|] == cache && path[i - 1] == '/';
    assert after != "" ==> path[i + |cache|] == '/';
    assert PartAt(path, i, cache);
  }

  lemma BytecodeIsNotHashed(path: string, dir: string, stem: string, ext: string)
    requires '/' !in stem && stem != "" && ext == "pyc" && path == dir + "/" + (stem + "." + ext)
    ensures !Included(path)
  {
    Letters(ext);
    SuffixIs(path, dir, stem, ext);
    BytecodeSuffix(path, "." + ext);
  }

  lemma Letters(ext: string)
    requires ext == "pyc"
    ensures "." + ext == ".pyc" && '/' !in ext && '.' !in ext && ext != ""
  {}

  lemma BytecodeSuffix(path: string, suffix: string)
    requires Suffix(path) == suffix && suffix == ".pyc"
    ensures !Included(path)
  {}

  // ---------------------------------------------------------------------------------------
  // Line endings
  // ---------------------------------------------------------------------------------------

  predicate CrlfAt(d: string, i: nat) {
    i + 1 < |d| && d[i] == '\r' && d[i + 1] == '\n'
  }

  // data.replace(b"\r\n", b"\n")
  function Canonical(d: string): (r: string)
    ensures |r| <= |d|
  {
    if d == "" then ""
    else if CrlfAt(d, 0) then "\n" + Canonical(d[2..])
    else [d[0]] + Canonical(d[1..])
  }

  function CanonicalBytes(path: string, d: string): string {
    if IsText(path) then Canonical(d) else d
  }

  // What a checkout with autocrlf does to a file.
  function ToCrlf(d: string): (r: string)
    ensures r != "" ==> r[0] != '\n'
  {
    if d == "" then "" else (if d[0] == '\n' then "\r\n" else [d[0]]) + ToCrlf(d[1..])
  }

  lemma {:induction false} CanonicalUndoesCrlf(d: string)
    ensures Canonical(ToCrlf(d)) == d
  {
    if d == "" {
    } else {
      CanonicalUndoesCrlf(d[1..]);
      var rest := ToCrlf(d[1..]);
      if d[0] == '\n' {
        assert ToCrlf(d)[2..] == rest;
      } else {
        assert ToCrlf(d)[1..] == rest;
      }
      assert d == [d[0]] + d[1..];
    }
  }

  lemma {:induction false} CanonicalFixesIff(d: string)
    ensures Canonical(d) == d <==> forall i: nat :: !CrlfAt(d, i)
    ensures Canonical(d) != d ==> |Canonical(d)| < |d|
  {
    if d == "" {
    } else if CrlfAt(d, 0) {
      assert |Canonical(d)| < |d|;
    } else {
      CanonicalFixesIff(d[1..]);
      assert d == [d[0]] + d[1..];
      if i: nat :| CrlfAt(d, i) {
        assert CrlfAt(d[1..], i - 1);
      }
      if i: nat :| CrlfAt(d[1..], i) {
        assert CrlfAt(d, i + 1);
      }
    }
  }

  // Turning every LF of a file into CRLF leaves what is hashed unchanged exactly for the files
  // that contain no CRLF to begin with.
  lemma CrlfInvariantIff(d: string)
    ensures Canonical(ToCrlf(d)) == Canonical(d) <==> forall i: nat :: !CrlfAt(d, i)
  {
    CanonicalUndoesCrlf(d);
    CanonicalFixesIff(d);
  }

  // ---------------------------------------------------------------------------------------
  // Length-prefixed framing
  // ---------------------------------------------------------------------------------------

  const TWO_TO_64: nat := 0x1_0000_0000_0000_0000

  // The k low bytes of n, most significant first.
  function BigEndian(n: nat, k: nat): (s: string)
    ensures |s| == k
  {
    if k == 0 then "" else BigEndian(n / 256, k - 1) + [(n % 256) as char]
  }

  function Pow256(k: nat): (p: nat)
    ensures p > 0
  {
    if k == 0 then 1 else 256 * Pow256(k - 1)
  }

  lemma {:induction false} BigEndianInjective(m: nat, n: nat, k: nat)
    requires m < Pow256(k) && n < Pow256(k) && BigEndian(m, k) == BigEndian(n, k)
    ensures m == n
  {
    if k > 0 {
      var s := BigEndian(m, k);
      assert s[..k - 1] == BigEndian(m / 256, k - 1) == BigEndian(n / 256, k - 1);
      assert s[k - 1] == (m % 256) as char == (n % 256) as char;
      BigEndianInjective(m / 256, n / 256, k - 1);
    }
  }

  // The number that a byte string spells, most significant byte first.
  function BigValue(s: string): int {
    if s == "" then 0 else 256 * BigValue(s[..|s| - 1]) + s[|s| - 1] as int
  }

  lemma {:induction false} BigEndianSpells(n: nat, k: nat)
    requires n < Pow256(k)
    ensures BigValue(BigEndian(n, k)) == n
  {
    if k > 0 {
      var s := BigEndian(n, k);
      assert s[..k - 1] == BigEndian(n / 256, k - 1);
      BigEndianSpells(n / 256, k - 1);
    }
  }

  lemma Pow256Of8()
    ensures Pow256(8) == TWO_TO_64
  {
    assert Pow256(4) == 0x1_0000_0000;
    assert Pow256(8) == 256 * 256 * 256 * 256 * Pow256(4);
  }

  // len(x).to_bytes(8, "big") followed by x.
  function Frame(x: string): string {
    BigEndian(|x|, 8) + x
  }

  lemma FramesParse(a: string, b: string, x: string, y: string)
    requires |a| < TWO_TO_64 && |b| < TWO_TO_64 && Frame(a) + x == Frame(b) + y
    ensures a == b && x == y
  {
    var s := Frame(a) + x;
    assert s[..8] == BigEndian(|a|, 8) && s[..8] == BigEndian(|b|, 8);
    Pow256Of8();
    BigEndianInjective(|a|, |b|, 8);
    assert s[8..8 + |a|] == a && s[8..8 + |a|] == b;
    assert s[8 + |a|..] == x && s[8 + |a|..] == y;
  }

  datatype Entry = Entry(path: string, data: string)

  predicate Sized(e: Entry) {
    |e.path| < TWO_TO_64 && |e.data| < TWO_TO_64
  }

  function Stream(entries: seq<Entry>): string {
    if entries == [] then "" else Frame(entries[0].path) + Frame(entries[0].data) + Stream(entries[1..])
  }

  // No two payload lists share a stream: order, paths and contents can all be read back.
  lemma {:induction false} StreamInjective(a: seq<Entry>, b: seq<Entry>)
    requires (forall e :: e in a ==> Sized(e)) && (forall e :: e in b ==> Sized(e))
    ensures Stream(a) == Stream(b) <==> a == b
    decreases |a|
  {
    if a != [] && b != [] && Stream(a) == Stream(b) {
      StreamHead(a);
      StreamHead(b);
      assert Sized(a[0]) && Sized(b[0]);
      FramesParse(a[0].path, b[0].path, Frame(a[0].data) + Stream(a[1..]), Frame(b[0].data) + Stream(b[1..]));
      FramesParse(a[0].data, b[0].data, Stream(a[1..]), Stream(b[1..]));
      StreamInjective(a[1..], b[1..]);
      assert a == [a[0]] + a[1..] && b == [b[0]] + b[1..];
    }
  }

  lemma StreamHead(a: seq<Entry>)
    requires a != []
    ensures Stream(a) == Frame(a[0].path) + (Frame(a[0].data) + Stream(a[1..]))
  {}

  lemma {:induction false} StreamAppend(a: seq<Entry>, e: Entry)
    ensures Stream(a + [e]) == Stream(a) + Frame(e.path) + Frame(e.data)
  {
    if a == [] {
      assert a + [e] == [e] && Stream([e][1..]) == "";
    } else {
      assert (a + [e])[1..] == a[1..] + [e];
      StreamAppend(a[1..], e);
    }
  }

  // ---------------------------------------------------------------------------------------
  // The hash of a tree
  // ---------------------------------------------------------------------------------------

  // What the hash is meant to depend on: included paths and their canonical contents.
  function Payload(tree: map<string, string>): map<string, string> {
    map p | p in tree && Included(p) :: CanonicalBytes(p, tree[p])
  }

  function Entries(paths: seq<string>, payload: map<string, string>): (entries: seq<Entry>)
    requires forall p :: p in paths ==> p in payload
    ensures |entries| == |paths|
    ensures forall i :: 0 <= i < |paths| ==> entries[i] == Entry(paths[i], payload[paths[i]])
  {
    if paths == [] then [] else [Entry(paths[0], payload[paths[0]])] + Entries(paths[1..], payload)
  }

  ghost predicate SizedPayload(payload: map<string, string>) {
    forall p :: p in payload ==> |p| < TWO_TO_64 && |payload[p]| < TWO_TO_64
  }

  // What is hashed for a tree, as a relation: the frames of its payload in sorted order.
  ghost predicate Hashes(tree: map<string, string>, stream: string) {
    exists paths :: Enumerates(paths, Payload(tree).Keys) && stream == Stream(Entries(paths, Payload(tree)))
  }

  // The loop of source_tree_sha256 over the sorted files; None is the OverflowError of a length
  // that does not fit eight bytes.
  method Feed(entries: seq<Entry>) returns (stream: Option<string>)
    ensures stream.Some? <==> forall e :: e in entries ==> Sized(e)
    ensures stream.Some? ==> stream.value == Stream(entries)
  {
    var fed := "";
    for i := 0 to |entries|
      invariant forall e :: e in entries[..i] ==> Sized(e)
      invariant fed == Stream(entries[..i])
    {
      var e := entries[i];
      assert entries[..i + 1] == entries[..i] + [e];
      if !Sized(e) { return None; }
      StreamAppend(entries[..i], e);
      fed := fed + Frame(e.path) + Frame(e.data);
    }
    assert entries[..|entries|] == entries;
    return Some(fed);
  }

  lemma EntriesSized(paths: seq<string>, payload: map<string, string>)
    requires Enumerates(paths, payload.Keys)
    ensures (forall e :: e in Entries(paths, payload) ==> Sized(e)) <==> SizedPayload(payload)
  {
    var entries := Entries(paths, payload);
    if forall e :: e in entries ==> Sized(e) {
      forall p | p in payload ensures |p| < TWO_TO_64 && |payload[p]| < TWO_TO_64 {
        var i :| 0 <= i < |paths| && paths[i] == p;
        assert entries[i] in entries;
      }
    } else {
      var e :| e in entries && !Sized(e);
      var i :| 0 <= i < |entries| && entries[i] == e;
      assert paths[i] in paths;
    }
  }

  // source_tree_sha256
  method SourceTree(tree: map<string, string>) returns (stream: Option<string>)
    ensures stream.Some? <==> SizedPayload(Payload(tree))
    ensures stream.Some? ==> Hashes(tree, stream.value)
  {
    var payload := Payload(tree);
    var paths := SortedPaths(payload.Keys);
    EntriesSized(paths, payload);
    stream := Feed(Entries(paths, payload));
  }

  lemma EntriesDetermine(s: map<string, string>, t: map<string, string>, ps: seq<string>, pt: seq<string>)
    requires Enumerates(ps, s.Keys) && Enumerates(pt, t.Keys)
    ensures Entries(ps, s) == Entries(pt, t) <==> s == t
  {
    if s == t { SortedUnique(ps, pt); }
    if Entries(ps, s) == Entries(pt, t) {
      var entries := Entries(ps, s);
      forall i | 0 <= i < |ps| ensures ps[i] == pt[i] && s[ps[i]] == t[pt[i]] {
        assert entries[i] == Entry(ps[i], s[ps[i]]) && entries[i] == Entry(pt[i], t[pt[i]]);
      }
      assert ps == pt;
      forall p | p in s ensures p in t && s[p] == t[p] {
        var i :| 0 <= i < |ps| && ps[i] == p;
      }
      assert s.Keys == t.Keys;
    }
  }

  // Two source trees feed the same stream exactly when their included files agree in path and in
  // canonical content.
  lemma HashDeterminesPayload(s: map<string, string>, t: map<string, string>, fromS: string, fromT: string)
    requires SizedPayload(Payload(s)) && SizedPayload(Payload(t))
    requires Hashes(s, fromS) && Hashes(t, fromT)
    ensures fromS == fromT <==> Payload(s) == Payload(t)
  {
    var ps :| Enumerates(ps, Payload(s).Keys) && fromS == Stream(Entries(ps, Payload(s)));
    var pt :| Enumerates(pt, Payload(t).Keys) && fromT == Stream(Entries(pt, Payload(t)));
    EntriesSized(ps, Payload(s));
    EntriesSized(pt, Payload(t));
    StreamInjective(Entries(ps, Payload(s)), Entries(pt, Payload(t)));
    EntriesDetermine(Payload(s), Payload(t), ps, pt);
  }

  // The same commit checked out with CRLF line endings in any of its text files hashes the same.
  lemma CheckoutInvariant(s: map<string, string>, converted: set<string>, fromS: string)
    requires forall p :: p in converted && p in s ==> IsText(p) && forall i: nat :: !CrlfAt(s[p], i)
    requires Hashes(s, fromS)
    ensures Hashes(map p | p in s :: if p in converted then ToCrlf(s[p]) else s[p], fromS)
  {
    var t := map p | p in s :: if p in converted then ToCrlf(s[p]) else s[p];
    forall p | p in s ensures CanonicalBytes(p, t[p]) == CanonicalBytes(p, s[p]) {
      if p in converted { CrlfInvariantIff(s[p]); }
    }
    assert Payload(t) == Payload(s);
  }
}
