/**
 Signed evidence bundles (backend/src/extrio/evidence.py): a builder that writes manifest, signature
 and checksum list over the evidence files, and a verifier that trusts none of them.

 Hashing, signing and the byte formats of JSON and UTF-8 are parameters with the laws the code
 relies on; the text of SHA256SUMS is modelled character by character.
 */
module Evidence {
  import opened Prelude
  import opened Text

  type Bytes(==,!new)

  datatype FileEntry = FileEntry(path: string, sha256: string, size: nat)

  // A list element that is not an object with a path is None.
  datatype Manifest = Manifest(files: seq<Option<FileEntry>>, signer: string, rest: string)

  datatype Signature = Signature(algorithm: string, fingerprint: string, signature: string, signedDigest: string)

  // One key pair and the encodings around it.
  datatype Codec = Codec(
    hash: Bytes -> string, size: Bytes -> nat,
    encode: string -> Bytes, decode: Bytes -> Option<string>,
    writeManifest: Manifest -> Bytes, readManifest: Bytes -> Option<Manifest>,
    writeSignature: Signature -> Bytes, readSignature: Bytes -> Option<Signature>,
    lower: string -> string, fingerprint: string, sign: string -> string, checks: (string, string) -> bool)

  type Bundle = map<string, Bytes>

  const MANIFEST := "manifest.json"
  const SIGNATURE := "manifest.sig"
  const CHECKSUMS := "SHA256SUMS"
  const ALGORITHM := "ed25519"

  predicate IsHex(c: char) {
    '0' <= c <= '9' || 'a' <= c <= 'f'
  }

  // Parsing undoes writing, a digest is 64 lower-case hexadecimal digits, and the signer's own
  // signatures verify.
  ghost predicate Lawful(c: Codec) {
    && (forall x :: |c.hash(x)| == 64 && (forall i :: 0 <= i < 64 ==> IsHex(c.hash(x)[i])) && c.lower(c.hash(x)) == c.hash(x))
    && (forall t :: c.decode(c.encode(t)) == Some(t))
    && (forall m :: c.readManifest(c.writeManifest(m)) == Some(m))
    && (forall s :: c.readSignature(c.writeSignature(s)) == Some(s))
    && (forall t :: c.checks(c.sign(t), t))
  }

  // ---------------------------------------------------------------- SHA256SUMS

  predicate BreakFree(s: string) {
    forall i :: 0 <= i < |s| ==> !IsBreak(s[i])
  }

  function FirstBreak(s: string): (n: nat)
    ensures n <= |s| && BreakFree(s[..n]) && (n < |s| ==> IsBreak(s[n]))
  {
    if s == "" || IsBreak(s[0]) then 0
    else
      var n := FirstBreak(s[1..]);
      assert s[..n + 1] == [s[0]] + s[1..][..n];
      n + 1
  }

  // A carriage return followed by a line feed is one break.
  function BreakWidth(s: string, n: nat): nat
    requires n < |s|
  {
    if s[n] == '\r' && n + 1 < |s| && s[n + 1] == '\n' then 2 else 1
  }

  function SplitLines(s: string): seq<string> {
    if s == "" then []
    else
      var n := FirstBreak(s);
      if n == |s| then [s] else [s[..n]] + SplitLines(s[n + BreakWidth(s, n)..])
  }

  predicate Blank(line: string) {
    forall i :: 0 <= i < |line| ==> IsSpace(line[i])
  }

  // Where the two separating spaces begin, or the length of the line.
  function Gap(line: string): (n: nat)
    ensures n <= |line| && (n < |line| ==> n + 2 <= |line|)
  {
    if line == "" then 0
    else if |line| >= 2 && line[0] == ' ' && line[1] == ' ' then 0
    else 1 + Gap(line[1..])
  }

  function ParseLines(c: Codec, lines: seq<string>): Option<map<string, string>> {
    if lines == [] then Some(map[])
    else
      match ParseLines(c, lines[..|lines| - 1])
      case None => None
      case Some(before) =>
        var line := lines[|lines| - 1];
        var n := Gap(line);
        if Blank(line) then Some(before)
        else if n == |line| || n != 64 || n + 2 == |line| then None
        else Some(before[line[n + 2..] := c.lower(line[..n])])
  }

  function ParseChecksums(c: Codec, text: string): Option<map<string, string>> {
    ParseLines(c, SplitLines(text))
  }

  function ChecksumText(c: Codec, members: Bundle, paths: seq<string>): string
    requires forall p :: p in paths ==> p in members
  {
    if paths == [] then "" else c.hash(members[paths[0]]) + "  " + paths[0] + "\n" + ChecksumText(c, members, paths[1..])
  }

  // ---------------------------------------------------------------- building

  predicate Enumerates(paths: seq<string>, members: Bundle) {
    && (forall i, j :: 0 <= i < j < |paths| ==> paths[i] != paths[j])
    && (forall p :: p in paths ==> p in members) && (forall p :: p in members ==> p in paths)
  }

  function EntryOf(c: Codec, members: Bundle, path: string): Option<FileEntry>
    requires path in members
  {
    Some(FileEntry(path, c.hash(members[path]), c.size(members[path])))
  }

  function ManifestOf(c: Codec, evidence: Bundle, paths: seq<string>, rest: string): Manifest
    requires Enumerates(paths, evidence)
  {
    Manifest(seq(|paths|, i requires 0 <= i < |paths| => EntryOf(c, evidence, paths[i])), c.fingerprint, rest)
  }

  predicate IsEvidence(evidence: Bundle) {
    forall p :: p in evidence ==> p != MANIFEST && p != SIGNATURE && p != CHECKSUMS && p != ""
  }

  // `listed` and `summed` are the sorted paths of the evidence and of the evidence with the manifest.
  function Build(c: Codec, evidence: Bundle, listed: seq<string>, summed: seq<string>, rest: string): Bundle
    requires Enumerates(listed, evidence)
    requires Enumerates(summed, evidence[MANIFEST := c.writeManifest(ManifestOf(c, evidence, listed, rest))])
  {
    var withManifest := evidence[MANIFEST := c.writeManifest(ManifestOf(c, evidence, listed, rest))];
    var digest := "sha256:" + c.hash(withManifest[MANIFEST]);
    withManifest[SIGNATURE := c.writeSignature(Signature(ALGORITHM, c.fingerprint, c.sign(digest), digest))]
                [CHECKSUMS := c.encode(ChecksumText(c, withManifest, summed))]
  }

  // ---------------------------------------------------------------- verifying

  predicate EntryHolds(c: Codec, members: Bundle, e: Option<FileEntry>) {
    e.Some? && e.value.path in members && e.value.sha256 == c.hash(members[e.value.path]) && e.value.size == c.size(members[e.value.path])
  }

  predicate Lists(m: Manifest, path: string) {
    exists i :: 0 <= i < |m.files| && m.files[i].Some? && m.files[i].value.path == path
  }

  predicate ManifestHolds(c: Codec, members: Bundle, m: Manifest) {
    && (forall i :: 0 <= i < |m.files| ==> EntryHolds(c, members, m.files[i]))
    && (forall p :: p in members ==> Lists(m, p) || p in {MANIFEST, SIGNATURE, CHECKSUMS})
  }

  predicate ChecksumsHold(c: Codec, members: Bundle, sums: map<string, string>) {
    && (forall p :: p in members && p != CHECKSUMS && p != SIGNATURE ==> p in sums && sums[p] == c.hash(members[p]))
    && (forall p :: p in sums ==> p in members && p != CHECKSUMS && p != SIGNATURE)
  }

  predicate SignatureHolds(c: Codec, members: Bundle, m: Manifest, s: Signature)
    requires MANIFEST in members
  {
    && s.signedDigest == "sha256:" + c.hash(members[MANIFEST])
    && s.fingerprint == c.fingerprint && m.signer == c.fingerprint && s.algorithm == ALGORITHM
    && c.checks(s.signature, s.signedDigest)
  }

  // The declarative meaning of a valid bundle.
  predicate Valid(c: Codec, members: Bundle) {
    && MANIFEST in members && SIGNATURE in members && CHECKSUMS in members
    && var m, s, text := c.readManifest(members[MANIFEST]), c.readSignature(members[SIGNATURE]), c.decode(members[CHECKSUMS]);
       && m.Some? && s.Some? && text.Some?
       && ManifestHolds(c, members, m.value)
       && ParseChecksums(c, text.value).Some? && ChecksumsHold(c, members, ParseChecksums(c, text.value).value)
       && SignatureHolds(c, members, m.value, s.value)
  }

  datatype Problem = Unreadable | BadEntry(index: nat) | Unexpected(path: string) | BadSums | WrongSum(path: string) | UnknownSum(path: string) | BadSignature

  predicate Readable(c: Codec, members: Bundle) {
    MANIFEST in members && SIGNATURE in members && c.readManifest(members[MANIFEST]).Some? && c.readSignature(members[SIGNATURE]).Some?
  }

  // The digests the checksum list gives, when there is a readable one.
  function SumsOf(c: Codec, members: Bundle): Option<map<string, string>> {
    if CHECKSUMS in members && c.decode(members[CHECKSUMS]).Some? then ParseChecksums(c, c.decode(members[CHECKSUMS]).value) else None
  }

  predicate InManifest(c: Codec, members: Bundle, m: Manifest, q: Problem) {
    match q
    case BadEntry(i) => i < |m.files| && !EntryHolds(c, members, m.files[i])
    case Unexpected(p) => p in members && !Lists(m, p) && p !in {MANIFEST, SIGNATURE, CHECKSUMS}
    case _ => false
  }

  predicate InSums(c: Codec, members: Bundle, sums: map<string, string>, q: Problem) {
    match q
    case WrongSum(p) => p in members && p != CHECKSUMS && p != SIGNATURE && !(p in sums && sums[p] == c.hash(members[p]))
    case UnknownSum(p) => p in sums && !(p in members && p != CHECKSUMS && p != SIGNATURE)
    case _ => false
  }

  // What is wrong with a bundle, each offending entry and path by itself.
  predicate Offends(c: Codec, members: Bundle, q: Problem) {
    if !Readable(c, members) then q == Unreadable
    else
      var m, s, sums := c.readManifest(members[MANIFEST]).value, c.readSignature(members[SIGNATURE]).value, SumsOf(c, members);
      || InManifest(c, members, m, q)
      || (if sums.None? then q == BadSums else InSums(c, members, sums.value, q))
      || (q == BadSignature && !SignatureHolds(c, members, m, s))
  }

  method VerifyManifest(c: Codec, members: Bundle, m: Manifest) returns (problems: seq<Problem>)
    ensures forall q :: q in problems <==> InManifest(c, members, m, q)
  {
    hide EntryHolds, Lists;
    problems := [];
    for i := 0 to |m.files|
      invariant forall q :: q in problems <==> InManifest(c, members, m, q) && q.BadEntry? && q.index < i
    {
      if !EntryHolds(c, members, m.files[i]) { problems := problems + [BadEntry(i)]; }
    }
    var left := members.Keys;
    while left != {}
      invariant left <= members.Keys
      invariant forall q :: q in problems <==> InManifest(c, members, m, q) && (q.Unexpected? ==> q.path !in left)
      decreases |left|
    {
      var p :| p in left;
      left := left - {p};
      if !Lists(m, p) && p !in {MANIFEST, SIGNATURE, CHECKSUMS} { problems := problems + [Unexpected(p)]; }
    }
  }

  method VerifySums(c: Codec, members: Bundle, sums: map<string, string>, expected: set<string>) returns (problems: seq<Problem>)
    requires expected == members.Keys - {CHECKSUMS, SIGNATURE}
    ensures forall q :: q in problems <==> InSums(c, members, sums, q) && q.WrongSum?
  {
    problems := [];
    var left := expected;
    while left != {}
      invariant left <= expected
      invariant forall q :: q in problems <==> InSums(c, members, sums, q) && q.WrongSum? && q.path !in left
      decreases |left|
    {
      var p :| p in left;
      left := left - {p};
      if p !in sums || sums[p] != c.hash(members[p]) { problems := problems + [WrongSum(p)]; }
    }
  }

  method UnknownSums(unknown: set<string>) returns (problems: seq<Problem>)
    ensures forall q :: q in problems <==> q.UnknownSum? && q.path in unknown
  {
    problems := [];
    var left := unknown;
    while left != {}
      invariant left <= unknown
      invariant forall q :: q in problems <==> q.UnknownSum? && q.path in unknown - left
      decreases |left|
    {
      var p :| p in left;
      left := left - {p};
      problems := problems + [UnknownSum(p)];
    }
  }

  method VerifyChecksums(c: Codec, members: Bundle, sums: map<string, string>) returns (problems: seq<Problem>)
    ensures forall q :: q in problems <==> InSums(c, members, sums, q)
  {
    var expected := members.Keys - {CHECKSUMS, SIGNATURE};
    var wrong := VerifySums(c, members, sums, expected);
    var unknown := UnknownSums(sums.Keys - expected);
    problems := wrong + unknown;
  }

  // The verifier says valid exactly of the bundles that are; otherwise it names every offending entry,
  // file and digest, and nothing else.
  method VerifyEvidenceBundle(c: Codec, members: Bundle) returns (valid: bool, problems: seq<Problem>)
    ensures valid <==> problems == []
    ensures valid <==> Valid(c, members)
    ensures forall q :: q in problems <==> Offends(c, members, q)
  {
    hide InManifest, InSums, SignatureHolds, ParseChecksums, Valid;
    NoOffence(c, members);
    assert !Readable(c, members) ==> Offends(c, members, Unreadable);
    problems := [];
    if MANIFEST !in members || SIGNATURE !in members { return false, [Unreadable]; }
    var m, s := c.readManifest(members[MANIFEST]), c.readSignature(members[SIGNATURE]);
    if m.None? || s.None? { return false, [Unreadable]; }
    problems := VerifyManifest(c, members, m.value);
    if SumsOf(c, members).None? {
      problems := problems + [BadSums];
    } else {
      var inSums := VerifyChecksums(c, members, SumsOf(c, members).value);
      problems := problems + inSums;
    }
    if !SignatureHolds(c, members, m.value, s.value) { problems := problems + [BadSignature]; }
    valid := problems == [];
    if valid {
      forall q ensures !Offends(c, members, q) { assert q !in problems; }
    } else {
      assert Offends(c, members, problems[0]) by { assert problems[0] in problems; }
    }
  }

  lemma ManifestOffence(c: Codec, members: Bundle, m: Manifest)
    ensures ManifestHolds(c, members, m) <==> forall q :: !InManifest(c, members, m, q)
  {
    hide EntryHolds, Lists;
    if forall q :: !InManifest(c, members, m, q) {
      forall i | 0 <= i < |m.files| ensures EntryHolds(c, members, m.files[i]) { assert !InManifest(c, members, m, BadEntry(i)); }
      forall p | p in members ensures Lists(m, p) || p in {MANIFEST, SIGNATURE, CHECKSUMS} { assert !InManifest(c, members, m, Unexpected(p)); }
    }
  }

  lemma SumsOffence(c: Codec, members: Bundle, sums: map<string, string>)
    ensures ChecksumsHold(c, members, sums) <==> forall q :: !InSums(c, members, sums, q)
  {
    if forall q :: !InSums(c, members, sums, q) {
      forall p | p in members && p != CHECKSUMS && p != SIGNATURE ensures p in sums && sums[p] == c.hash(members[p]) {
        assert !InSums(c, members, sums, WrongSum(p));
      }
      forall p | p in sums ensures p in members && p != CHECKSUMS && p != SIGNATURE { assert !InSums(c, members, sums, UnknownSum(p)); }
    }
  }

  lemma NoOffence(c: Codec, members: Bundle)
    ensures Valid(c, members) <==> forall q :: !Offends(c, members, q)
  {
    hide InManifest, InSums, SignatureHolds, ParseChecksums, ManifestHolds, ChecksumsHold;
    if Readable(c, members) {
      var m, s, sums := c.readManifest(members[MANIFEST]).value, c.readSignature(members[SIGNATURE]).value, SumsOf(c, members);
      ManifestOffence(c, members, m);
      assert SignatureHolds(c, members, m, s) || Offends(c, members, BadSignature);
      if sums.None? {
        assert Offends(c, members, BadSums);
      } else {
        SumsOffence(c, members, sums.value);
        if ManifestHolds(c, members, m) && ChecksumsHold(c, members, sums.value) && SignatureHolds(c, members, m, s) {
          assert forall q :: !Offends(c, members, q);
        }
        if forall q :: !Offends(c, members, q) {
          forall q ensures !InManifest(c, members, m, q) && !InSums(c, members, sums.value, q) { assert !Offends(c, members, q); }
        }
      }
    } else {
      assert Offends(c, members, Unreadable);
    }
  }

  // ---------------------------------------------------------------- printing and parsing

  lemma SplitFirst(line: string, rest: string)
    requires BreakFree(line)
    ensures SplitLines(line + "\n" + rest) == [line] + SplitLines(rest)
  {
    var s := line + "\n" + rest;
    assert s[|line|] == '\n' && s[..|line|] == line;
    assert FirstBreak(s) == |line|;
    assert s[|line| + 1..] == rest;
  }

  lemma {:induction false} GapAfter(word: string, rest: string)
    requires forall i :: 0 <= i < |word| ==> word[i] != ' '
    ensures Gap(word + "  " + rest) == |word|
  {
    var line := word + "  " + rest;
    if word == "" {
      assert line[0] == ' ' && line[1] == ' ';
    } else {
      assert line[0] == word[0] && line[1..] == word[1..] + "  " + rest;
      GapAfter(word[1..], rest);
    }
  }

  function SumLine(c: Codec, members: Bundle, path: string): string
    requires path in members
  {
    c.hash(members[path]) + "  " + path
  }

  function SumLines(c: Codec, members: Bundle, paths: seq<string>): (r: seq<string>)
    requires forall p :: p in paths ==> p in members
    ensures |r| == |paths| && forall i :: 0 <= i < |r| ==> r[i] == SumLine(c, members, paths[i])
  {
    seq(|paths|, i requires 0 <= i < |paths| => SumLine(c, members, paths[i]))
  }

  lemma HashBreakFree(c: Codec, members: Bundle, path: string)
    requires Lawful(c) && path in members && BreakFree(path)
    ensures BreakFree(SumLine(c, members, path))
  {
    var h := c.hash(members[path]);
    assert forall i :: 0 <= i < 64 ==> IsHex(h[i]);
  }

  lemma {:induction false} PrintedWithTail(c: Codec, members: Bundle, paths: seq<string>, tail: string)
    requires Lawful(c) && (forall p :: p in paths ==> p in members && BreakFree(p))
    ensures SplitLines(ChecksumText(c, members, paths) + tail) == SumLines(c, members, paths) + SplitLines(tail)
  {
    hide SplitLines, BreakFree, Lawful, ChecksumText, SumLine;
    if paths == [] {
      TextEnd(c, members, tail);
    } else {
      var line, rest := SumLine(c, members, paths[0]), ChecksumText(c, members, paths[1..]);
      HashBreakFree(c, members, paths[0]);
      PrintedWithTail(c, members, paths[1..], tail);
      SplitFirst(line, rest + tail);
      TextStep(c, members, paths);
      Regroup(line, "\n", rest, tail);
      var lines, more := SumLines(c, members, paths), SumLines(c, members, paths[1..]);
      assert lines == [line] + more;
      assert lines + SplitLines(tail) == [line] + (more + SplitLines(tail));
    }
  }

  lemma TextEnd(c: Codec, members: Bundle, tail: string)
    ensures ChecksumText(c, members, []) + tail == tail && SumLines(c, members, []) == []
  {
  }

  lemma TextStep(c: Codec, members: Bundle, paths: seq<string>)
    requires paths != [] && forall p :: p in paths ==> p in members
    ensures ChecksumText(c, members, paths) == SumLine(c, members, paths[0]) + "\n" + ChecksumText(c, members, paths[1..])
  {
  }

  lemma Regroup(a: string, b: string, x: string, y: string)
    ensures (a + b + x) + y == a + b + (x + y)
  {
  }

  lemma PrintedLines(c: Codec, members: Bundle, paths: seq<string>)
    requires Lawful(c) && (forall p :: p in paths ==> p in members && BreakFree(p))
    ensures SplitLines(ChecksumText(c, members, paths)) == SumLines(c, members, paths)
  {
    hide ChecksumText, BreakFree, Lawful;
    PrintedWithTail(c, members, paths, "");
    assert ChecksumText(c, members, paths) + "" == ChecksumText(c, members, paths);
  }

  // A printed line parses back into its digest and its path, whatever spaces the path holds.
  lemma LineParses(c: Codec, members: Bundle, path: string)
    requires Lawful(c) && path in members && path != ""
    ensures var line := SumLine(c, members, path);
            !Blank(line) && Gap(line) == 64 && 66 < |line| && line[..64] == c.hash(members[path]) && line[66..] == path
            && c.lower(line[..64]) == c.hash(members[path])
  {
    var h, line := c.hash(members[path]), SumLine(c, members, path);
    assert forall i :: 0 <= i < 64 ==> IsHex(h[i]);
    assert line[0] == h[0];
    GapAfter(h, path);
    assert line[..64] == h && line[66..] == path;
  }

  lemma {:induction false} ParsedLines(c: Codec, members: Bundle, paths: seq<string>)
    requires Lawful(c) && (forall p :: p in paths ==> p in members && p != "")
    ensures ParseLines(c, SumLines(c, members, paths)) == Some(map p | p in paths :: c.hash(members[p]))
  {
    hide Lawful, Blank, Gap;
    if paths != [] {
      var front, last := paths[..|paths| - 1], paths[|paths| - 1];
      assert paths == front + [last];
      assert forall p :: p in paths <==> p in front || p == last;
      ParsedLines(c, members, front);
      LineParses(c, members, last);
      var lines := SumLines(c, members, paths);
      assert lines[..|lines| - 1] == SumLines(c, members, front);
      assert (map p | p in front :: c.hash(members[p]))[last := c.hash(members[last])] == (map p | p in paths :: c.hash(members[p]));
    }
  }

  lemma {:induction false} LinesBreakFree(s: string)
    ensures forall i :: 0 <= i < |SplitLines(s)| ==> BreakFree(SplitLines(s)[i])
    decreases |s|
  {
    if s != "" {
      var n := FirstBreak(s);
      if n == |s| {
        assert s[..n] == s;
      } else {
        LinesBreakFree(s[n + BreakWidth(s, n)..]);
      }
    }
  }

  lemma {:induction false} ParsedBreakFree(c: Codec, lines: seq<string>)
    requires forall i :: 0 <= i < |lines| ==> BreakFree(lines[i])
    ensures ParseLines(c, lines).Some? ==> forall p :: p in ParseLines(c, lines).value ==> BreakFree(p)
  {
    hide Gap, Blank;
    if lines != [] { ParsedBreakFree(c, lines[..|lines| - 1]); }
  }

  // No line of SHA256SUMS can name a path that holds a line break.
  lemma SumsNameLines(c: Codec, text: string)
    ensures ParseChecksums(c, text).Some? ==> forall p :: p in ParseChecksums(c, text).value ==> BreakFree(p)
  {
    LinesBreakFree(text);
    ParsedBreakFree(c, SplitLines(text));
  }

  lemma ChecksumsRoundTrip(c: Codec, members: Bundle, paths: seq<string>)
    requires Lawful(c) && Enumerates(paths, members) && (forall p :: p in members ==> p != "" && BreakFree(p))
    ensures ParseChecksums(c, ChecksumText(c, members, paths)) == Some(map p | p in members :: c.hash(members[p]))
  {
    hide Lawful, SplitLines, ParseLines;
    PrintedLines(c, members, paths);
    ParsedLines(c, members, paths);
    assert (map p | p in paths :: c.hash(members[p])) == (map p | p in members :: c.hash(members[p]));
  }

  // ---------------------------------------------------------------- builder and verifier

  lemma BuiltManifestHolds(c: Codec, evidence: Bundle, listed: seq<string>, summed: seq<string>, rest: string)
    requires Enumerates(listed, evidence) && IsEvidence(evidence)
    requires Enumerates(summed, evidence[MANIFEST := c.writeManifest(ManifestOf(c, evidence, listed, rest))])
    ensures ManifestHolds(c, Build(c, evidence, listed, summed, rest), ManifestOf(c, evidence, listed, rest))
  {
    hide ChecksumText;
    var m, bundle := ManifestOf(c, evidence, listed, rest), Build(c, evidence, listed, summed, rest);
    forall i | 0 <= i < |m.files| ensures EntryHolds(c, bundle, m.files[i]) {
      assert listed[i] in evidence;
    }
    forall p | p in bundle && p !in {MANIFEST, SIGNATURE, CHECKSUMS} ensures Lists(m, p) {
      var i :| 0 <= i < |listed| && listed[i] == p;
      assert m.files[i].Some? && m.files[i].value.path == p;
    }
  }

  // Every bundle the builder makes is valid under the signer's key, exactly when no evidence path
  // holds a line break.
  lemma BuildVerifies(c: Codec, evidence: Bundle, listed: seq<string>, summed: seq<string>, rest: string)
    requires Lawful(c) && IsEvidence(evidence) && Enumerates(listed, evidence)
    requires Enumerates(summed, evidence[MANIFEST := c.writeManifest(ManifestOf(c, evidence, listed, rest))])
    ensures Valid(c, Build(c, evidence, listed, summed, rest)) <==> forall p :: p in evidence ==> BreakFree(p)
  {
    hide ManifestHolds, ManifestOf, ParseChecksums, ChecksumText, BreakFree;
    var m := ManifestOf(c, evidence, listed, rest);
    var withManifest := evidence[MANIFEST := c.writeManifest(m)];
    var bundle := Build(c, evidence, listed, summed, rest);
    var text := ChecksumText(c, withManifest, summed);
    BuiltManifestHolds(c, evidence, listed, summed, rest);
    SumsNameLines(c, text);
    assert m.signer == c.fingerprint by { SignerOf(c, evidence, listed, rest); }
    assert BreakFree(MANIFEST) by { NamesBreakFree(); }
    if forall p :: p in evidence ==> BreakFree(p) {
      ChecksumsRoundTrip(c, withManifest, summed);
      assert ChecksumsHold(c, bundle, map p | p in withManifest :: c.hash(withManifest[p]));
    }
  }

  lemma SignerOf(c: Codec, evidence: Bundle, listed: seq<string>, rest: string)
    requires Enumerates(listed, evidence)
    ensures ManifestOf(c, evidence, listed, rest).signer == c.fingerprint
  {
  }

  lemma NamesBreakFree()
    ensures BreakFree(MANIFEST)
  {
  }

  // ---------------------------------------------------------------- what a valid bundle proves

  // No two different members of the two bundles share a digest.
  predicate NoCollision(c: Codec, a: Bundle, b: Bundle) {
    forall p, q :: p in a && q in b && c.hash(a[p]) == c.hash(b[q]) ==> a[p] == b[q]
  }

  predicate Signed(path: string) {
    path != SIGNATURE && path != CHECKSUMS
  }

  // Two bundles valid under one key whose manifests have the same digest hold the same manifest and
  // the same evidence, unless two of their members collide under the hash.
  lemma SameDigestSameEvidence(c: Codec, a: Bundle, b: Bundle)
    requires Valid(c, a) && Valid(c, b) && NoCollision(c, a, b)
    requires c.hash(a[MANIFEST]) == c.hash(b[MANIFEST])
    ensures forall p :: Signed(p) ==> (p in a <==> p in b) && (p in a ==> a[p] == b[p])
  {
    hide ParseChecksums, ChecksumsHold, SignatureHolds;
    assert a[MANIFEST] == b[MANIFEST];
    var m := c.readManifest(a[MANIFEST]).value;
    forall p | Signed(p) ensures (p in a <==> p in b) && (p in a ==> a[p] == b[p]) {
      if p != MANIFEST && (p in a || p in b) {
        var i :| 0 <= i < |m.files| && m.files[i].Some? && m.files[i].value.path == p;
        assert EntryHolds(c, a, m.files[i]) && EntryHolds(c, b, m.files[i]);
      }
    }
  }

  // Changing a signed member so that its digest changes, or adding one, is detected.
  lemma TamperingDetected(c: Codec, a: Bundle, p: string, x: Bytes)
    requires Valid(c, a) && Signed(p) && (p in a ==> c.hash(x) != c.hash(a[p]))
    ensures !Valid(c, a[p := x])
  {
    hide ParseChecksums, ManifestHolds, SignatureHolds;
    assert a[p := x][CHECKSUMS] == a[CHECKSUMS] && p in a[p := x] && a[p := x][p] == x;
  }

  // So is removing any member at all.
  lemma RemovalDetected(c: Codec, a: Bundle, p: string)
    requires Valid(c, a) && p in a
    ensures !Valid(c, a - {p})
  {
    hide ParseChecksums, ManifestHolds, SignatureHolds;
    var b := a - {p};
    if Signed(p) && p != MANIFEST {
      assert b[CHECKSUMS] == a[CHECKSUMS];
      assert p in ParseChecksums(c, c.decode(a[CHECKSUMS]).value).value;
    }
  }

  // ---------------------------------------------------------------- exactly which changes pass

  // A member the manifest lists keeps its digest and its size.
  predicate ListedSame(c: Codec, a: Bundle, m: Manifest, p: string, x: Bytes)
    requires p in a
  {
    Lists(m, p) ==> c.hash(x) == c.hash(a[p]) && c.size(x) == c.size(a[p])
  }

  // A rewritten checksum list that parses to the digests of the old one.
  predicate SameList(c: Codec, a: Bundle, x: Bytes)
    requires CHECKSUMS in a && c.decode(a[CHECKSUMS]).Some?
  {
    c.decode(x).Some? && ParseChecksums(c, c.decode(x).value) == ParseChecksums(c, c.decode(a[CHECKSUMS]).value)
  }

  // A rewritten signature file that reads as a record over the same manifest.
  predicate SameClaim(c: Codec, a: Bundle, m: Manifest, x: Bytes)
    requires MANIFEST in a
  {
    c.readSignature(x).Some? && SignatureHolds(c, a, m, c.readSignature(x).value)
  }

  // Another manifest with the digest of the old one that describes the same bundle.
  predicate SameManifest(c: Codec, a: Bundle, x: Bytes)
    requires MANIFEST in a
  {
    && c.hash(x) == c.hash(a[MANIFEST]) && c.readManifest(x).Some?
    && c.readManifest(x).value.signer == c.fingerprint && ManifestHolds(c, a[MANIFEST := x], c.readManifest(x).value)
  }

  predicate Passes(c: Codec, a: Bundle, p: string, x: Bytes)
    requires Valid(c, a)
  {
    var m := c.readManifest(a[MANIFEST]).value;
    && p in a
    && if p == MANIFEST then SameManifest(c, a, x)
       else if p == CHECKSUMS then SameList(c, a, x) && ListedSame(c, a, m, p, x)
       else if p == SIGNATURE then SameClaim(c, a, m, x) && ListedSame(c, a, m, p, x)
       else c.hash(x) == c.hash(a[p]) && c.size(x) == c.size(a[p])
  }

  lemma ManifestAfter(c: Codec, a: Bundle, m: Manifest, p: string, x: Bytes)
    requires ManifestHolds(c, a, m) && p in a
    ensures ManifestHolds(c, a[p := x], m) <==> ListedSame(c, a, m, p, x)
  {
    var b := a[p := x];
    if ListedSame(c, a, m, p, x) {
      forall i | 0 <= i < |m.files| ensures EntryHolds(c, b, m.files[i]) {
        assert EntryHolds(c, a, m.files[i]);
        assert m.files[i].value.path == p ==> Lists(m, p);
      }
    } else {
      var i :| 0 <= i < |m.files| && m.files[i].Some? && m.files[i].value.path == p;
      assert EntryHolds(c, a, m.files[i]) && !EntryHolds(c, b, m.files[i]);
    }
  }

  lemma SumsAfter(c: Codec, a: Bundle, sums: map<string, string>, p: string, x: Bytes)
    requires ChecksumsHold(c, a, sums) && p in a
    ensures ChecksumsHold(c, a[p := x], sums) <==> (Signed(p) ==> c.hash(x) == c.hash(a[p]))
  {
    if Signed(p) { assert sums[p] == c.hash(a[p]); }
  }

  lemma SumsUnique(c: Codec, a: Bundle, sums: map<string, string>, more: map<string, string>)
    requires ChecksumsHold(c, a, sums) && ChecksumsHold(c, a, more)
    ensures sums == more
  {
  }

  // What a valid bundle is made of.
  lemma Parts(c: Codec, a: Bundle)
    requires Valid(c, a)
    ensures var m, s := c.readManifest(a[MANIFEST]).value, c.readSignature(a[SIGNATURE]).value;
            && ManifestHolds(c, a, m) && SignatureHolds(c, a, m, s)
            && ParseChecksums(c, c.decode(a[CHECKSUMS]).value).Some?
            && ChecksumsHold(c, a, ParseChecksums(c, c.decode(a[CHECKSUMS]).value).value)
  {
  }

  lemma EvidenceTampered(c: Codec, a: Bundle, p: string, x: Bytes)
    requires Valid(c, a) && p in a && p !in {MANIFEST, SIGNATURE, CHECKSUMS}
    ensures Valid(c, a[p := x]) <==> c.hash(x) == c.hash(a[p]) && c.size(x) == c.size(a[p])
  {
    hide ParseChecksums, ManifestHolds, ChecksumsHold;
    var m := c.readManifest(a[MANIFEST]).value;
    Parts(c, a);
    assert Lists(m, p) by { AllListed(c, a, m, p); }
    ManifestAfter(c, a, m, p, x);
    SumsAfter(c, a, ParseChecksums(c, c.decode(a[CHECKSUMS]).value).value, p, x);
  }

  lemma AllListed(c: Codec, a: Bundle, m: Manifest, p: string)
    requires ManifestHolds(c, a, m) && p in a && p !in {MANIFEST, SIGNATURE, CHECKSUMS}
    ensures Lists(m, p)
  {
  }

  lemma AdditionDetected(c: Codec, a: Bundle, p: string, x: Bytes)
    requires Valid(c, a) && p !in a
    ensures !Valid(c, a[p := x])
  {
    TamperingDetected(c, a, p, x);
  }

  lemma ManifestTampered(c: Codec, a: Bundle, x: Bytes)
    requires Valid(c, a)
    ensures Valid(c, a[MANIFEST := x]) <==> SameManifest(c, a, x)
  {
    hide ParseChecksums, ManifestHolds, ChecksumsHold;
    Parts(c, a);
    SumsAfter(c, a, ParseChecksums(c, c.decode(a[CHECKSUMS]).value).value, MANIFEST, x);
  }

  // SHA256SUMS itself is not signed: a rewritten list passes exactly when it parses to the same digests,
  // so upper-case digits, other line ends and blank lines go unnoticed.  (No built manifest lists it.)
  lemma ChecksumsTampered(c: Codec, a: Bundle, x: Bytes)
    requires Valid(c, a)
    ensures var m := c.readManifest(a[MANIFEST]).value;
            Valid(c, a[CHECKSUMS := x]) <==> SameList(c, a, x) && ListedSame(c, a, m, CHECKSUMS, x)
  {
    hide ParseChecksums, ManifestHolds, ChecksumsHold;
    var m, b := c.readManifest(a[MANIFEST]).value, a[CHECKSUMS := x];
    Parts(c, a);
    ManifestAfter(c, a, m, CHECKSUMS, x);
    var sums := ParseChecksums(c, c.decode(a[CHECKSUMS]).value).value;
    SumsAfter(c, a, sums, CHECKSUMS, x);
    if Valid(c, b) {
      SumsUnique(c, b, sums, ParseChecksums(c, c.decode(x).value).value);
    }
  }

  lemma ChecksumListUnsigned(c: Codec, a: Bundle, x: Bytes)
    requires Valid(c, a) && !Lists(c.readManifest(a[MANIFEST]).value, CHECKSUMS)
    ensures Valid(c, a[CHECKSUMS := x]) <==>
              c.decode(x).Some? && ParseChecksums(c, c.decode(x).value) == ParseChecksums(c, c.decode(a[CHECKSUMS]).value)
  {
    ChecksumsTampered(c, a, x);
  }

  // The signature file is covered by nothing either: any text passes that reads as a valid record over
  // the manifest, so white space, the order of its keys and additional keys go unnoticed.
  lemma SignatureTampered(c: Codec, a: Bundle, x: Bytes)
    requires Valid(c, a)
    ensures var m := c.readManifest(a[MANIFEST]).value;
            Valid(c, a[SIGNATURE := x]) <==> SameClaim(c, a, m, x) && ListedSame(c, a, m, SIGNATURE, x)
  {
    hide ParseChecksums, ManifestHolds, ChecksumsHold;
    var m := c.readManifest(a[MANIFEST]).value;
    Parts(c, a);
    ManifestAfter(c, a, m, SIGNATURE, x);
    SumsAfter(c, a, ParseChecksums(c, c.decode(a[CHECKSUMS]).value).value, SIGNATURE, x);
  }

  // For every member, present or new, and every replacement: exactly when the bundle stays valid.
  lemma TamperingExactly(c: Codec, a: Bundle, p: string, x: Bytes)
    requires Valid(c, a)
    ensures Valid(c, a[p := x]) <==> Passes(c, a, p, x)
  {
    hide Valid, SameManifest, SameList, SameClaim, ListedSame;
    if p !in a {
      AdditionDetected(c, a, p, x);
    } else if p == MANIFEST {
      ManifestTampered(c, a, x);
    } else if p == CHECKSUMS {
      ChecksumsTampered(c, a, x);
    } else if p == SIGNATURE {
      SignatureTampered(c, a, x);
    } else {
      EvidenceTampered(c, a, p, x);
    }
  }

  // When the promise that any tampering surfaces is kept: for a real change that does not collide, on a
  // bundle whose manifest lists neither of the two files, exactly unless the change leaves the digests
  // of the list, or the claim of the signature, as they were.
  lemma ChangeSurfaces(c: Codec, a: Bundle, p: string, x: Bytes)
    requires Valid(c, a) && (p in a ==> c.hash(x) != c.hash(a[p]))
    requires !Lists(c.readManifest(a[MANIFEST]).value, CHECKSUMS) && !Lists(c.readManifest(a[MANIFEST]).value, SIGNATURE)
    ensures !Valid(c, a[p := x]) <==>
              !(p == CHECKSUMS && SameList(c, a, x)) && !(p == SIGNATURE && SameClaim(c, a, c.readManifest(a[MANIFEST]).value, x))
  {
    assert MANIFEST in a && SIGNATURE in a && CHECKSUMS in a;
    hide Valid, SameList, SameClaim, Lists, ManifestHolds;
    TamperingExactly(c, a, p, x);
  }

  // ---------------------------------------------------------------- changes that pass

  lemma BlankLineIgnored(c: Codec, lines: seq<string>)
    ensures ParseLines(c, lines + [""]) == ParseLines(c, lines)
  {
    assert (lines + [""])[..|lines|] == lines;
  }

  lemma OneBreak()
    ensures SplitLines("\n") == [""]
  {
    assert "" + "\n" + "" == "\n";
    SplitFirst("", "");
  }

  // On every valid bundle the builder makes, the printed list with one more line break is another
  // file that passes.
  lemma ExtraBlankLinePasses(c: Codec, evidence: Bundle, listed: seq<string>, summed: seq<string>, rest: string)
    requires Lawful(c) && IsEvidence(evidence) && Enumerates(listed, evidence) && (forall p :: p in evidence ==> BreakFree(p))
    requires Enumerates(summed, evidence[MANIFEST := c.writeManifest(ManifestOf(c, evidence, listed, rest))])
    ensures var withManifest := evidence[MANIFEST := c.writeManifest(ManifestOf(c, evidence, listed, rest))];
            var bundle, x := Build(c, evidence, listed, summed, rest), c.encode(ChecksumText(c, withManifest, summed) + "\n");
            x != bundle[CHECKSUMS] && Valid(c, bundle) && Valid(c, bundle[CHECKSUMS := x])
  {
    hide ManifestHolds, ManifestOf, BreakFree, Valid, Lists;
    var m := ManifestOf(c, evidence, listed, rest);
    var withManifest := evidence[MANIFEST := c.writeManifest(m)];
    var bundle, text := Build(c, evidence, listed, summed, rest), ChecksumText(c, withManifest, summed);
    var x := c.encode(text + "\n");
    BuildVerifies(c, evidence, listed, summed, rest);
    NamesBreakFree();
    assert |text + "\n"| != |text|;
    assert c.decode(x) == Some(text + "\n") && c.decode(bundle[CHECKSUMS]) == Some(text);
    SameAfterBlankLine(c, withManifest, summed);
    assert !Lists(m, CHECKSUMS) by { ProtectedUnlisted(c, evidence, listed, rest); }
    assert c.readManifest(bundle[MANIFEST]) == Some(m);
    assert MANIFEST in bundle && CHECKSUMS in bundle;
    ChecksumListUnsigned(c, bundle, x);
  }

  lemma SameAfterBlankLine(c: Codec, members: Bundle, paths: seq<string>)
    requires Lawful(c) && (forall p :: p in paths ==> p in members && BreakFree(p))
    ensures ParseChecksums(c, ChecksumText(c, members, paths) + "\n") == ParseChecksums(c, ChecksumText(c, members, paths))
  {
    hide SplitLines, ParseLines, BreakFree, Lawful;
    PrintedWithTail(c, members, paths, "\n");
    PrintedLines(c, members, paths);
    OneBreak();
    BlankLineIgnored(c, SumLines(c, members, paths));
  }

  // No manifest the builder makes lists a protected file.
  lemma ProtectedUnlisted(c: Codec, evidence: Bundle, listed: seq<string>, rest: string)
    requires IsEvidence(evidence) && Enumerates(listed, evidence)
    ensures var m := ManifestOf(c, evidence, listed, rest); !Lists(m, CHECKSUMS) && !Lists(m, SIGNATURE) && !Lists(m, MANIFEST)
  {
    var m := ManifestOf(c, evidence, listed, rest);
    assert forall i :: 0 <= i < |m.files| ==> m.files[i] == EntryOf(c, evidence, listed[i]) && listed[i] in evidence;
  }

  // Any other text of the same signature record passes as well.
  lemma ReformattedSignaturePasses(c: Codec, a: Bundle, x: Bytes)
    requires Valid(c, a) && !Lists(c.readManifest(a[MANIFEST]).value, SIGNATURE) && c.readSignature(x) == c.readSignature(a[SIGNATURE])
    ensures Valid(c, a[SIGNATURE := x])
  {
    hide ParseChecksums, ManifestHolds, ChecksumsHold;
    SignatureTampered(c, a, x);
  }
}
