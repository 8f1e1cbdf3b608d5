/**
 What the verdict of the evidence verifier is worth, said of the bytes and texts alone: which record
 was signed, which files are covered, which lines the checksum list may hold, and that nobody
 without the key can produce another bundle that passes.
 */
module EvidenceVerdict {
  import opened Prelude
  import opened Text
  import opened Evidence

  // ---------------------------------------------------------------- the lines of SHA256SUMS

  // Sixty-four characters, the first two spaces of the line, and a path.
  predicate WellFormed(line: string) {
    && 66 < |line| && line[64] == ' ' && line[65] == ' '
    && forall i :: 0 <= i < 64 ==> !(line[i] == ' ' && line[i + 1] == ' ')
  }

  predicate Names(line: string, path: string) {
    !Blank(line) && WellFormed(line) && line[66..] == path
  }

  // A blank line is one of which stripping leaves nothing.
  lemma BlankMeans(line: string)
    ensures Blank(line) <==> Strip(line) == ""
  {
    var i, j := StripMeans(line);
    if Strip(line) == "" {
      assert i == j;
    }
  }

  lemma {:induction false} GapMeans(line: string)
    ensures Gap(line) == |line| <==> forall i :: 0 <= i < |line| - 1 ==> !(line[i] == ' ' && line[i + 1] == ' ')
    ensures Gap(line) < |line| ==> line[Gap(line)] == ' ' && line[Gap(line) + 1] == ' '
    ensures forall i :: 0 <= i < Gap(line) && i < |line| - 1 ==> !(line[i] == ' ' && line[i + 1] == ' ')
  {
    if line != "" && !(|line| >= 2 && line[0] == ' ' && line[1] == ' ') {
      var rest := line[1..];
      GapMeans(rest);
      assert forall i :: 0 <= i < |rest| ==> rest[i] == line[i + 1];
      forall i | 0 <= i < Gap(line) && i < |line| - 1 ensures !(line[i] == ' ' && line[i + 1] == ' ') {
        if i > 0 { assert rest[i - 1] == line[i] && rest[i] == line[i + 1]; }
      }
      if Gap(line) == |line| {
        forall i | 0 <= i < |line| - 1 ensures !(line[i] == ' ' && line[i + 1] == ' ') {}
      }
    }
  }

  predicate LastNames(lines: seq<string>, i: nat, path: string)
    requires i < |lines|
  {
    Names(lines[i], path) && forall j :: i < j < |lines| ==> !Names(lines[j], path)
  }

  lemma LineCases(line: string)
    ensures Gap(line) <= |line| && (Gap(line) < |line| ==> Gap(line) + 2 <= |line|)
    ensures WellFormed(line) <==> Gap(line) == 64 && 66 < |line|
  {
    GapMeans(line);
  }

  // One more line: it spoils the list, says nothing, or gives the path it names its digest.
  lemma LineAdds(c: Codec, lines: seq<string>)
    requires lines != []
    ensures var before, last := ParseLines(c, lines[..|lines| - 1]), lines[|lines| - 1];
            && (ParseLines(c, lines).Some? <==> before.Some? && (Blank(last) || WellFormed(last)))
            && (before.Some? && Blank(last) ==> ParseLines(c, lines) == before)
            && (before.Some? && !Blank(last) && WellFormed(last) ==>
                  ParseLines(c, lines) == Some(before.value[last[66..] := c.lower(last[..64])]))
  {
    hide Blank, WellFormed, Gap;
    LineCases(lines[|lines| - 1]);
  }

  // A list is readable exactly when every line is blank or well formed.
  lemma {:induction false} LinesReadable(c: Codec, lines: seq<string>)
    ensures ParseLines(c, lines).Some? <==> forall line :: line in lines ==> Blank(line) || WellFormed(line)
  {
    hide Blank, WellFormed, Gap, ParseLines;
    if lines == [] {
      NoLines(c);
    } else {
      LinesReadable(c, lines[..|lines| - 1]);
      LineAdds(c, lines);
      assert lines == lines[..|lines| - 1] + [lines[|lines| - 1]];
    }
  }

  // It names exactly the paths of its lines.
  lemma {:induction false} LinesName(c: Codec, lines: seq<string>, path: string)
    requires ParseLines(c, lines).Some?
    ensures path in ParseLines(c, lines).value <==> exists line :: line in lines && Names(line, path)
  {
    hide Blank, WellFormed, Gap, ParseLines;
    if lines == [] {
      NoLines(c);
    } else {
      var front, last := lines[..|lines| - 1], lines[|lines| - 1];
      LineAdds(c, lines);
      LinesName(c, front, path);
      assert forall line :: line in lines <==> line in front || line == last by { assert lines == front + [last]; }
      assert path in ParseLines(c, lines).value <==> path in ParseLines(c, front).value || Names(last, path);
    }
  }

  // A path has the digest, in lower case, of the last line that names it.
  lemma {:induction false} LinesDigest(c: Codec, lines: seq<string>, path: string, i: nat)
    requires ParseLines(c, lines).Some? && i < |lines| && LastNames(lines, i, path)
    ensures |lines[i]| > 66 && path in ParseLines(c, lines).value && ParseLines(c, lines).value[path] == c.lower(lines[i][..64])
  {
    hide Blank, Gap, ParseLines;
    var front, last := lines[..|lines| - 1], lines[|lines| - 1];
    LineAdds(c, lines);
    if i < |front| {
      assert forall k :: 0 <= k < |front| ==> front[k] == lines[k];
      assert LastNames(front, i, path);
      LinesDigest(c, front, path, i);
      assert !Names(last, path);
    }
  }

  lemma NoLines(c: Codec)
    ensures ParseLines(c, []) == Some(map[])
  {
  }

  // ---------------------------------------------------------------- how a text splits into lines

  predicate IsLineEnd(end: string) {
    end == "\r\n" || (|end| == 1 && IsBreak(end[0]))
  }

  // The text up to a line end is a line; a carriage return with a line feed after it ends one line only.
  lemma TextSplits(line: string, end: string, rest: string)
    requires BreakFree(line) && IsLineEnd(end) && !(end == "\r" && rest != "" && rest[0] == '\n')
    ensures SplitLines(line + end + rest) == [line] + SplitLines(rest)
  {
    var s := line + end + rest;
    assert s[|line|] == end[0] && s[..|line|] == line;
    FirstBreakAt(s, |line|);
    if |end| == 1 && rest != "" { assert s[|line| + 1] == rest[0]; }
    assert BreakWidth(s, |line|) == |end|;
    assert s[|line| + |end|..] == rest;
  }

  lemma FirstBreakAt(s: string, n: nat)
    requires n < |s| && IsBreak(s[n]) && BreakFree(s[..n])
    ensures FirstBreak(s) == n
  {
    var m := FirstBreak(s);
  }

  lemma LastLine(line: string)
    requires BreakFree(line)
    ensures SplitLines(line) == if line == "" then [] else [line]
  {
    if line != "" {
      var n := FirstBreak(line);
    }
  }

  // ---------------------------------------------------------------- what a verdict says

  // The record that counts: made with the verifier's key, over the digest of the manifest as it stands.
  lemma ValidIsSigned(c: Codec, a: Bundle)
    requires Valid(c, a)
    ensures "manifest.json" in a && "manifest.sig" in a && c.readManifest(a["manifest.json"]).Some? && c.readSignature(a["manifest.sig"]).Some?
    ensures var m, s := c.readManifest(a["manifest.json"]).value, c.readSignature(a["manifest.sig"]).value;
            var claim := "sha256:" + c.hash(a["manifest.json"]);
            && s.algorithm == "ed25519" && s.fingerprint == c.fingerprint && m.signer == c.fingerprint
            && s.signedDigest == claim && c.checks(s.signature, claim)
  {
    hide ManifestHolds, ParseChecksums, ChecksumsHold;
  }

  // Without the key nothing else passes: if only the texts in `issued` were ever signed, then the
  // digest of every manifest judged valid is among them.
  lemma NoForgery(c: Codec, a: Bundle, issued: set<string>)
    requires Valid(c, a) && forall signature, text :: c.checks(signature, text) ==> text in issued
    ensures "manifest.json" in a && "sha256:" + c.hash(a["manifest.json"]) in issued
  {
    hide Valid;
    ValidIsSigned(c, a);
  }

  // Every file the manifest lists is there with its digest and size, and every file is listed but the
  // manifest, its signature and the checksum list.
  lemma ValidIsListed(c: Codec, a: Bundle)
    requires Valid(c, a)
    ensures "manifest.json" in a && c.readManifest(a["manifest.json"]).Some?
    ensures var files := c.readManifest(a["manifest.json"]).value.files;
            && (forall i :: 0 <= i < |files| ==>
                  && files[i].Some? && files[i].value.path in a
                  && files[i].value.sha256 == c.hash(a[files[i].value.path]) && files[i].value.size == c.size(a[files[i].value.path]))
            && (forall p :: p in a && p !in {"manifest.json", "manifest.sig", "SHA256SUMS"} ==>
                  exists i :: 0 <= i < |files| && files[i].Some? && files[i].value.path == p)
  {
    hide SignatureHolds, ParseChecksums, ChecksumsHold;
  }

  // The checksum list names every file but itself and the signature, nothing else, and the last line
  // for a file holds its digest in either case.
  lemma ValidIsSummed(c: Codec, a: Bundle)
    requires Valid(c, a)
    ensures "SHA256SUMS" in a && c.decode(a["SHA256SUMS"]).Some?
    ensures var lines := SplitLines(c.decode(a["SHA256SUMS"]).value);
            && (forall line :: line in lines ==> Blank(line) || WellFormed(line))
            && (forall p :: (exists line :: line in lines && Names(line, p)) <==> p in a && p != "manifest.sig" && p != "SHA256SUMS")
            && (forall i, p :: 0 <= i < |lines| && LastNames(lines, i, p) ==> |lines[i]| > 66 && p in a && c.lower(lines[i][..64]) == c.hash(a[p]))
  {
    var lines := SplitLines(c.decode(a["SHA256SUMS"]).value);
    assert ParseLines(c, lines).Some? && ChecksumsHold(c, a, ParseLines(c, lines).value);
    hide Valid, SplitLines, ParseLines, Blank, WellFormed;
    LinesReadable(c, lines);
    forall p ensures (exists line :: line in lines && Names(line, p)) <==> p in a && p != "manifest.sig" && p != "SHA256SUMS" {
      LinesName(c, lines, p);
    }
    forall i, p | 0 <= i < |lines| && LastNames(lines, i, p)
      ensures |lines[i]| > 66 && p in a && c.lower(lines[i][..64]) == c.hash(a[p])
    {
      LinesDigest(c, lines, p, i);
    }
  }

  predicate Covers(c: Codec, a: Bundle, e: Option<FileEntry>) {
    e.Some? && e.value.path in a && e.value == FileEntry(e.value.path, c.hash(a[e.value.path]), c.size(a[e.value.path]))
  }

  // What a bundle must show, in the terms of the three lemmas above.
  predicate Shown(c: Codec, a: Bundle) {
    && "manifest.json" in a && "manifest.sig" in a && "SHA256SUMS" in a
    && c.readManifest(a["manifest.json"]).Some? && c.readSignature(a["manifest.sig"]).Some? && c.decode(a["SHA256SUMS"]).Some?
    && var m, s := c.readManifest(a["manifest.json"]).value, c.readSignature(a["manifest.sig"]).value;
       && s == Signature("ed25519", c.fingerprint, s.signature, "sha256:" + c.hash(a["manifest.json"]))
       && m.signer == c.fingerprint && c.checks(s.signature, s.signedDigest)
       && (forall i :: 0 <= i < |m.files| ==> Covers(c, a, m.files[i]))
       && (forall p :: p in a && p !in {"manifest.json", "manifest.sig", "SHA256SUMS"} ==>
             exists i :: 0 <= i < |m.files| && m.files[i].Some? && m.files[i].value.path == p)
  }

  // And nothing more: a bundle that shows this, with a list that names each covered file by its digest,
  // in either case and with blank lines anywhere, is valid.
  lemma ShownIsValid(c: Codec, a: Bundle)
    requires Shown(c, a)
    requires var lines := SplitLines(c.decode(a["SHA256SUMS"]).value);
             && (forall line :: line in lines ==> Blank(line) || WellFormed(line))
             && (forall p :: (exists line :: line in lines && Names(line, p)) <==> p in a && p != "manifest.sig" && p != "SHA256SUMS")
             && (forall i, p :: 0 <= i < |lines| && LastNames(lines, i, p) ==> |lines[i]| > 66 && p in a && c.lower(lines[i][..64]) == c.hash(a[p]))
    ensures Valid(c, a)
  {
    var lines, m := SplitLines(c.decode(a["SHA256SUMS"]).value), c.readManifest(a["manifest.json"]).value;
    LinesReadable(c, lines);
    assert ParseLines(c, lines).Some?;
    var sums := ParseLines(c, lines).value;
    assert ManifestHolds(c, a, m);
    hide SplitLines, ParseLines, Blank, WellFormed, ManifestHolds;
    forall p ensures p in sums <==> p in a && p != "manifest.sig" && p != "SHA256SUMS" { LinesName(c, lines, p); }
    forall p | p in sums ensures sums[p] == c.hash(a[p]) {
      LinesName(c, lines, p);
      var i := LastNaming(lines, p);
      LinesDigest(c, lines, p, i);
    }
    assert ChecksumsHold(c, a, sums);
  }

  lemma {:induction false} LastNaming(lines: seq<string>, p: string) returns (i: nat)
    requires exists line :: line in lines && Names(line, p)
    ensures i < |lines| && LastNames(lines, i, p)
  {
    hide Names;
    var front, last := lines[..|lines| - 1], lines[|lines| - 1];
    if Names(last, p) {
      i := |lines| - 1;
    } else {
      assert lines == front + [last];
      i := LastNaming(front, p);
      assert forall k :: 0 <= k < |front| ==> front[k] == lines[k];
    }
  }

  // ---------------------------------------------------------------- what the builder writes

  // The builder changes no evidence file and adds exactly the manifest, which lists them in order, the
  // signature of its digest, and the list of both.
  lemma BuiltContents(c: Codec, evidence: Bundle, listed: seq<string>, summed: seq<string>, rest: string)
    requires Lawful(c) && IsEvidence(evidence) && Enumerates(listed, evidence)
    requires Enumerates(summed, evidence[MANIFEST := c.writeManifest(ManifestOf(c, evidence, listed, rest))])
    ensures var b := Build(c, evidence, listed, summed, rest);
            && b.Keys == evidence.Keys + {"manifest.json", "manifest.sig", "SHA256SUMS"} && (forall p :: p in evidence ==> b[p] == evidence[p])
            && c.readManifest(b["manifest.json"]).Some?
            && var m, claim := c.readManifest(b["manifest.json"]).value, "sha256:" + c.hash(b["manifest.json"]);
               && |m.files| == |listed| && m.signer == c.fingerprint && m.rest == rest
               && (forall i :: 0 <= i < |listed| ==>
                     m.files[i] == Some(FileEntry(listed[i], c.hash(evidence[listed[i]]), c.size(evidence[listed[i]]))))
               && c.readSignature(b["manifest.sig"]) == Some(Signature("ed25519", c.fingerprint, c.sign(claim), claim))
  {
    hide ChecksumText;
  }

  // What the verifier names: exactly the entries that do not match their file, the files no entry lists, the
  // files whose digest the list does not give, the paths it should not give, and a signature that does not
  // hold.
  lemma OffencesMean(c: Codec, a: Bundle, i: nat, p: string)
    requires "manifest.json" in a && "manifest.sig" in a
    requires c.readManifest(a["manifest.json"]).Some? && c.readSignature(a["manifest.sig"]).Some?
    ensures var m, s := c.readManifest(a["manifest.json"]).value, c.readSignature(a["manifest.sig"]).value;
            var own := {"manifest.json", "manifest.sig", "SHA256SUMS"};
            && (Offends(c, a, BadEntry(i)) <==> i < |m.files| && !Covers(c, a, m.files[i]))
            && (Offends(c, a, Unexpected(p)) <==> p in a && p !in own && forall k :: 0 <= k < |m.files| && m.files[k].Some? ==> m.files[k].value.path != p)
            && (Offends(c, a, BadSignature) <==>
                  !(s.algorithm == "ed25519" && s.fingerprint == c.fingerprint && m.signer == c.fingerprint
                    && s.signedDigest == "sha256:" + c.hash(a["manifest.json"]) && c.checks(s.signature, s.signedDigest)))
            && !Offends(c, a, Unreadable)
  {
    hide ParseChecksums, InSums;
    if i < |c.readManifest(a["manifest.json"]).value.files| { CoversMeans(c, a, c.readManifest(a["manifest.json"]).value.files[i]); }
    assert SumsKinds(c, a) by { SumsName(c, a); }
  }

  lemma CoversMeans(c: Codec, a: Bundle, e: Option<FileEntry>)
    ensures EntryHolds(c, a, e) <==> Covers(c, a, e)
  {
  }

  ghost predicate SumsKinds(c: Codec, a: Bundle) {
    forall sums, q :: InSums(c, a, sums, q) ==> q.WrongSum? || q.UnknownSum?
  }

  lemma SumsName(c: Codec, a: Bundle)
    ensures SumsKinds(c, a)
  {
  }

  lemma SumOffencesMean(c: Codec, a: Bundle, p: string)
    requires Readable(c, a)
    ensures var sums := if "SHA256SUMS" in a && c.decode(a["SHA256SUMS"]).Some? then ParseChecksums(c, c.decode(a["SHA256SUMS"]).value) else None;
            && (Offends(c, a, BadSums) <==> sums.None?)
            && (sums.Some? ==>
                  && (Offends(c, a, WrongSum(p)) <==>
                        p in a && p != "SHA256SUMS" && p != "manifest.sig" && !(p in sums.value && sums.value[p] == c.hash(a[p])))
                  && (Offends(c, a, UnknownSum(p)) <==> p in sums.value && (p !in a || p == "SHA256SUMS" || p == "manifest.sig")))
  {
    hide ParseChecksums;
  }
}
