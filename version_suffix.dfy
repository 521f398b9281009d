/** The build configuration's import rewriting: a module specifier written
    `name@MAJOR.MINOR.PATCH` or `name@MAJOR.MINOR.PATCH-pre` is resolved as `name`.
    The rule is the regular expression `^(.*)@(\d+\.\d+\.\d+(?:-[0-9A-Za-z.-]+)?)$`
    matched in JavaScript, whose group 1 is the rewritten specifier. Semantic
    Versioning 2.0.0 defines the three numbers in its section 2 and pre-release
    identifiers in its section 9; the expression accepts a looser superset of the
    latter (empty identifiers, leading zeros). */
module VersionSuffix {
  import opened Common

  predicate IsDigit(c: char) {
    '0' <= c <= '9'
  }

  /** The characters JavaScript's `.` refuses without the `s` flag. */
  predicate IsLineTerminator(c: char) {
    c == '\n' || c == '\r' || c == '\U{2028}' || c == '\U{2029}'
  }

  /** `[0-9A-Za-z.-]`. */
  predicate IsPreReleaseChar(c: char) {
    IsDigit(c) || ('A' <= c <= 'Z') || ('a' <= c <= 'z') || c == '.' || c == '-'
  }

  /** `\d+`. */
  predicate DigitRun(s: string) {
    |s| > 0 && forall i :: 0 <= i < |s| ==> IsDigit(s[i])
  }

  /** `[0-9A-Za-z.-]+`. */
  predicate PreReleaseRun(s: string) {
    |s| > 0 && forall i :: 0 <= i < |s| ==> IsPreReleaseChar(s[i])
  }

  /** `.*`. */
  predicate NoLineTerminator(s: string) {
    forall i :: 0 <= i < |s| ==> !IsLineTerminator(s[i])
  }

  /** A version suffix taken apart: the three numbers and the optional text after `-`. */
  datatype Version = Version(major: string, minor: string, patch: string, pre: Option<string>)

  predicate WellFormed(v: Version) {
    DigitRun(v.major) && DigitRun(v.minor) && DigitRun(v.patch) &&
    (v.pre.Some? ==> PreReleaseRun(v.pre.value))
  }

  /** The text after the patch number: `-` and the pre-release, or nothing. */
  function Tail(v: Version): string {
    if v.pre.Some? then "-" + v.pre.value else ""
  }

  function Render(v: Version): string {
    v.major + "." + v.minor + "." + v.patch + Tail(v)
  }

  /** What the expression accepts: `prefix`, then `@`, then a rendered version. */
  ghost predicate MatchesWith(source: string, prefix: string, v: Version) {
    WellFormed(v) && NoLineTerminator(prefix) && source == prefix + "@" + Render(v)
  }

  // ---------------------------------------------------------------------
  // The matcher

  /** The length of the leading run of digits. */
  function DigitsLen(s: string): (n: nat)
    ensures n <= |s|
    ensures forall i :: 0 <= i < n ==> IsDigit(s[i])
    ensures n < |s| ==> !IsDigit(s[n])
  {
    if s == [] || !IsDigit(s[0]) then 0 else 1 + DigitsLen(s[1..])
  }

  /** Group 2 of the expression, read left to right: a digit run is always taken
      whole, since what may follow it (`.`, `-` or the end) is never a digit. */
  function ParseVersion(s: string): Option<Version> {
    var a := DigitsLen(s);
    if a == 0 || a == |s| || s[a] != '.' then None else ParseMinor(s[..a], s[a + 1..])
  }

  /** The rest after `MAJOR.`. */
  function ParseMinor(major: string, s: string): Option<Version> {
    var b := DigitsLen(s);
    if b == 0 || b == |s| || s[b] != '.' then None else ParsePatch(major, s[..b], s[b + 1..])
  }

  /** The rest after `MAJOR.MINOR.`. */
  function ParsePatch(major: string, minor: string, s: string): Option<Version> {
    var c := DigitsLen(s);
    if c == 0 then None
    else if c == |s| then Some(Version(major, minor, s, None))
    else if s[c] == '-' && PreReleaseRun(s[c + 1..]) then Some(Version(major, minor, s[..c], Some(s[c + 1..])))
    else None
  }

  /** The position of the last occurrence of `c`. */
  function LastIndexOf(s: string, c: char): (r: Option<nat>)
    ensures r.Some? ==> r.value < |s| && s[r.value] == c && forall j :: r.value < j < |s| ==> s[j] != c
    ensures r.None? ==> forall j :: 0 <= j < |s| ==> s[j] != c
  {
    if s == [] then None
    else if s[|s| - 1] == c then Some(|s| - 1)
    else LastIndexOf(s[..|s| - 1], c)
  }

  /** `source.match(versionSuffix)` followed by `match[1]`, or `None` for `null`.
      A version holds no `@`, so the only `@` the expression can split at is the last. */
  function StripVersionSuffix(source: string): (r: Option<string>)
    ensures r.Some? ==> |r.value| < |source|
  {
    match LastIndexOf(source, '@')
    case None => None
    case Some(i) =>
      if NoLineTerminator(source[..i]) && ParseVersion(source[i + 1..]).Some? then Some(source[..i]) else None
  }

  // ---------------------------------------------------------------------
  // Properties

  lemma {:induction false} DigitsLenOf(x: string, rest: string)
    requires forall i :: 0 <= i < |x| ==> IsDigit(x[i])
    requires rest == [] || !IsDigit(rest[0])
    ensures DigitsLen(x + rest) == |x|
  {
    if x != [] {
      assert (x + rest)[1..] == x[1..] + rest;
      DigitsLenOf(x[1..], rest);
    } else {
      assert x + rest == rest;
    }
  }

  lemma ParsePatchSound(major: string, minor: string, s: string)
    ensures ParsePatch(major, minor, s).Some? ==>
              var v := ParsePatch(major, minor, s).value;
              v.major == major && v.minor == minor && DigitRun(v.patch) &&
              (v.pre.Some? ==> PreReleaseRun(v.pre.value)) && v.patch + Tail(v) == s
  {
    var c := DigitsLen(s);
    if ParsePatch(major, minor, s).Some? && c < |s| {
      assert s == s[..c] + "-" + s[c + 1..];
    }
  }

  lemma ParseMinorSound(major: string, s: string)
    ensures ParseMinor(major, s).Some? ==>
              var v := ParseMinor(major, s).value;
              v.major == major && DigitRun(v.minor) && DigitRun(v.patch) &&
              (v.pre.Some? ==> PreReleaseRun(v.pre.value)) && v.minor + "." + v.patch + Tail(v) == s
  {
    var b := DigitsLen(s);
    if ParseMinor(major, s).Some? {
      ParsePatchSound(major, s[..b], s[b + 1..]);
      var v := ParseMinor(major, s).value;
      assert s == s[..b] + "." + s[b + 1..];
      assert v.minor + "." + v.patch + Tail(v) == v.minor + "." + (v.patch + Tail(v));
    }
  }

  /** Every version the parser returns is well formed and renders back to its input. */
  lemma ParseVersionSound(s: string)
    ensures ParseVersion(s).Some? ==> WellFormed(ParseVersion(s).value) && Render(ParseVersion(s).value) == s
  {
    if ParseVersion(s).Some? {
      var a := DigitsLen(s);
      var major, rest := s[..a], s[a + 1..];
      assert ParseVersion(s) == ParseMinor(major, rest);
      ParseMinorSound(major, rest);
      var v := ParseMinor(major, rest).value;
      assert DigitRun(major);
      RenderSplit(v);
      assert s == major + ("." + rest);
    }
  }

  lemma RenderSplit(v: Version)
    ensures Render(v) == v.major + ("." + (v.minor + "." + v.patch + Tail(v)))
  {
  }

  lemma ParsePatchComplete(v: Version)
    requires WellFormed(v)
    ensures ParsePatch(v.major, v.minor, v.patch + Tail(v)) == Some(v)
  {
    var s := v.patch + Tail(v);
    DigitsLenOf(v.patch, Tail(v));
    if v.pre.Some? {
      assert s[..|v.patch|] == v.patch;
      assert s[|v.patch|] == '-';
      assert s[|v.patch| + 1..] == v.pre.value;
    } else {
      assert s == v.patch;
    }
  }

  lemma ParseMinorComplete(v: Version)
    requires WellFormed(v)
    ensures ParseMinor(v.major, v.minor + "." + v.patch + Tail(v)) == Some(v)
  {
    var rest := v.patch + Tail(v);
    var s := v.minor + "." + rest;
    assert v.minor + "." + v.patch + Tail(v) == s;
    DigitsLenOf(v.minor, "." + rest);
    assert s == v.minor + ("." + rest);
    assert s[..|v.minor|] == v.minor;
    assert s[|v.minor| + 1..] == rest;
    ParsePatchComplete(v);
  }

  /** The parser reads every rendered well-formed version back. */
  lemma ParseVersionComplete(v: Version)
    requires WellFormed(v)
    ensures ParseVersion(Render(v)) == Some(v)
  {
    var rest := v.minor + "." + v.patch + Tail(v);
    var s := v.major + "." + rest;
    assert Render(v) == s;
    DigitsLenOf(v.major, "." + rest);
    assert s == v.major + ("." + rest);
    assert s[..|v.major|] == v.major;
    assert s[|v.major| + 1..] == rest;
    ParseMinorComplete(v);
  }

  lemma {:induction false} RenderHasNoAt(v: Version)
    requires WellFormed(v)
    ensures forall j :: 0 <= j < |Render(v)| ==> Render(v)[j] != '@'
  {
    var r := Render(v);
    forall j | 0 <= j < |r| ensures r[j] != '@' {
      var tail := Tail(v);
      assert r == v.major + ("." + (v.minor + ("." + (v.patch + tail))));
      if v.pre.Some? {
        assert forall k :: 0 <= k < |tail| ==> tail[k] == '-' || IsPreReleaseChar(tail[k]) by {
          forall k | 0 <= k < |tail| ensures tail[k] == '-' || IsPreReleaseChar(tail[k]) {
            if k > 0 { assert tail[k] == v.pre.value[k - 1]; }
          }
        }
      }
    }
  }

  /** The rewrite succeeds exactly on the specifiers of the form `prefix@version`,
      and then yields that `prefix`, so the source is the result, `@` and a version. */
  lemma StripVersionSuffixSound(source: string)
    ensures StripVersionSuffix(source).Some? ==>
              exists v :: MatchesWith(source, StripVersionSuffix(source).value, v)
  {
    if StripVersionSuffix(source).Some? {
      var i := LastIndexOf(source, '@').value;
      var prefix, post := source[..i], source[i + 1..];
      assert StripVersionSuffix(source) == Some(prefix);
      assert NoLineTerminator(prefix) && ParseVersion(post).Some?;
      ParseVersionSound(post);
      var v := ParseVersion(post).value;
      assert source == prefix + [source[i]] + post;
      assert MatchesWith(source, prefix, v);
    }
  }

  lemma StripVersionSuffixComplete(source: string, prefix: string, v: Version)
    requires MatchesWith(source, prefix, v)
    ensures StripVersionSuffix(source) == Some(prefix)
  {
    var r := Render(v);
    RenderHasNoAt(v);
    var i := |prefix|;
    assert source[i] == '@';
    forall j | i < j < |source| ensures source[j] != '@' {
      assert source[j] == r[j - i - 1];
    }
    assert LastIndexOf(source, '@') == Some(i);
    assert source[..i] == prefix;
    assert source[i + 1..] == r;
    ParseVersionComplete(v);
  }

  /** The two directions together: a match exists exactly when the rewrite
      succeeds, and the prefix of any match is the one the rewrite returns. */
  lemma StripVersionSuffixSpec(source: string)
    ensures StripVersionSuffix(source).Some? <==> exists p, v :: MatchesWith(source, p, v)
    ensures forall p, v :: MatchesWith(source, p, v) ==> StripVersionSuffix(source) == Some(p)
  {
    StripVersionSuffixSound(source);
    forall p, v | MatchesWith(source, p, v) ensures StripVersionSuffix(source) == Some(p) {
      StripVersionSuffixComplete(source, p, v);
    }
  }

  /** Example: a scoped package keeps its leading `@scope/`. */
  lemma ScopedNameKeepsScope()
    ensures StripVersionSuffix("@scope/pkg@1.2.3") == Some("@scope/pkg")
  {
    var v := Version("1", "2", "3", None);
    assert Render(v) == "1.2.3";
    assert "@scope/pkg@1.2.3" == "@scope/pkg" + "@" + "1.2.3";
    StripVersionSuffixComplete("@scope/pkg@1.2.3", "@scope/pkg", v);
  }

  /** A bare name and a two-number version are left alone. */
  lemma UnversionedLeftAlone()
    ensures StripVersionSuffix("pkg") == None
    ensures StripVersionSuffix("pkg@1.2") == None
  {
    var s := "pkg@1.2";
    assert forall j :: 0 <= j < 3 ==> "pkg"[j] != '@';
    assert s[3] == '@' && s[4] != '@' && s[5] != '@' && s[6] != '@';
    assert LastIndexOf(s, '@') == Some(3);
    assert s[4..] == "1.2";
    DigitsLenOf("1", ".2");
    assert "1.2" == "1" + ".2";
    assert "1.2"[2..] == "2";
    DigitsLenOf("2", "");
    assert "2" + "" == "2";
  }
}
