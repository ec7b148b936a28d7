/**
 * Boundary validation and the package layout (`crates/openvhost-pkg/src/request.rs`). Text is taken as its UTF-8
 * bytes, one character each; paths are unix path strings.
 */
module Request {
  import opened Prelude

  datatype PkgError = InvalidComponent(reason: string) | InvalidWarmupPath(reason: string)

  const RESERVED: seq<string> := [
    "con", "prn", "aux", "nul",
    "com0", "com1", "com2", "com3", "com4", "com5", "com6", "com7", "com8", "com9",
    "lpt0", "lpt1", "lpt2", "lpt3", "lpt4", "lpt5", "lpt6", "lpt7", "lpt8", "lpt9"]

  const MAX_WARMUP_REL_BYTES: nat := 240
  const MAX_WARMUP_DEPTH: nat := 8

  // ---- splitting and joining ----

  function Split(s: string, sep: char): (parts: seq<string>)
    ensures |parts| >= 1
  {
    if |s| == 0 then [""]
    else
      var rest := Split(s[1..], sep);
      if s[0] == sep then [""] + rest else [[s[0]] + rest[0]] + rest[1..]
  }

  function Rejoin(parts: seq<string>, sep: char): string
    requires |parts| >= 1
  {
    if |parts| == 1 then parts[0] else parts[0] + [sep] + Rejoin(parts[1..], sep)
  }

  lemma {:induction false} RejoinPrepend(c: char, parts: seq<string>, sep: char)
    requires |parts| >= 1
    ensures Rejoin([[c] + parts[0]] + parts[1..], sep) == [c] + Rejoin(parts, sep)
  {
    assert ([[c] + parts[0]] + parts[1..])[1..] == parts[1..];
    if |parts| > 1 {
      assert [c] + parts[0] + [sep] + Rejoin(parts[1..], sep) == [c] + (parts[0] + [sep] + Rejoin(parts[1..], sep));
    }
  }

  /** Splitting and joining again gives back the same text. */
  lemma {:induction false} RejoinSplit(s: string, sep: char)
    ensures Rejoin(Split(s, sep), sep) == s
  {
    if |s| > 0 {
      var rest := Split(s[1..], sep);
      RejoinSplit(s[1..], sep);
      if s[0] == sep {
        assert ([""] + rest)[1..] == rest;
      } else {
        RejoinPrepend(s[0], rest, sep);
      }
    }
  }

  /** No part of a split contains the separator, and every part is made of characters of the text. */
  lemma {:induction false} SplitParts(s: string, sep: char, i: nat)
    requires i < |Split(s, sep)|
    ensures sep !in Split(s, sep)[i]
    ensures forall c :: c in Split(s, sep)[i] ==> c in s
  {
    if |s| > 0 {
      var rest := Split(s[1..], sep);
      if s[0] == sep {
        if i > 0 {
          SplitParts(s[1..], sep, i - 1);
        }
      } else {
        SplitParts(s[1..], sep, i);
      }
    }
  }

  lemma {:induction false} SplitWithoutSeparator(s: string, sep: char)
    requires sep !in s
    ensures Split(s, sep) == [s]
  {
    if |s| > 0 {
      SplitWithoutSeparator(s[1..], sep);
      assert [s[0]] + s[1..] == s;
    }
  }

  /** One more character in front changes only the first part. */
  lemma FrontChangesFirst(c: char, p: seq<string>, q: seq<string>)
    requires |p| >= 1
    ensures [""] + (p + q) == ([""] + p) + q
    ensures [[c] + (p + q)[0]] + (p + q)[1..] == ([[c] + p[0]] + p[1..]) + q
  {
    assert (p + q)[1..] == p[1..] + q;
  }

  lemma {:induction false} SplitConcat(a: string, b: string, sep: char)
    ensures Split(a + [sep] + b, sep) == Split(a, sep) + Split(b, sep)
  {
    var whole := a + [sep] + b;
    if |a| == 0 {
      assert whole[1..] == b;
    } else {
      assert whole[0] == a[0] && whole[1..] == a[1..] + [sep] + b;
      SplitConcat(a[1..], b, sep);
      FrontChangesFirst(a[0], Split(a[1..], sep), Split(b, sep));
    }
  }

  /** Splitting a joined list of separator-free parts gives back the list. */
  lemma {:induction false} SplitRejoin(parts: seq<string>, sep: char)
    requires |parts| >= 1 && forall i :: 0 <= i < |parts| ==> sep !in parts[i]
    ensures Split(Rejoin(parts, sep), sep) == parts
  {
    if |parts| == 1 {
      SplitWithoutSeparator(parts[0], sep);
    } else {
      SplitRejoin(parts[1..], sep);
      SplitWithoutSeparator(parts[0], sep);
      SplitConcat(parts[0], Rejoin(parts[1..], sep), sep);
    }
  }

  // ---- single components ----

  predicate LowerOrDigit(c: char) {
    'a' <= c <= 'z' || '0' <= c <= '9'
  }

  predicate Punct(c: char) {
    c == '.' || c == '_' || c == '-'
  }

  function ValidateComponent(s: string): Result<(), PkgError> {
    if s == "" || |s| > 64 then Err(InvalidComponent("length must be 1..=64"))
    else if exists i :: 0 <= i < |s| && !(LowerOrDigit(s[i]) || Punct(s[i])) then
      Err(InvalidComponent("only [a-z0-9._-] allowed"))
    else if s == "." || s == ".." then Err(InvalidComponent("must not be . or .."))
    else if s[0] == '.' || s[0] == '-' then Err(InvalidComponent("must not start with . or -"))
    else if s[|s| - 1] == '.' then Err(InvalidComponent("must not end with a dot"))
    else if Split(s, '.')[0] in RESERVED then Err(InvalidComponent("reserved device name"))
    else Ok(())
  }

  predicate ValidComponent(s: string) {
    ValidateComponent(s).Ok?
  }

  const LOWER := "abcdefghijklmnopqrstuvwxyz"
  const UPPER := "ABCDEFGHIJKLMNOPQRSTUVWXYZ"
  const DIGITS := "0123456789"
  const PUNCT := "._-"

  lemma LowerIs(c: char)
    ensures c in LOWER <==> 'a' <= c <= 'z'
  {
    if 'a' <= c <= 'z' {
      assert LOWER[c as int - 'a' as int] == c;
    }
  }

  lemma UpperIs(c: char)
    ensures c in UPPER <==> 'A' <= c <= 'Z'
  {
    if 'A' <= c <= 'Z' {
      assert UPPER[c as int - 'A' as int] == c;
    }
  }

  lemma DigitsAre(c: char)
    ensures c in DIGITS <==> '0' <= c <= '9'
  {
    if '0' <= c <= '9' {
      assert DIGITS[c as int - '0' as int] == c;
    }
  }

  lemma PunctIs(c: char)
    ensures c in PUNCT <==> Punct(c)
  {
    assert PUNCT[0] == '.' && PUNCT[1] == '_' && PUNCT[2] == '-';
  }

  /** The characters of a component: lower-case letters, digits, dot, underscore and dash. */
  predicate ComponentChar(c: char) {
    c in LOWER || c in DIGITS || c in PUNCT
  }

  lemma ComponentChars(c: char)
    ensures ComponentChar(c) <==> LowerOrDigit(c) || Punct(c)
    ensures ComponentChar(c) || c in UPPER <==> WarmupChar(c)
  {
    LowerIs(c);
    UpperIs(c);
    DigitsAre(c);
    PunctIs(c);
  }

  /** A device name: one of four words, or `com` or `lpt` with one digit. */
  predicate DeviceName(s: string) {
    || s == "con" || s == "prn" || s == "aux" || s == "nul"
    || (|s| == 4 && (s[..3] == "com" || s[..3] == "lpt") && '0' <= s[3] <= '9')
  }

  lemma ReservedAreDeviceNames(s: string)
    ensures s in RESERVED <==> DeviceName(s)
  {
    if DeviceName(s) && |s| == 4 {
      var d := s[3] as int - '0' as int;
      assert s == s[..3] + [s[3]];
      if s[..3] == "com" {
        assert RESERVED[4 + d] == "com" + [s[3]];
      } else {
        assert RESERVED[14 + d] == "lpt" + [s[3]];
      }
    } else if DeviceName(s) {
      assert RESERVED[0] == "con" && RESERVED[1] == "prn" && RESERVED[2] == "aux" && RESERVED[3] == "nul";
    }
  }

  /** The name is a device name, alone or followed by an extension. */
  ghost predicate NamesDevice(s: string) {
    exists k :: 0 <= k <= |s| && DeviceName(s[..k]) && (k < |s| ==> s[k] == '.')
  }

  lemma StemOfConcat(stem: string, rest: string)
    requires Split(stem, '.') == [stem]
    ensures Split(stem + ['.'] + rest, '.')[0] == stem
  {
    SplitConcat(stem, rest, '.');
  }

  lemma StemWithExtension(s: string, k: nat)
    requires k < |s| && '.' !in s[..k] && s[k] == '.'
    ensures Split(s, '.')[0] == s[..k]
  {
    var stem, rest := s[..k], s[k + 1..];
    assert s == stem + ['.'] + rest;
    SplitWithoutSeparator(stem, '.');
    StemOfConcat(stem, rest);
  }

  lemma StemIs(s: string, k: nat)
    requires k <= |s| && '.' !in s[..k] && (k < |s| ==> s[k] == '.')
    ensures Split(s, '.')[0] == s[..k]
  {
    if k < |s| {
      StemWithExtension(s, k);
    } else {
      assert s[..k] == s;
      SplitWithoutSeparator(s, '.');
    }
  }

  lemma {:induction false} StemEnds(s: string) returns (k: nat)
    ensures k <= |s| && '.' !in s[..k] && (k < |s| ==> s[k] == '.')
  {
    k := 0;
    if |s| > 0 && s[0] != '.' {
      var rest := StemEnds(s[1..]);
      k := rest + 1;
      assert s[..k] == [s[0]] + s[1..][..rest];
    }
  }

  lemma StemIsReservedIff(s: string)
    ensures Split(s, '.')[0] in RESERVED <==> NamesDevice(s)
  {
    if NamesDevice(s) {
      var n :| 0 <= n <= |s| && DeviceName(s[..n]) && (n < |s| ==> s[n] == '.');
      DeviceStem(s, n);
    } else {
      var k := StemEnds(s);
      StemIs(s, k);
      ReservedAreDeviceNames(s[..k]);
    }
  }

  lemma DeviceStem(s: string, n: nat)
    requires n <= |s| && DeviceName(s[..n]) && (n < |s| ==> s[n] == '.')
    ensures Split(s, '.')[0] in RESERVED
  {
    DeviceNamesHaveNoDot(s[..n]);
    StemIs(s, n);
    ReservedAreDeviceNames(s[..n]);
  }

  lemma DeviceNamesHaveNoDot(s: string)
    requires DeviceName(s)
    ensures '.' !in s
  {
    if |s| == 4 {
      assert s == s[..3] + [s[3]];
    }
  }

  /**
   * Exactly which components are accepted: 1 to 64 of the listed characters, not starting with a dot or a dash, not
   * ending with a dot, and not a device name. A refusal gives the first reason that applies.
   */
  lemma ComponentAcceptedIff(s: string)
    ensures ValidateComponent(s).Ok? <==>
              && 1 <= |s| <= 64
              && (forall i :: 0 <= i < |s| ==> ComponentChar(s[i]))
              && s[0] != '.' && s[0] != '-' && s[|s| - 1] != '.' && !NamesDevice(s)
    ensures ValidateComponent(s) == Err(InvalidComponent("length must be 1..=64")) <==> !(1 <= |s| <= 64)
    ensures ValidateComponent(s) == Err(InvalidComponent("only [a-z0-9._-] allowed")) <==>
              1 <= |s| <= 64 && exists i :: 0 <= i < |s| && !ComponentChar(s[i])
    ensures ValidateComponent(s) == Err(InvalidComponent("reserved device name")) ==> NamesDevice(s)
  {
    CharsAreFine(s);
    StemIsReservedIff(s);
  }

  lemma CharsAreFine(s: string)
    ensures (exists i :: 0 <= i < |s| && !(LowerOrDigit(s[i]) || Punct(s[i])))
            <==> exists i :: 0 <= i < |s| && !ComponentChar(s[i])
  {
    forall i | 0 <= i < |s| ensures ComponentChar(s[i]) <==> LowerOrDigit(s[i]) || Punct(s[i]) {
      ComponentChars(s[i]);
    }
  }

  // ---- the layout ----

  /** `PathBuf::join` on unix. */
  function Join(p: string, c: string): string {
    if |c| > 0 && c[0] == '/' then c
    else if p == "" || p[|p| - 1] == '/' then p + c
    else p + "/" + c
  }

  function StagingRoot(root: string): string {
    Join(root, ".staging")
  }

  function MajorDir(root: string, name: string, major: string): string {
    Join(Join(root, name), major)
  }

  function PackageDir(root: string, name: string, major: string, version: string): string {
    Join(MajorDir(root, name, major), version)
  }

  function CurrentLink(root: string, name: string, major: string): string {
    Join(MajorDir(root, name, major), "current")
  }

  /** The directories a path steps through: empty and `.` parts step nowhere. */
  function Steps(parts: seq<string>): seq<string> {
    if |parts| == 0 then []
    else if parts[0] == "" || parts[0] == "." then Steps(parts[1..])
    else [parts[0]] + Steps(parts[1..])
  }

  function Components(p: string): seq<string> {
    Steps(Split(p, '/'))
  }

  lemma {:induction false} StepsConcat(a: seq<string>, b: seq<string>)
    ensures Steps(a + b) == Steps(a) + Steps(b)
  {
    if |a| == 0 {
      assert a + b == b;
    } else {
      assert (a + b)[1..] == a[1..] + b;
      StepsConcat(a[1..], b);
    }
  }

  /** A path component proper. */
  predicate Plain(c: string) {
    c != "" && c != "." && '/' !in c
  }

  lemma ValidIsPlain(s: string)
    requires ValidComponent(s)
    ensures Plain(s) && s != ".." && s[0] != '.'
  {
  }

  /** Joining a proper component adds exactly that step. */
  lemma JoinAddsStep(p: string, c: string)
    requires Plain(c)
    ensures Components(Join(p, c)) == Components(p) + [c]
    ensures |Join(p, c)| > 0 && Join(p, c)[|Join(p, c)| - 1] != '/'
  {
    SplitWithoutSeparator(c, '/');
    assert Steps([c]) == [c];
    if p == "" {
      assert p + c == c;
    } else if p[|p| - 1] == '/' {
      SlashAddsStep(p[..|p| - 1], c);
      assert p == p[..|p| - 1] + ['/'];
    } else {
      assert p + "/" + c == p + ['/'] + c;
      SplitConcat(p, c, '/');
      StepsConcat(Split(p, '/'), [c]);
    }
  }

  lemma SlashAddsStep(q: string, c: string)
    requires Split(c, '/') == [c] && Steps([c]) == [c]
    ensures Components(q + ['/'] + c) == Components(q + ['/']) + [c]
  {
    assert q + ['/'] + "" == q + ['/'];
    SplitConcat(q, "", '/');
    SplitConcat(q, c, '/');
    StepsConcat(Split(q, '/'), [""]);
    StepsConcat(Split(q, '/'), [c]);
  }

  lemma PackageDirSteps(root: string, name: string, major: string, version: string)
    requires Plain(name) && Plain(major) && Plain(version)
    ensures Components(PackageDir(root, name, major, version)) == Components(root) + [name, major, version]
    ensures Components(CurrentLink(root, name, major)) == Components(root) + [name, major, "current"]
    ensures Components(StagingRoot(root)) == Components(root) + [".staging"]
  {
    JoinAddsStep(root, name);
    JoinAddsStep(Join(root, name), major);
    JoinAddsStep(MajorDir(root, name, major), version);
    JoinAddsStep(MajorDir(root, name, major), "current");
    JoinAddsStep(root, ".staging");
  }

  /** Distinct validated triples have distinct directories. */
  lemma PackageDirInjective(
    root: string, n1: string, m1: string, v1: string, n2: string, m2: string, v2: string)
    requires ValidComponent(n1) && ValidComponent(m1) && ValidComponent(v1)
    requires ValidComponent(n2) && ValidComponent(m2) && ValidComponent(v2)
    ensures Components(PackageDir(root, n1, m1, v1)) == Components(PackageDir(root, n2, m2, v2)) <==>
            n1 == n2 && m1 == m2 && v1 == v2
  {
    ValidIsPlain(n1); ValidIsPlain(m1); ValidIsPlain(v1);
    ValidIsPlain(n2); ValidIsPlain(m2); ValidIsPlain(v2);
    PackageDirSteps(root, n1, m1, v1);
    PackageDirSteps(root, n2, m2, v2);
    LastThreeDiffer(Components(root), n1, m1, v1, n2, m2, v2);
  }

  lemma LastThreeDiffer(r: seq<string>, n1: string, m1: string, v1: string, n2: string, m2: string, v2: string)
    ensures r + [n1, m1, v1] == r + [n2, m2, v2] <==> n1 == n2 && m1 == m2 && v1 == v2
  {
    var a, b := r + [n1, m1, v1], r + [n2, m2, v2];
    assert a[|r|] == n1 && a[|r| + 1] == m1 && a[|r| + 2] == v1;
    assert b[|r|] == n2 && b[|r| + 1] == m2 && b[|r| + 2] == v2;
  }

  /** A package directory is never the staging root, above it or inside it. */
  lemma PackageDirAvoidsStaging(root: string, name: string, major: string, version: string)
    requires ValidComponent(name) && ValidComponent(major) && ValidComponent(version)
    ensures !(Components(StagingRoot(root)) <= Components(PackageDir(root, name, major, version)))
    ensures !(Components(PackageDir(root, name, major, version)) <= Components(StagingRoot(root)))
  {
    ValidIsPlain(name); ValidIsPlain(major); ValidIsPlain(version);
    PackageDirSteps(root, name, major, version);
    var r := Components(root);
    assert (r + [".staging"])[|r|] == ".staging" && (r + [name, major, version])[|r|] == name;
  }

  /** A package directory is the place of some `current` link exactly when its version is called "current". */
  lemma PackageDirIsCurrentIff(root: string, name: string, major: string, version: string)
    requires ValidComponent(name) && ValidComponent(major) && ValidComponent(version)
    ensures Components(PackageDir(root, name, major, version)) == Components(CurrentLink(root, name, major)) <==>
            version == "current"
  {
    ValidIsPlain(name); ValidIsPlain(major); ValidIsPlain(version);
    PackageDirSteps(root, name, major, version);
    var r := Components(root);
    assert (r + [name, major, version])[|r| + 2] == version && (r + [name, major, "current"])[|r| + 2] == "current";
  }

  lemma ReservedAreShort(stem: string)
    requires stem in RESERVED
    ensures |stem| <= 4
  {
  }

  /** And "current" is a version that validation accepts. */
  lemma CurrentIsValid()
    ensures ValidComponent("current")
  {
    var c := "current";
    assert c == ['c', 'u', 'r', 'r', 'e', 'n', 't'];
    SplitWithoutSeparator(c, '.');
    if c in RESERVED {
      ReservedAreShort(c);
    }
  }

  // ---- warm-up paths ----

  predicate WarmupChar(c: char) {
    LowerOrDigit(c) || 'A' <= c <= 'Z' || Punct(c)
  }

  function CheckComponents(comps: seq<string>): Result<(), PkgError> {
    if |comps| == 0 then Ok(())
    else
      var c := comps[0];
      if c == "" then Err(InvalidWarmupPath("empty path component"))
      else if c == "." || c == ".." then Err(InvalidWarmupPath("must not contain a . or .. component"))
      else if c[0] == '-' then Err(InvalidWarmupPath("path component must not start with '-'"))
      else if exists i :: 0 <= i < |c| && !WarmupChar(c[i]) then
        Err(InvalidWarmupPath("only [A-Za-z0-9._-] allowed in path components"))
      else CheckComponents(comps[1..])
  }

  /** `PathBuf::from_iter`: the components pushed one after the other. */
  function Collect(comps: seq<string>): string {
    if |comps| == 0 then "" else Join(Collect(comps[..|comps| - 1]), comps[|comps| - 1])
  }

  function ValidateWarmupRel(s: string): Result<string, PkgError> {
    if s == "" then Err(InvalidWarmupPath("must not be empty"))
    else if |s| > MAX_WARMUP_REL_BYTES then Err(InvalidWarmupPath("path too long"))
    else if '\0' in s then Err(InvalidWarmupPath("must not contain NUL"))
    else if '\\' in s then Err(InvalidWarmupPath("must not contain a backslash"))
    else if s[0] == '/' then Err(InvalidWarmupPath("must be relative, not absolute"))
    else
      var comps := Split(s, '/');
      if |comps| > MAX_WARMUP_DEPTH then Err(InvalidWarmupPath("too many path components"))
      else
        match CheckComponents(comps)
        case Err(e) => Err(e)
        case Ok(_) => Ok(Collect(comps))
  }

  /** A proper step that does not look like an option, of letters of either case, digits, dot, underscore and dash. */
  predicate GoodPart(c: string) {
    && c != "" && c != "." && c != ".." && c[0] != '-'
    && forall i :: 0 <= i < |c| ==> ComponentChar(c[i]) || c[i] in UPPER
  }

  lemma {:induction false} CheckComponentsIff(comps: seq<string>)
    ensures CheckComponents(comps).Ok? <==> forall i :: 0 <= i < |comps| ==> GoodPart(comps[i])
  {
    if |comps| > 0 {
      CheckComponentsIff(comps[1..]);
      forall i | 0 <= i < |comps[0]|
        ensures WarmupChar(comps[0][i]) <==> ComponentChar(comps[0][i]) || comps[0][i] in UPPER
      {
        ComponentChars(comps[0][i]);
      }
      assert GoodPart(comps[0]) ==>
          !(exists i :: 0 <= i < |comps[0]| && !WarmupChar(comps[0][i]));
      forall i | 0 < i < |comps| ensures comps[i] == comps[1..][i - 1] {
      }
    }
  }

  lemma {:induction false} CollectIsRejoin(comps: seq<string>)
    requires |comps| >= 1 && forall i :: 0 <= i < |comps| ==> Plain(comps[i])
    ensures Collect(comps) == Rejoin(comps, '/')
    ensures Components(Collect(comps)) == comps
  {
    var init, last := comps[..|comps| - 1], comps[|comps| - 1];
    assert comps == init + [last];
    JoinAddsStep(Collect(init), last);
    if |init| == 0 {
      assert Components("") == [];
    } else {
      CollectIsRejoin(init);
      if |init| > 1 {
        JoinAddsStep(Collect(init[..|init| - 1]), init[|init| - 1]);
      } else {
        assert Collect(init) == Join("", init[0]);
      }
      RejoinSnoc(init, last);
    }
  }

  lemma {:induction false} RejoinSnoc(init: seq<string>, last: string)
    requires |init| >= 1
    ensures Rejoin(init + [last], '/') == Rejoin(init, '/') + "/" + last
  {
    if |init| > 1 {
      assert (init + [last])[1..] == init[1..] + [last];
      RejoinSnoc(init[1..], last);
    }
  }

  /** Exactly which warm-up paths are accepted; and an accepted path is returned unchanged. */
  lemma WarmupAcceptedIff(s: string)
    ensures ValidateWarmupRel(s).Ok? <==>
              && |s| <= 240 && |Split(s, '/')| <= 8
              && forall i :: 0 <= i < |Split(s, '/')| ==> GoodPart(Split(s, '/')[i])
    ensures ValidateWarmupRel(s).Ok? ==> ValidateWarmupRel(s).value == s && Components(s) == Split(s, '/')
  {
    var comps := Split(s, '/');
    CheckComponentsIff(comps);
    if forall i :: 0 <= i < |comps| ==> GoodPart(comps[i]) {
      forall i | 0 <= i < |comps| ensures Plain(comps[i]) {
        SplitParts(s, '/', i);
      }
      CollectIsRejoin(comps);
      RejoinSplit(s, '/');
      GoodTextChars(comps);
      assert GoodPart(comps[0]);
    }
  }

  lemma {:induction false} GoodTextChars(parts: seq<string>)
    requires |parts| >= 1 && forall i :: 0 <= i < |parts| ==> GoodPart(parts[i])
    ensures '\0' !in Rejoin(parts, '/') && '\\' !in Rejoin(parts, '/')
  {
    GoodPartChars(parts[0]);
    if |parts| > 1 {
      GoodTextChars(parts[1..]);
    }
  }

  lemma GoodPartChars(c: string)
    requires GoodPart(c)
    ensures '\0' !in c && '\\' !in c
  {
    ComponentChars('\0');
    ComponentChars('\\');
  }

  /** Lexical resolution: `..` removes the step before it. */
  function Resolve(steps: seq<string>): seq<string> {
    if |steps| == 0 then []
    else
      var init := Resolve(steps[..|steps| - 1]);
      var last := steps[|steps| - 1];
      if last == ".." then (if |init| > 0 then init[..|init| - 1] else []) else init + [last]
  }

  lemma {:induction false} ResolveDown(base: seq<string>, down: seq<string>)
    requires forall i :: 0 <= i < |down| ==> down[i] != ".."
    ensures Resolve(base + down) == Resolve(base) + down
  {
    if |down| == 0 {
      assert base + down == base;
    } else {
      var init := down[..|down| - 1];
      assert (base + down)[..|base + down| - 1] == base + init;
      ResolveDown(base, init);
    }
  }

  /** Why an absolute path must be refused: joined to any root it is that path, not one below the root. */
  lemma AbsoluteEscapes(root: string, c: string)
    requires |c| > 0 && c[0] == '/'
    ensures Components(Join(root, c)) == Components(c) && ValidateWarmupRel(c).Err?
  {
  }

  /**
   * Every accepted warm-up path, joined to any root, resolves lexically strictly below that root, one level per
   * component and at most eight levels down.
   */
  lemma WarmupStaysBelow(root: string, s: string)
    requires ValidateWarmupRel(s).Ok?
    ensures var base := Resolve(Components(root));
            var at := Resolve(Components(Join(root, s)));
            base <= at && 1 <= |at| - |base| <= 8 && at == base + Split(s, '/')
  {
    WarmupAcceptedIff(s);
    var comps := Split(s, '/');
    JoinAddsSteps(root, s);
    ResolveDown(Components(root), comps);
  }

  lemma JoinAddsSteps(p: string, c: string)
    requires c != "" && c[0] != '/'
    ensures Components(Join(p, c)) == Components(p) + Components(c)
  {
    if p == "" {
      assert p + c == c;
      assert Components("") == [];
    } else if p[|p| - 1] == '/' {
      var q := p[..|p| - 1];
      assert p == q + ['/'] + "";
      SplitConcat(q, "", '/');
      assert p + c == q + ['/'] + c;
      SplitConcat(q, c, '/');
      StepsConcat(Split(q, '/'), [""]);
      StepsConcat(Split(q, '/'), Split(c, '/'));
    } else {
      assert p + "/" + c == p + ['/'] + c;
      SplitConcat(p, c, '/');
      StepsConcat(Split(p, '/'), Split(c, '/'));
    }
  }

  /** A validated triple's directory resolves to exactly three levels below any root, never beside or above it. */
  lemma PackageDirStaysBelow(root: string, name: string, major: string, version: string)
    requires ValidComponent(name) && ValidComponent(major) && ValidComponent(version)
    ensures Resolve(Components(PackageDir(root, name, major, version))) ==
            Resolve(Components(root)) + [name, major, version]
  {
    ValidIsPlain(name); ValidIsPlain(major); ValidIsPlain(version);
    PackageDirSteps(root, name, major, version);
    var down := [name, major, version];
    forall i | 0 <= i < |down| ensures down[i] != ".." {
    }
    ResolveDown(Components(root), down);
  }
}
