/**
 * Paths in config files and the option-file reader (`crates/openvhost-conf/src/ctx.rs`), and the MySQL option file
 * (`crates/openvhost-conf/src/mysql.rs` with its template).
 */
module ConfigText {
  import opened Prelude

  datatype ConfError = PathNotUtf8 | InvalidPath(value: string)

  /** A path as the OS gives it. */
  datatype OsPath = Utf8(text: string) | NotUtf8

  // ---- embedding a path ----

  function Replaced(s: string): string {
    if |s| == 0 then "" else [if s[0] == '\\' then '/' else s[0]] + Replaced(s[1..])
  }

  predicate IsControl(c: char) {
    c < ' ' || c == 0x7F as char
  }

  predicate BadChar(c: char) {
    c == '"' || c == '$' || c == '#' || c == ';' || IsControl(c)
  }

  const UNC_PREFIX := "\\\\?\\UNC\\"
  const VERBATIM_PREFIX := "\\\\?\\"

  /** A Windows verbatim prefix is removed; the UNC form keeps its two leading backslashes. */
  function Unprefixed(s: string): string {
    if UNC_PREFIX <= s then "\\\\" + s[|UNC_PREFIX|..]
    else if VERBATIM_PREFIX <= s then s[|VERBATIM_PREFIX|..]
    else s
  }

  function ToConfigPath(p: OsPath): Result<string, ConfError> {
    match p
    case NotUtf8 => Err(PathNotUtf8)
    case Utf8(text) =>
      var s := Replaced(Unprefixed(text));
      if exists i :: 0 <= i < |s| && BadChar(s[i]) then Err(InvalidPath(s)) else Ok(s)
  }

  lemma {:induction false} ReplacedChars(s: string)
    ensures |Replaced(s)| == |s|
    ensures forall i :: 0 <= i < |s| ==> Replaced(s)[i] == if s[i] == '\\' then '/' else s[i]
  {
    if |s| > 0 {
      ReplacedChars(s[1..]);
    }
  }

  /** Text that can stand in a config file as a path. */
  ghost predicate Clean(s: string) {
    forall i :: 0 <= i < |s| ==> s[i] != '\\' && !BadChar(s[i])
  }

  /** An accepted path is clean, and a clean path is accepted unchanged: embedding is idempotent. */
  lemma ToConfigPathIdempotent(p: OsPath)
    ensures ToConfigPath(p).Ok? ==>
              Clean(ToConfigPath(p).value) && ToConfigPath(Utf8(ToConfigPath(p).value)) == ToConfigPath(p)
    ensures p.Utf8? && Clean(p.text) ==> ToConfigPath(p) == Ok(p.text)
  {
    if p.Utf8? {
      ReplacedChars(Unprefixed(p.text));
      if Clean(p.text) {
        CleanUnchanged(p.text);
      }
      if ToConfigPath(p).Ok? {
        assert Clean(ToConfigPath(p).value);
        CleanUnchanged(ToConfigPath(p).value);
      }
    }
  }

  lemma CleanUnchanged(s: string)
    requires Clean(s)
    ensures Unprefixed(s) == s && Replaced(s) == s
  {
    ReplacedChars(s);
    assert UNC_PREFIX[0] == '\\' && VERBATIM_PREFIX[0] == '\\';
  }

  /** What a path is read as: the UNC form with its two backslashes, any other verbatim path without its prefix. */
  ghost predicate ReadsAs(text: string, s: string) {
    || (exists rest :: text == "\\\\?\\UNC\\" + rest && s == "\\\\" + rest)
    || (!("\\\\?\\UNC\\" <= text) && exists rest :: text == "\\\\?\\" + rest && s == rest)
    || (!("\\\\?\\" <= text) && s == text)
  }

  /** Quote, dollar, hash, semicolon, and the ASCII control characters. */
  predicate Forbidden(c: char) {
    c in ['\"', '$', '#', ';'] || c as int < 32 || c as int == 127
  }

  /** `b` is `a` with a slash for every backslash. */
  ghost predicate Slashed(a: string, b: string) {
    |a| == |b| && forall i :: 0 <= i < |a| ==> b[i] == if a[i] == '\\' then '/' else a[i]
  }

  /** Exactly which paths are accepted, and what is embedded, or reported, for each. */
  lemma ToConfigPathIff(p: OsPath, s: string)
    requires p.Utf8? ==> ReadsAs(p.text, s)
    ensures ToConfigPath(p).Ok? <==> p.Utf8? && forall i :: 0 <= i < |s| ==> !Forbidden(s[i])
    ensures ToConfigPath(p).Ok? ==> Slashed(s, ToConfigPath(p).value)
    ensures p.NotUtf8? <==> ToConfigPath(p) == Err(PathNotUtf8)
    ensures ToConfigPath(p).Err? && p.Utf8? ==>
              ToConfigPath(p).error.InvalidPath? && Slashed(s, ToConfigPath(p).error.value)
  {
    if p.Utf8? {
      UnprefixedIs(p.text, s);
      ReplacedChars(s);
      var r := Replaced(s);
      forall i | 0 <= i < |s| ensures BadChar(r[i]) <==> Forbidden(s[i]) {
      }
    }
  }

  lemma UncIsVerbatim()
    ensures VERBATIM_PREFIX <= UNC_PREFIX
  {
    assert UNC_PREFIX[..4] == VERBATIM_PREFIX;
  }

  lemma UnprefixedIs(text: string, s: string)
    requires ReadsAs(text, s)
    ensures Unprefixed(text) == s
  {
    if rest :| text == UNC_PREFIX + rest && s == "\\\\" + rest {
      assert text[|UNC_PREFIX|..] == rest;
    } else if VERBATIM_PREFIX <= text {
      var rest :| text == VERBATIM_PREFIX + rest && s == rest;
      assert text[|VERBATIM_PREFIX|..] == rest;
    } else {
      UncIsVerbatim();
    }
  }

  // ---- reading lines ----

  /** `str::lines`: a final line break ends the last line, and a carriage return before a break is dropped. */
  function LinesOf(s: string): seq<string>
    decreases |s|
  {
    if |s| == 0 then []
    else
      var n := LineLength(s);
      var line := s[..n];
      var rest := if n < |s| then s[n + 1..] else "";
      [if n < |s| && n > 0 && line[n - 1] == '\r' then line[..n - 1] else line] + LinesOf(rest)
  }

  function LineLength(s: string): (n: nat)
    ensures n <= |s| && (n < |s| ==> s[n] == '\n') && forall i :: 0 <= i < n ==> s[i] != '\n'
  {
    if |s| == 0 || s[0] == '\n' then 0 else 1 + LineLength(s[1..])
  }

  function Unlines(lines: seq<string>): string {
    if |lines| == 0 then "" else lines[0] + "\n" + Unlines(lines[1..])
  }

  ghost predicate OneLine(s: string) {
    forall i :: 0 <= i < |s| ==> s[i] != '\n' && s[i] != '\r'
  }

  /** Lines without breaks survive being written and read back. */
  lemma {:induction false} LinesOfUnlines(lines: seq<string>)
    requires forall i :: 0 <= i < |lines| ==> OneLine(lines[i])
    ensures LinesOf(Unlines(lines)) == lines
  {
    if |lines| > 0 {
      var s := Unlines(lines);
      var l := lines[0];
      assert s == l + ("\n" + Unlines(lines[1..]));
      assert OneLine(l);
      assert s[..|l|] == l && s[|l|] == '\n';
      assert LineLength(s) == |l|;
      assert s[|l| + 1..] == Unlines(lines[1..]);
      LinesOfUnlines(lines[1..]);
    }
  }

  function CrLfLines(lines: seq<string>): string {
    if |lines| == 0 then "" else lines[0] + "\r\n" + CrLfLines(lines[1..])
  }

  /** Lines that end in a carriage return and a line feed read the same. */
  lemma {:induction false} LinesOfCrLf(lines: seq<string>)
    requires forall i :: 0 <= i < |lines| ==> OneLine(lines[i])
    ensures LinesOf(CrLfLines(lines)) == lines
  {
    if |lines| > 0 {
      var s := CrLfLines(lines);
      var l := lines[0];
      assert OneLine(l);
      assert s == l + ("\r\n" + CrLfLines(lines[1..]));
      FirstBreak(s, |l| + 1);
      assert s[..|l| + 1][..|l|] == l;
      assert s[|l| + 2..] == CrLfLines(lines[1..]);
      LinesOfCrLf(lines[1..]);
    }
  }

  lemma FirstBreak(s: string, n: nat)
    requires n < |s| && s[n] == '\n' && forall i :: 0 <= i < n ==> s[i] != '\n'
    ensures LineLength(s) == n
  {
  }

  /** A last line without a break is a line like the others. */
  lemma {:induction false} LastLineNeedsNoBreak(lines: seq<string>, last: string)
    requires last != "" && OneLine(last) && forall i :: 0 <= i < |lines| ==> OneLine(lines[i])
    ensures LinesOf(Unlines(lines) + last) == lines + [last]
  {
    if |lines| == 0 {
      UnbrokenLine(last);
      assert Unlines(lines) + last == last && lines + [last] == [last];
    } else {
      LastLineNeedsNoBreak(lines[1..], last);
      FirstOfUnlines(lines, last);
      OneMoreLine(lines[0], Unlines(lines[1..]) + last, Unlines(lines) + last, lines[1..] + [last], lines + [last]);
    }
  }

  lemma FirstOfUnlines(lines: seq<string>, last: string)
    requires |lines| > 0
    ensures Unlines(lines) + last == lines[0] + "\n" + (Unlines(lines[1..]) + last)
  {
    var first, rest := lines[0] + "\n", Unlines(lines[1..]);
    assert Unlines(lines) == first + rest;
    assert first + rest + last == first + (rest + last);
  }

  lemma OneMoreLine(l: string, rest: string, whole: string, others: seq<string>, lines: seq<string>)
    requires OneLine(l) && whole == l + "\n" + rest && LinesOf(rest) == others && lines == [l] + others
    ensures LinesOf(whole) == lines
  {
    LinesOfFirst(l, rest);
  }

  lemma UnbrokenLine(s: string)
    requires s != "" && OneLine(s)
    ensures LinesOf(s) == [s]
  {
    assert LineLength(s) == |s|;
    assert s[..|s|] == s;
  }

  lemma LinesOfFirst(l: string, rest: string)
    requires OneLine(l)
    ensures LinesOf(l + "\n" + rest) == [l] + LinesOf(rest)
  {
    var s := l + "\n" + rest;
    FirstBreak(s, |l|);
    assert s[..|l|] == l && s[|l| + 1..] == rest;
  }

  // ---- trimming ----

  /** Unicode `White_Space`. */
  predicate IsWhitespace(c: char) {
    || 0x09 as char <= c <= 0x0D as char || c == ' ' || c == 0x85 as char || c == 0xA0 as char
    || c == 0x1680 as char || 0x2000 as char <= c <= 0x200A as char || c == 0x2028 as char || c == 0x2029 as char
    || c == 0x202F as char || c == 0x205F as char || c == 0x3000 as char
  }

  /** The 25 characters Unicode lists. */
  lemma WhitespaceIs(c: char)
    ensures IsWhitespace(c) <==>
              c as int in {9, 10, 11, 12, 13, 32, 133, 160, 5760, 8192, 8193, 8194, 8195, 8196, 8197, 8198, 8199, 8200,
                           8201, 8202, 8232, 8233, 8239, 8287, 12288}
  {
  }

  function TrimStart(s: string): string {
    if |s| > 0 && IsWhitespace(s[0]) then TrimStart(s[1..]) else s
  }

  function TrimEnd(s: string): (r: string)
    ensures r <= s
  {
    if |s| > 0 && IsWhitespace(s[|s| - 1]) then TrimEnd(s[..|s| - 1]) else s
  }

  function Trim(s: string): string {
    TrimEnd(TrimStart(s))
  }

  lemma {:induction false} TrimEndStopsAt(a: string, b: string)
    requires |a| > 0 && !IsWhitespace(a[|a| - 1])
    ensures TrimEnd(a + b) == a + TrimEnd(b)
    decreases |b|
  {
    if |b| == 0 {
      assert a + b == a;
    } else if IsWhitespace(b[|b| - 1]) {
      assert (a + b)[..|a + b| - 1] == a + b[..|b| - 1];
      TrimEndStopsAt(a, b[..|b| - 1]);
    }
  }

  // ---- the option file ----

  datatype Line =
    | Comment(text: string)
    | Section(name: string)
    | Flag(name: string)
    | Setting(key: string, value: string)
    | IncludeDir(dir: string)
    | Blank

  function Render(line: Line): string {
    match line
    case Comment(text) => "#" + text
    case Section(name) => "[" + name + "]"
    case Flag(name) => name
    case Setting(key, value) => key + "=" + value
    case IncludeDir(dir) => "!includedir " + dir
    case Blank => ""
  }

  function StripPrefix(s: string, prefix: string): Option<string> {
    if prefix <= s then Some(s[|prefix|..]) else None
  }

  /** What one line of the file says about `key`. */
  function LineDirective(line: string, key: string): Option<string> {
    var l := Trim(line);
    if |l| > 0 && l[0] == '#' then None
    else
      match StripPrefix(l, key)
      case None => None
      case Some(rest) => StripPrefix(rest, "=")
  }

  /** A comment says nothing about any key, however it is indented, and white space around a line changes nothing. */
  lemma {:induction false} CommentsAndIndents(pad: string, line: string, key: string)
    requires forall i :: 0 <= i < |pad| ==> IsWhitespace(pad[i])
    ensures LineDirective(pad + line, key) == LineDirective(line, key)
    ensures LineDirective(pad + ("#" + line), key).None?
  {
    if |pad| == 0 {
      assert pad + line == line && pad + ("#" + line) == "#" + line;
      assert TrimStart("#" + line) == "#" + line;
      TrimEndStopsAt("#", line);
    } else {
      assert (pad + line)[1..] == pad[1..] + line;
      assert (pad + ("#" + line))[1..] == pad[1..] + ("#" + line);
      CommentsAndIndents(pad[1..], line, key);
    }
  }

  function FindDirective(lines: seq<string>, key: string): Option<string> {
    if |lines| == 0 then None
    else if LineDirective(lines[0], key).Some? then LineDirective(lines[0], key)
    else FindDirective(lines[1..], key)
  }

  /** The reader: the first line that sets `key`. */
  function Directive(rendered: string, key: string): Option<string> {
    FindDirective(LinesOf(rendered), key)
  }

  predicate NameChar(c: char) {
    'a' <= c <= 'z' || '0' <= c <= '9' || c == '-' || c == '_'
  }

  /** Option names: what keys, flags and sections are made of. */
  ghost predicate Name(s: string) {
    |s| > 0 && forall i :: 0 <= i < |s| ==> NameChar(s[i])
  }

  ghost predicate LineOk(line: Line) {
    match line
    case Comment(text) => OneLine(text)
    case Section(name) => Name(name)
    case Flag(name) => Name(name)
    case Setting(key, value) => Name(key) && OneLine(value)
    case IncludeDir(dir) => OneLine(dir)
    case Blank => true
  }

  lemma RenderIsOneLine(line: Line)
    requires LineOk(line)
    ensures OneLine(Render(line))
  {
  }

  /** A setting line gives its value, without trailing white space, to its own key; no other line gives anything. */
  lemma LineDirectiveIs(line: Line, key: string)
    requires LineOk(line) && Name(key)
    ensures LineDirective(Render(line), key) ==
            if line.Setting? && line.key == key then Some(TrimEnd(line.value)) else None
  {
    match line
    case Comment(text) => TrimEndStopsAt("#", text);
    case Section(name) => SectionDirective(name, key);
    case Flag(name) => FlagDirective(name, key);
    case Setting(k, value) => SettingDirectiveIs(k, value, key);
    case IncludeDir(dir) => IncludeDirective(dir, key);
    case Blank =>
  }

  lemma SectionDirective(name: string, key: string)
    requires Name(key)
    ensures LineDirective("[" + name + "]", key).None?
  {
    var s := "[" + name + "]";
    TrimEndStopsAt(s, "");
    assert s + "" == s && s[0] == '[' && NameChar(key[0]);
  }

  lemma FlagDirective(name: string, key: string)
    requires Name(name) && Name(key)
    ensures LineDirective(name, key).None?
  {
    assert NameChar(name[|name| - 1]) && NameChar(name[0]);
    TrimEndStopsAt(name, "");
    assert name + "" == name;
    if key <= name && |key| < |name| {
      assert NameChar(name[|key|]);
    }
  }

  lemma IncludeDirective(dir: string, key: string)
    requires Name(key)
    ensures LineDirective("!includedir " + dir, key).None?
  {
    var head := "!includedir";
    TrimEndStopsAt(head, " " + dir);
    assert head + (" " + dir) == "!includedir " + dir;
    assert head[0] == '!' && NameChar(key[0]);
  }

  lemma LongerNameNeverMatches(k: string, value: string, key: string)
    requires Name(key)
    ensures |key| > |k| ==> !(key <= k + "=" + value)
  {
    if |key| > |k| {
      assert NameChar(key[|k|]) && (k + "=" + value)[|k|] == '=';
    }
  }

  /** Taking a key and then "=" off a setting line works for its own key only. */
  lemma KeyStrips(k: string, value: string, key: string)
    requires Name(k) && Name(key)
    ensures key <= k + "=" + value ==>
              (StripPrefix((k + "=" + value)[|key|..], "=") == if k == key then Some(value) else None)
    ensures k == key ==> key <= k + "=" + value
  {
    var l := k + "=" + value;
    if key <= l {
      assert key == l[..|key|];
      if |key| < |k| {
        assert l[|key|] == k[|key|] && NameChar(k[|key|]);
        assert l[|key|..][0] != '=';
      } else {
        LongerNameNeverMatches(k, value, key);
        assert key == k;
        assert l[|key|..] == "=" + value;
      }
    }
  }

  lemma SettingTrims(k: string, value: string)
    requires Name(k)
    ensures Trim(k + "=" + value) == k + "=" + TrimEnd(value)
  {
    var s := k + "=" + value;
    assert NameChar(k[0]) && s[0] == k[0];
    assert TrimStart(s) == s;
    TrimEndStopsAt(k + "=", value);
  }

  lemma SettingDirectiveIs(k: string, value: string, key: string)
    requires Name(k) && Name(key)
    ensures LineDirective(k + "=" + value, key) == if k == key then Some(TrimEnd(value)) else None
  {
    SettingTrims(k, value);
    KeyStrips(k, TrimEnd(value), key);
    assert NameChar(k[0]) && (k + "=" + TrimEnd(value))[0] == k[0];
  }

  function Rendered(lines: seq<Line>): seq<string> {
    if |lines| == 0 then [] else [Render(lines[0])] + Rendered(lines[1..])
  }

  function FirstSetting(lines: seq<Line>, key: string): Option<string> {
    if |lines| == 0 then None
    else if lines[0].Setting? && lines[0].key == key then Some(TrimEnd(lines[0].value))
    else FirstSetting(lines[1..], key)
  }

  lemma {:induction false} RenderedLines(lines: seq<Line>)
    requires forall i :: 0 <= i < |lines| ==> LineOk(lines[i])
    ensures |Rendered(lines)| == |lines|
    ensures forall i :: 0 <= i < |lines| ==> OneLine(Rendered(lines)[i])
  {
    if |lines| > 0 {
      RenderIsOneLine(lines[0]);
      RenderedLines(lines[1..]);
    }
  }

  lemma {:induction false} FindIsFirstSetting(lines: seq<Line>, key: string)
    requires Name(key) && forall i :: 0 <= i < |lines| ==> LineOk(lines[i])
    ensures FindDirective(Rendered(lines), key) == FirstSetting(lines, key)
  {
    if |lines| > 0 {
      LineDirectiveIs(lines[0], key);
      FindIsFirstSetting(lines[1..], key);
    }
  }

  /** Reading a key from any well-formed file finds the first line that sets it. */
  lemma DirectiveIsFirstSetting(lines: seq<Line>, key: string)
    requires Name(key) && forall i :: 0 <= i < |lines| ==> LineOk(lines[i])
    ensures Directive(Unlines(Rendered(lines)), key) == FirstSetting(lines, key)
    ensures |LinesOf(Unlines(Rendered(lines)))| == |lines|
  {
    RenderedLines(lines);
    LinesOfUnlines(Rendered(lines));
    FindIsFirstSetting(lines, key);
  }

  // ---- my.cnf ----

  datatype MysqlCtx = MysqlCtx(
    datadir: OsPath, socket: OsPath, pidFile: OsPath, customConfd: OsPath,
    basedir: OsPath, pluginDir: OsPath, characterSetsDir: OsPath, lcMessagesDir: OsPath)

  /** The converted paths. */
  datatype Values = Values(
    datadir: string, socket: string, pidFile: string, customConfd: string,
    basedir: string, pluginDir: string, characterSetsDir: string, lcMessagesDir: string)

  const HEADER_1 := " GENERATED by OpenVHost" + " — DO NOT EDIT." + " Regenerated idempotently;" + " your edits"
  const HEADER_2 := " will be lost." + " To customize," + " add files under:"
  const RULE := " " + Dashes(75)

  function Dashes(n: nat): string {
    if n == 0 then "" else "-" + Dashes(n - 1)
  }

  function HeaderLines(v: Values): seq<Line> {
    [Comment(RULE), Comment(HEADER_1), Comment(HEADER_2), Comment("   " + v.customConfd), Comment(RULE)]
  }

  function InstallLines(v: Values): seq<Line> {
    [Section("mysqld"),
     Setting("basedir", v.basedir),
     Setting("plugin_dir", v.pluginDir),
     Setting("character-sets-dir", v.characterSetsDir),
     Setting("lc_messages_dir", v.lcMessagesDir)]
  }

  function StateLines(v: Values): seq<Line> {
    [Setting("datadir", v.datadir), Setting("socket", v.socket), Setting("pid-file", v.pidFile)]
  }

  function NetworkLines(v: Values): seq<Line> {
    [Setting("port", "3306"),
     Setting("bind-address", "127.0.0.1"),
     Flag("skip-name-resolve"),
     Setting("mysqlx", "OFF"),
     Setting("log-error-verbosity", "2"),
     IncludeDir(v.customConfd),
     Blank]
  }

  function ClientLines(v: Values): seq<Line> {
    [Section("client"), Setting("socket", v.socket), Setting("port", "3306")]
  }

  /** The template, line by line. */
  function MyCnfLines(v: Values): (lines: seq<Line>)
    ensures |lines| == 23
  {
    HeaderLines(v) + InstallLines(v) + StateLines(v) + NetworkLines(v) + ClientLines(v)
  }

  /** The eight paths, each through `ToConfigPath`, in the order the generator converts them. */
  function Converted(ctx: MysqlCtx): Result<Values, ConfError> {
    match ToConfigPath(ctx.datadir) case Err(e) => Err(e) case Ok(datadir) =>
    match ToConfigPath(ctx.socket) case Err(e) => Err(e) case Ok(socket) =>
    match ToConfigPath(ctx.pidFile) case Err(e) => Err(e) case Ok(pidFile) =>
    match ToConfigPath(ctx.customConfd) case Err(e) => Err(e) case Ok(customConfd) =>
    match ToConfigPath(ctx.basedir) case Err(e) => Err(e) case Ok(basedir) =>
    match ToConfigPath(ctx.pluginDir) case Err(e) => Err(e) case Ok(pluginDir) =>
    match ToConfigPath(ctx.characterSetsDir) case Err(e) => Err(e) case Ok(characterSetsDir) =>
    match ToConfigPath(ctx.lcMessagesDir) case Err(e) => Err(e) case Ok(lcMessagesDir) =>
      Ok(Values(datadir, socket, pidFile, customConfd, basedir, pluginDir, characterSetsDir, lcMessagesDir))
  }

  function GenerateMyCnf(ctx: MysqlCtx): Result<string, ConfError> {
    match Converted(ctx)
    case Err(e) => Err(e)
    case Ok(v) => Ok(Unlines(Rendered(MyCnfLines(v))))
  }

  lemma {:induction false} DashesAreOneLine(n: nat)
    ensures OneLine(Dashes(n))
  {
    if n > 0 {
      DashesAreOneLine(n - 1);
    }
  }

  lemma CleanIsOneLine(s: string)
    requires Clean(s)
    ensures OneLine(s)
  {
    forall i | 0 <= i < |s| ensures s[i] != '\n' && s[i] != '\r' {
      assert !BadChar(s[i]);
    }
  }

  lemma OneLineConcat(a: string, b: string)
    requires OneLine(a) && OneLine(b)
    ensures OneLine(a + b)
  {
  }

  lemma CommentsAreOneLine()
    ensures OneLine(HEADER_1) && OneLine(HEADER_2) && OneLine(RULE)
  {
    OneLineConcat(" GENERATED by OpenVHost", " — DO NOT EDIT.");
    OneLineConcat(" GENERATED by OpenVHost" + " — DO NOT EDIT.", " Regenerated idempotently;");
    OneLineConcat(" GENERATED by OpenVHost" + " — DO NOT EDIT." + " Regenerated idempotently;", " your edits");
    OneLineConcat(" will be lost.", " To customize,");
    OneLineConcat(" will be lost." + " To customize,", " add files under:");
    DashesAreOneLine(75);
    OneLineConcat(" ", Dashes(75));
  }

  ghost predicate AllClean(v: Values) {
    && Clean(v.datadir) && Clean(v.socket) && Clean(v.pidFile) && Clean(v.customConfd)
    && Clean(v.basedir) && Clean(v.pluginDir) && Clean(v.characterSetsDir) && Clean(v.lcMessagesDir)
  }

  ghost predicate AllOk(lines: seq<Line>) {
    forall i :: 0 <= i < |lines| ==> LineOk(lines[i])
  }

  lemma HeaderOk(v: Values)
    requires AllClean(v)
    ensures AllOk(HeaderLines(v))
  {
    CommentsAreOneLine();
    CleanIsOneLine(v.customConfd);
    OneLineConcat("   ", v.customConfd);
  }

  lemma InstallOk(v: Values)
    requires AllClean(v)
    ensures AllOk(InstallLines(v))
  {
    assert Name("mysqld") && Name("basedir") && Name("plugin_dir");
    assert Name("character-sets-dir") && Name("lc_messages_dir");
    CleanIsOneLine(v.basedir); CleanIsOneLine(v.pluginDir);
    CleanIsOneLine(v.characterSetsDir); CleanIsOneLine(v.lcMessagesDir);
  }

  lemma StateOk(v: Values)
    requires AllClean(v)
    ensures AllOk(StateLines(v))
  {
    assert Name("datadir") && Name("socket") && Name("pid-file");
    CleanIsOneLine(v.datadir); CleanIsOneLine(v.socket); CleanIsOneLine(v.pidFile);
  }

  lemma NetworkOk(v: Values)
    requires AllClean(v)
    ensures AllOk(NetworkLines(v))
  {
    assert Name("port") && Name("bind-address") && Name("skip-name-resolve");
    assert Name("mysqlx") && Name("log-error-verbosity");
    assert OneLine("3306") && OneLine("127.0.0.1") && OneLine("OFF") && OneLine("2");
    CleanIsOneLine(v.customConfd);
  }

  lemma ClientOk(v: Values)
    requires AllClean(v)
    ensures AllOk(ClientLines(v))
  {
    assert Name("client") && Name("socket") && Name("port") && OneLine("3306");
    CleanIsOneLine(v.socket);
  }

  lemma AllOkConcat(a: seq<Line>, b: seq<Line>)
    requires AllOk(a) && AllOk(b)
    ensures AllOk(a + b)
  {
  }

  lemma MyCnfLinesOk(v: Values)
    requires AllClean(v)
    ensures AllOk(MyCnfLines(v))
  {
    HeaderOk(v); InstallOk(v); StateOk(v); NetworkOk(v); ClientOk(v);
    AllOkConcat(HeaderLines(v), InstallLines(v));
    AllOkConcat(HeaderLines(v) + InstallLines(v), StateLines(v));
    AllOkConcat(HeaderLines(v) + InstallLines(v) + StateLines(v), NetworkLines(v));
    AllOkConcat(HeaderLines(v) + InstallLines(v) + StateLines(v) + NetworkLines(v), ClientLines(v));
  }

  lemma {:induction false} FirstSettingAt(lines: seq<Line>, key: string, i: nat)
    requires i < |lines| && lines[i].Setting? && lines[i].key == key
    requires forall j :: 0 <= j < i && lines[j].Setting? ==> lines[j].key != key
    ensures FirstSetting(lines, key) == Some(TrimEnd(lines[i].value))
  {
    if i > 0 {
      FirstSettingAt(lines[1..], key, i - 1);
    }
  }

  /** Length and first character of the key on line `i` of the file. */
  function KeyShape(i: nat): (nat, char) {
    match i
    case 6 => (7, 'b') case 7 => (10, 'p') case 8 => (18, 'c') case 9 => (15, 'l')
    case 10 => (7, 'd') case 11 => (6, 's') case 12 => (8, 'p')
    case 13 => (4, 'p') case 14 => (12, 'b') case 16 => (6, 'm') case 17 => (19, 'l')
    case _ => (0, ' ')
  }

  predicate HasShape(line: Line, i: nat) {
    line.Setting? && |line.key| > 0 && (|line.key|, line.key[0]) == KeyShape(i)
  }

  predicate SettingAt(i: nat) {
    6 <= i <= 17 && i != 15
  }

  /** The first 18 lines hold settings exactly where the template has them, each of its own shape. */
  predicate Shaped(lines: seq<Line>) {
    |lines| == 23 && forall i :: 0 <= i < 18 ==> if SettingAt(i) then HasShape(lines[i], i) else !lines[i].Setting?
  }

  lemma GroupsShaped(v: Values)
    ensures forall k :: 1 <= k < 5 ==> HasShape(InstallLines(v)[k], 5 + k)
    ensures forall k :: 0 <= k < 3 ==> HasShape(StateLines(v)[k], 10 + k)
    ensures forall k :: 0 <= k < 5 && k != 2 ==> HasShape(NetworkLines(v)[k], 13 + k)
  {
  }

  lemma MyCnfShaped(v: Values)
    ensures Shaped(MyCnfLines(v))
  {
    GroupsShaped(v);
    var lines := MyCnfLines(v);
    forall i | 0 <= i < 18 ensures if SettingAt(i) then HasShape(lines[i], i) else !lines[i].Setting? {
      if i < 5 {
        assert lines[i] == HeaderLines(v)[i];
      } else if i < 10 {
        assert lines[i] == InstallLines(v)[i - 5];
      } else if i < 13 {
        assert lines[i] == StateLines(v)[i - 10];
      } else {
        assert lines[i] == NetworkLines(v)[i - 13];
      }
    }
  }

  /** Reading the key of line `i` from the rendered file gives line `i`'s value, for each of the first 18 lines. */
  lemma ReadsLine(lines: seq<Line>, i: nat, key: string, value: string)
    requires AllOk(lines) && Shaped(lines) && SettingAt(i) && lines[i] == Setting(key, value)
    ensures Directive(Unlines(Rendered(lines)), key) == Some(TrimEnd(value))
  {
    assert LineOk(lines[i]) && HasShape(lines[i], i);
    forall j | 0 <= j < i && lines[j].Setting? ensures lines[j].key != lines[i].key {
      assert HasShape(lines[j], j);
    }
    DirectiveIsFirstSetting(lines, lines[i].key);
    FirstSettingAt(lines, lines[i].key, i);
  }

  /** A value reads back exactly when it does not end in white space. */
  lemma ExactIffNoTrailingSpace(value: string)
    ensures TrimEnd(value) == value <==> (|value| == 0 || !IsWhitespace(value[|value| - 1]))
  {
    if |value| > 0 && IsWhitespace(value[|value| - 1]) {
      assert |TrimEnd(value)| <= |value| - 1;
    }
  }

  /** The paths in the order in which they are looked at. */
  function PathsOf(ctx: MysqlCtx): seq<OsPath> {
    [ctx.datadir, ctx.socket, ctx.pidFile, ctx.customConfd, ctx.basedir, ctx.pluginDir, ctx.characterSetsDir,
     ctx.lcMessagesDir]
  }

  /** Path `k` is the first that does not convert, and `e` says why. */
  ghost predicate FailsAt(ctx: MysqlCtx, k: nat, e: ConfError) {
    k < 8 && ToConfigPath(PathsOf(ctx)[k]) == Err(e) && forall j :: 0 <= j < k ==> ToConfigPath(PathsOf(ctx)[j]).Ok?
  }

  lemma ConversionFails(ctx: MysqlCtx)
    requires Converted(ctx).Err?
    ensures exists k: nat :: FailsAt(ctx, k, Converted(ctx).error)
  {
    var paths := PathsOf(ctx);
    var k: nat :=
      if ToConfigPath(ctx.datadir).Err? then 0
      else if ToConfigPath(ctx.socket).Err? then 1
      else if ToConfigPath(ctx.pidFile).Err? then 2
      else if ToConfigPath(ctx.customConfd).Err? then 3
      else if ToConfigPath(ctx.basedir).Err? then 4
      else if ToConfigPath(ctx.pluginDir).Err? then 5
      else if ToConfigPath(ctx.characterSetsDir).Err? then 6
      else 7;
    assert FailsAt(ctx, k, Converted(ctx).error);
  }

  /** Conversion is all or nothing, gives the converted fields, and fails with the error of the first field refused. */
  lemma ConvertedIff(ctx: MysqlCtx)
    ensures Converted(ctx).Ok? <==>
              && ToConfigPath(ctx.datadir).Ok? && ToConfigPath(ctx.socket).Ok? && ToConfigPath(ctx.pidFile).Ok?
              && ToConfigPath(ctx.customConfd).Ok? && ToConfigPath(ctx.basedir).Ok? && ToConfigPath(ctx.pluginDir).Ok?
              && ToConfigPath(ctx.characterSetsDir).Ok? && ToConfigPath(ctx.lcMessagesDir).Ok?
    ensures Converted(ctx).Ok? ==>
              var v := Converted(ctx).value;
              && AllClean(v)
              && ToConfigPath(ctx.datadir) == Ok(v.datadir) && ToConfigPath(ctx.socket) == Ok(v.socket)
              && ToConfigPath(ctx.pidFile) == Ok(v.pidFile) && ToConfigPath(ctx.customConfd) == Ok(v.customConfd)
              && ToConfigPath(ctx.basedir) == Ok(v.basedir) && ToConfigPath(ctx.pluginDir) == Ok(v.pluginDir)
              && ToConfigPath(ctx.characterSetsDir) == Ok(v.characterSetsDir)
              && ToConfigPath(ctx.lcMessagesDir) == Ok(v.lcMessagesDir)
    ensures Converted(ctx).Err? ==> exists k: nat :: FailsAt(ctx, k, Converted(ctx).error)
  {
    if Converted(ctx).Err? {
      ConversionFails(ctx);
    }
    ToConfigPathIdempotent(ctx.datadir); ToConfigPathIdempotent(ctx.socket);
    ToConfigPathIdempotent(ctx.pidFile); ToConfigPathIdempotent(ctx.customConfd);
    ToConfigPathIdempotent(ctx.basedir); ToConfigPathIdempotent(ctx.pluginDir);
    ToConfigPathIdempotent(ctx.characterSetsDir); ToConfigPathIdempotent(ctx.lcMessagesDir);
  }

  /** What the reader finds under `key`, for a path that converts. */
  ghost predicate ReadsBack(rendered: string, key: string, path: OsPath) {
    ToConfigPath(path).Ok? && Directive(rendered, key) == Some(TrimEnd(ToConfigPath(path).value))
  }

  /**
   * A rendered file has 23 lines for every context, and every path key reads back as the converted path of the field
   * it came from, up to trailing white space.
   */
  lemma MyCnfReadsBack(ctx: MysqlCtx)
    requires GenerateMyCnf(ctx).Ok?
    ensures var text := GenerateMyCnf(ctx).value;
            && |LinesOf(text)| == 23
            && ReadsBack(text, "basedir", ctx.basedir)
            && ReadsBack(text, "plugin_dir", ctx.pluginDir)
            && ReadsBack(text, "character-sets-dir", ctx.characterSetsDir)
            && ReadsBack(text, "lc_messages_dir", ctx.lcMessagesDir)
            && ReadsBack(text, "datadir", ctx.datadir)
            && ReadsBack(text, "socket", ctx.socket)
            && ReadsBack(text, "pid-file", ctx.pidFile)
  {
    ConvertedIff(ctx);
    var v := Converted(ctx).value;
    var lines := MyCnfLines(v);
    MyCnfLinesOk(v);
    MyCnfShaped(v);
    PathLinesAt(v);
    ReadsLine(lines, 6, "basedir", v.basedir);
    ReadsLine(lines, 7, "plugin_dir", v.pluginDir);
    ReadsLine(lines, 8, "character-sets-dir", v.characterSetsDir);
    ReadsLine(lines, 9, "lc_messages_dir", v.lcMessagesDir);
    ReadsLine(lines, 10, "datadir", v.datadir);
    ReadsLine(lines, 11, "socket", v.socket);
    ReadsLine(lines, 12, "pid-file", v.pidFile);
    RenderedLines(lines);
    LinesOfUnlines(Rendered(lines));
  }

  /** The reader finds under `key` exactly the converted path. */
  ghost predicate ReadsExactly(rendered: string, key: string, path: OsPath) {
    ToConfigPath(path).Ok? && Directive(rendered, key) == Some(ToConfigPath(path).value)
  }

  predicate EndsInSpace(value: string) {
    |value| > 0 && IsWhitespace(value[|value| - 1])
  }

  lemma ExactlyIff(rendered: string, key: string, path: OsPath)
    requires ReadsBack(rendered, key, path)
    ensures ReadsExactly(rendered, key, path) <==> !EndsInSpace(ToConfigPath(path).value)
  {
    ExactIffNoTrailingSpace(ToConfigPath(path).value);
  }

  /** In the file of any accepted context, a path key reads back exactly if and only if its path ends in no white space. */
  lemma MyCnfExactlyIff(ctx: MysqlCtx)
    requires GenerateMyCnf(ctx).Ok?
    ensures Converted(ctx).Ok?
    ensures var text, v := GenerateMyCnf(ctx).value, Converted(ctx).value;
            && (ReadsExactly(text, "basedir", ctx.basedir) <==> !EndsInSpace(v.basedir))
            && (ReadsExactly(text, "plugin_dir", ctx.pluginDir) <==> !EndsInSpace(v.pluginDir))
            && (ReadsExactly(text, "character-sets-dir", ctx.characterSetsDir) <==> !EndsInSpace(v.characterSetsDir))
            && (ReadsExactly(text, "lc_messages_dir", ctx.lcMessagesDir) <==> !EndsInSpace(v.lcMessagesDir))
            && (ReadsExactly(text, "datadir", ctx.datadir) <==> !EndsInSpace(v.datadir))
            && (ReadsExactly(text, "socket", ctx.socket) <==> !EndsInSpace(v.socket))
            && (ReadsExactly(text, "pid-file", ctx.pidFile) <==> !EndsInSpace(v.pidFile))
  {
    ConvertedIff(ctx);
    MyCnfReadsBack(ctx);
    var text := GenerateMyCnf(ctx).value;
    ExactlyIff(text, "basedir", ctx.basedir);
    ExactlyIff(text, "plugin_dir", ctx.pluginDir);
    ExactlyIff(text, "character-sets-dir", ctx.characterSetsDir);
    ExactlyIff(text, "lc_messages_dir", ctx.lcMessagesDir);
    ExactlyIff(text, "datadir", ctx.datadir);
    ExactlyIff(text, "socket", ctx.socket);
    ExactlyIff(text, "pid-file", ctx.pidFile);
  }

  /** A context whose data directory ends in a space. */
  function SpacedCtx(): MysqlCtx {
    var x := Utf8("/x");
    MysqlCtx(Utf8("/d "), x, x, x, x, x, x, x)
  }

  lemma SpacedConverts()
    ensures ToConfigPath(Utf8("/d ")) == Ok("/d ") && ToConfigPath(Utf8("/x")) == Ok("/x")
  {
    assert Clean("/d ") && Clean("/x");
    ToConfigPathIdempotent(Utf8("/d "));
    ToConfigPathIdempotent(Utf8("/x"));
  }

  lemma SpacedTrims()
    ensures TrimEnd("/d ") == "/d" && EndsInSpace("/d ")
  {
    TrimEndStopsAt("/d", " ");
    assert "/d" + " " == "/d ";
  }

  lemma SpacedAccepted(ctx: MysqlCtx, other: OsPath)
    requires ctx == MysqlCtx(ctx.datadir, other, other, other, other, other, other, other)
    requires ToConfigPath(ctx.datadir).Ok? && ToConfigPath(other).Ok?
    ensures GenerateMyCnf(ctx).Ok?
    ensures Directive(GenerateMyCnf(ctx).value, "datadir") == Some(TrimEnd(ToConfigPath(ctx.datadir).value))
    ensures ReadsExactly(GenerateMyCnf(ctx).value, "datadir", ctx.datadir)
            <==> !EndsInSpace(ToConfigPath(ctx.datadir).value)
  {
    ConvertedIff(ctx);
    MyCnfReadsBack(ctx);
    ExactlyIff(GenerateMyCnf(ctx).value, "datadir", ctx.datadir);
  }

  /** It is accepted, and its data directory reads back as another one. */
  lemma TrailingSpaceIsLost()
    ensures GenerateMyCnf(SpacedCtx()).Ok?
    ensures Directive(GenerateMyCnf(SpacedCtx()).value, "datadir") == Some("/d")
    ensures !ReadsExactly(GenerateMyCnf(SpacedCtx()).value, "datadir", SpacedCtx().datadir)
  {
    SpacedConverts();
    SpacedTrims();
    SpacedAccepted(SpacedCtx(), Utf8("/x"));
  }

  lemma PathLinesAt(v: Values)
    ensures var lines := MyCnfLines(v);
            && lines[6] == Setting("basedir", v.basedir)
            && lines[7] == Setting("plugin_dir", v.pluginDir)
            && lines[8] == Setting("character-sets-dir", v.characterSetsDir)
            && lines[9] == Setting("lc_messages_dir", v.lcMessagesDir)
            && lines[10] == Setting("datadir", v.datadir)
            && lines[11] == Setting("socket", v.socket)
            && lines[12] == Setting("pid-file", v.pidFile)
  {
  }

  /** The fixed keys read back as they are, in every rendered file. */
  lemma MyCnfFixedKeys(ctx: MysqlCtx)
    requires GenerateMyCnf(ctx).Ok?
    ensures var text := GenerateMyCnf(ctx).value;
            && Directive(text, "port") == Some("3306")
            && Directive(text, "bind-address") == Some("127.0.0.1")
            && Directive(text, "mysqlx") == Some("OFF")
            && Directive(text, "log-error-verbosity") == Some("2")
  {
    ConvertedIff(ctx);
    var v := Converted(ctx).value;
    var lines := MyCnfLines(v);
    MyCnfLinesOk(v);
    MyCnfShaped(v);
    FixedLinesAt(v);
    ReadsLine(lines, 13, "port", "3306");
    ReadsLine(lines, 14, "bind-address", "127.0.0.1");
    ReadsLine(lines, 16, "mysqlx", "OFF");
    ReadsLine(lines, 17, "log-error-verbosity", "2");
    FixedValuesExact();
  }

  lemma FixedLinesAt(v: Values)
    ensures var lines := MyCnfLines(v);
            && lines[13] == Setting("port", "3306")
            && lines[14] == Setting("bind-address", "127.0.0.1")
            && lines[16] == Setting("mysqlx", "OFF")
            && lines[17] == Setting("log-error-verbosity", "2")
  {
  }

  lemma FixedValuesExact()
    ensures TrimEnd("3306") == "3306" && TrimEnd("127.0.0.1") == "127.0.0.1"
    ensures TrimEnd("OFF") == "OFF" && TrimEnd("2") == "2"
  {
    ExactIffNoTrailingSpace("3306");
    ExactIffNoTrailingSpace("127.0.0.1");
    ExactIffNoTrailingSpace("OFF");
    ExactIffNoTrailingSpace("2");
  }

  lemma {:induction false} RenderedAt(lines: seq<Line>, i: nat)
    requires i < |lines|
    ensures |Rendered(lines)| == |lines| && Rendered(lines)[i] == Render(lines[i])
  {
    if |lines| > 1 {
      RenderedAt(lines[1..], if i > 0 then i - 1 else 0);
    }
  }

  /** The include line and the client's socket line carry the same converted paths as the header and the server. */
  lemma MyCnfIncludesConfd(ctx: MysqlCtx)
    requires GenerateMyCnf(ctx).Ok?
    ensures var text := LinesOf(GenerateMyCnf(ctx).value);
            && |text| == 23 && ToConfigPath(ctx.customConfd).Ok? && ToConfigPath(ctx.socket).Ok?
            && text[3] == "#" + ("   " + ToConfigPath(ctx.customConfd).value)
            && text[18] == "!includedir " + ToConfigPath(ctx.customConfd).value
            && text[21] == "socket" + "=" + ToConfigPath(ctx.socket).value
            && text[5] == "[" + "mysqld" + "]" && text[15] == "skip-name-resolve"
            && text[20] == "[" + "client" + "]" && text[22] == "port" + "=" + "3306"
            && forall i :: 0 <= i < 23 && i !in {5, 20} ==> !("[" <= text[i])
  {
    ConvertedIff(ctx);
    var v := Converted(ctx).value;
    var lines := MyCnfLines(v);
    MyCnfLinesOk(v);
    RenderedLines(lines);
    LinesOfUnlines(Rendered(lines));
    RenderedAt(lines, 3);
    RenderedAt(lines, 18);
    RenderedAt(lines, 21);
    OtherPathLinesAt(v);
    SectionLinesAt(v);
    RenderedAt(lines, 5);
    RenderedAt(lines, 15);
    RenderedAt(lines, 20);
    RenderedAt(lines, 22);
    forall i | 0 <= i < 23 && i !in {5, 20} ensures !("[" <= Render(lines[i])) && Rendered(lines)[i] == Render(lines[i]) {
      RenderedAt(lines, i);
      NoBracket(lines[i]);
    }
  }

  lemma NoBracket(line: Line)
    requires LineOk(line) && !line.Section?
    ensures !("[" <= Render(line))
  {
    match line
    case Comment(text) => assert Render(line)[0] == '#';
    case Section(_) =>
    case Flag(name) => assert NameChar(name[0]);
    case Setting(key, _) => assert NameChar(key[0]) && Render(line)[0] == key[0];
    case IncludeDir(_) => assert Render(line)[0] == '!';
    case Blank =>
  }

  /** There are two sections, and the lines from the first to the second are the server's. */
  lemma SectionLinesAt(v: Values)
    ensures var lines := MyCnfLines(v);
            && lines[5] == Section("mysqld") && lines[20] == Section("client")
            && lines[15] == Flag("skip-name-resolve") && lines[22] == Setting("port", "3306")
            && forall i :: 0 <= i < 23 && i !in {5, 20} ==> !lines[i].Section?
  {
    var lines := MyCnfLines(v);
    assert lines[5] == InstallLines(v)[0] && lines[20] == ClientLines(v)[0] && lines[22] == ClientLines(v)[2];
    assert lines[15] == NetworkLines(v)[2];
    GroupsHaveNoSections(v);
    forall i | 0 <= i < 23 && i !in {5, 20} ensures !lines[i].Section? {
      if i < 5 {
        assert lines[i] == HeaderLines(v)[i];
      } else if i < 10 {
        assert lines[i] == InstallLines(v)[i - 5];
      } else if i < 13 {
        assert lines[i] == StateLines(v)[i - 10];
      } else if i < 20 {
        assert lines[i] == NetworkLines(v)[i - 13];
      } else {
        assert lines[i] == ClientLines(v)[i - 20];
      }
    }
  }

  lemma GroupsHaveNoSections(v: Values)
    ensures forall k :: 0 <= k < 5 ==> !HeaderLines(v)[k].Section?
    ensures forall k :: 1 <= k < 5 ==> !InstallLines(v)[k].Section?
    ensures forall k :: 0 <= k < 3 ==> !StateLines(v)[k].Section?
    ensures forall k :: 0 <= k < 7 ==> !NetworkLines(v)[k].Section?
    ensures forall k :: 1 <= k < 3 ==> !ClientLines(v)[k].Section?
  {
  }

  lemma OtherPathLinesAt(v: Values)
    ensures var lines := MyCnfLines(v);
            && lines[3] == Comment("   " + v.customConfd)
            && lines[18] == IncludeDir(v.customConfd)
            && lines[21] == Setting("socket", v.socket)
  {
  }
}
