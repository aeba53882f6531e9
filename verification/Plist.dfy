/** internal/launchd/launchd.go: `RenderPlist` and a reader for what it prints. */
module Plist {
  import opened Text

  datatype InstallOptions = InstallOptions(
    jobLabel: string, binaryPath: string, configPath: string, statePath: string, workingDir: string,
    stdoutPath: string, stderrPath: string)

  datatype Logs = Logs(stdout: string, stderr: string)

  /** What the machine contributes: `filepath.Dir`, and the default log files when the home directory is known. */
  datatype Machine = Machine(dir: string -> string, logs: Option<Logs>)

  datatype PlistError = NoLabel | NoBinary | NoConfig | NoState | NoHome

  datatype Result<T> = Ok(value: T) | Error(error: PlistError)

  /** The seven values that go into the text. */
  datatype Fields = Fields(
    jobLabel: string, binary: string, config: string, state: string, workingDir: string, stdout: string, stderr: string)

  // ---------------------------------------------------------------- resolving the options

  /** The log paths. When standard output is defaulted and standard error is blank, the latter takes the
      default too, and is trimmed before a second look. */
  function ResolveLogs(o: InstallOptions, m: Machine): Option<Logs> {
    var stdout := Trim(o.stdoutPath);
    var stderr := Trim(o.stderrPath);
    if stdout == "" then
      var logs :- m.logs;
      var again := if stderr == "" then Trim(logs.stderr) else stderr;
      Some(Logs(logs.stdout, if again == "" then logs.stderr else again))
    else if stderr == "" then
      var logs :- m.logs;
      Some(Logs(stdout, logs.stderr))
    else Some(Logs(stdout, stderr))
  }

  function Resolve(o: InstallOptions, m: Machine): Result<Fields> {
    var jobLabel, binary, config, state := Trim(o.jobLabel), Trim(o.binaryPath), Trim(o.configPath), Trim(o.statePath);
    if jobLabel == "" then Error(NoLabel)
    else if binary == "" then Error(NoBinary)
    else if config == "" then Error(NoConfig)
    else if state == "" then Error(NoState)
    else
      var dir := Trim(o.workingDir);
      match ResolveLogs(o, m)
      case None => Error(NoHome)
      case Some(logs) =>
        Ok(Fields(jobLabel, binary, config, state, if dir == "" then m.dir(state) else dir, logs.stdout, logs.stderr))
  }

  // ---------------------------------------------------------------- printing

  function EscapeChar(c: char): string {
    if c == '&' then "&amp;"
    else if c == '<' then "&lt;"
    else if c == '>' then "&gt;"
    else if c == '"' then "&quot;"
    else if c == '\'' then "&apos;"
    else [c]
  }

  /** `xmlEscape`. */
  function Escape(s: string): string {
    if s == "" then "" else EscapeChar(s[0]) + Escape(s[1..])
  }

  datatype Tag = Key | Str

  /** The fixed markup in front of an element. */
  datatype Markup = Top | Next | OpenArray | NextItem | CloseArray | TrueLine

  const XML_1 := "<?xml version=\"1.0\" "
  const XML_2 := "encoding=\"UTF-8\"?>\n"
  const DOCTYPE_1 := "<!DOCTYPE plist PUBLIC "
  const DOCTYPE_2 := "\"-//Apple//DTD PLIST 1.0//EN\" "
  const DOCTYPE_3 := "\"http://www.apple.com/DTDs/"
  const DOCTYPE_4 := "PropertyList-1.0.dtd\">\n"
  const OPEN_DICT := "<plist version=\"1.0\">\n<dict>\n  "
  const BOTTOM := "\n</dict>\n</plist>\n"

  function MarkupText(m: Markup): string {
    match m
    case Top => XML_1 + XML_2 + DOCTYPE_1 + DOCTYPE_2 + DOCTYPE_3 + DOCTYPE_4 + OPEN_DICT
    case Next => "\n  "
    case OpenArray => "\n  <array>\n    "
    case NextItem => "\n    "
    case CloseArray => "\n  </array>\n  "
    case TrueLine => "\n  <true/>\n  "
  }

  function Open(t: Tag): string {
    match t case Key => "<key>" case Str => "<string>"
  }

  function Close(t: Tag): string {
    match t case Key => "</key>" case Str => "</string>"
  }

  function LeafText(tag: Tag, value: string): string {
    Open(tag) + Escape(value) + Close(tag)
  }

  /** One element and the markup in front of it. */
  datatype Row = Row(before: Markup, tag: Tag, value: string)

  function Render(rows: seq<Row>): string {
    if rows == [] then BOTTOM
    else MarkupText(rows[0].before) + (LeafText(rows[0].tag, rows[0].value) + Render(rows[1..]))
  }

  function Template(f: Fields): seq<Row> {
    [Row(Top, Key, "Label"), Row(Next, Str, f.jobLabel),
     Row(Next, Key, "ProgramArguments"), Row(OpenArray, Str, f.binary), Row(NextItem, Str, "run"),
     Row(NextItem, Str, "--config"), Row(NextItem, Str, f.config),
     Row(NextItem, Str, "--state"), Row(NextItem, Str, f.state),
     Row(CloseArray, Key, "RunAtLoad"), Row(TrueLine, Key, "KeepAlive"),
     Row(TrueLine, Key, "WorkingDirectory"), Row(Next, Str, f.workingDir),
     Row(Next, Key, "StandardOutPath"), Row(Next, Str, f.stdout),
     Row(Next, Key, "StandardErrorPath"), Row(Next, Str, f.stderr),
     Row(Next, Key, "ProcessType"), Row(Next, Str, "Background")]
  }

  /** `RenderPlist`. */
  function RenderPlist(o: InstallOptions, m: Machine): Result<string> {
    match Resolve(o, m)
    case Error(e) => Error(e)
    case Ok(f) => Ok(Render(Template(f)))
  }

  // ---------------------------------------------------------------- reading

  /** The first character of character data and the length of its encoding: the five predefined entities
      of section 4.6 of XML 1.0; a bare `&` or `<` is an error (section 2.4). */
  function FirstChar(s: string): (r: Option<(char, nat)>)
    requires s != ""
    ensures r.Some? ==> 0 < r.value.1 <= |s|
  {
    if s[0] == '<' then None
    else if s[0] != '&' then Some((s[0], 1))
    else if "&amp;" <= s then Some(('&', 5))
    else if "&lt;" <= s then Some(('<', 4))
    else if "&gt;" <= s then Some(('>', 4))
    else if "&quot;" <= s then Some(('"', 6))
    else if "&apos;" <= s then Some(('\'', 6))
    else None
  }

  function Unescape(s: string): Option<string> {
    if s == "" then Some("")
    else
      var head :- FirstChar(s);
      var rest :- Unescape(s[head.1..]);
      Some([head.0] + rest)
  }

  /** The length of the character data at the front. */
  function DataLength(s: string): (n: nat)
    ensures n <= |s|
  {
    if s == "" || s[0] == '<' then 0 else 1 + DataLength(s[1..])
  }

  /** The element of one tag at the front of the text: its decoded content and what follows. */
  function ReadLeaf(t: Tag, s: string): (r: Option<(string, string)>)
    requires Open(t) <= s
    ensures r.Some? ==> |r.value.1| < |s|
  {
    var body := s[|Open(t)|..];
    var n := DataLength(body);
    var value :- Unescape(body[..n]);
    if Close(t) <= body[n..] then Some((value, body[n..][|Close(t)|..])) else None
  }

  /** Every `key` and `string` element of the text, in order. */
  function Scan(s: string): Option<seq<(Tag, string)>>
    decreases |s|
  {
    if s == "" then Some([])
    else if Open(Key) <= s then ScanLeaf(Key, s)
    else if Open(Str) <= s then ScanLeaf(Str, s)
    else Scan(s[1..])
  }

  function ScanLeaf(t: Tag, s: string): Option<seq<(Tag, string)>>
    requires Open(t) <= s
    decreases |s|, 0
  {
    var leaf :- ReadLeaf(t, s);
    var rest :- Scan(leaf.1);
    Some([(t, leaf.0)] + rest)
  }

  // ---------------------------------------------------------------- reading what was printed

  lemma {:induction false} PrefixAt(prefix: string, s: string, i: nat)
    requires i < |prefix| && i < |s| && prefix[i] != s[i]
    ensures !(prefix <= s)
  {
  }

  lemma {:induction false} EscapedCharReads(c: char, rest: string)
    ensures FirstChar(EscapeChar(c) + rest) == Some((c, |EscapeChar(c)|))
  {
    var s := EscapeChar(c) + rest;
    assert EscapeChar(c) <= s;
    if c == '<' {
      PrefixAt("&amp;", s, 1);
    } else if c == '>' {
      PrefixAt("&amp;", s, 1);
      PrefixAt("&lt;", s, 1);
    } else if c == '"' {
      PrefixAt("&amp;", s, 1);
      PrefixAt("&lt;", s, 1);
      PrefixAt("&gt;", s, 1);
    } else if c == '\'' {
      PrefixAt("&amp;", s, 2);
      PrefixAt("&lt;", s, 1);
      PrefixAt("&gt;", s, 1);
      PrefixAt("&quot;", s, 1);
    }
  }

  lemma {:induction false} EscapeReads(s: string)
    ensures Unescape(Escape(s)) == Some(s)
  {
    if s != "" {
      EscapeReads(s[1..]);
      EscapedCharReads(s[0], Escape(s[1..]));
      assert Escape(s)[|EscapeChar(s[0])|..] == Escape(s[1..]);
      assert [s[0]] + s[1..] == s;
    }
  }

  lemma {:induction false} EscapeHasNoTag(s: string)
    ensures '<' !in Escape(s)
  {
    if s != "" {
      EscapeHasNoTag(s[1..]);
    }
  }

  lemma {:induction false} DataLengthOf(data: string, rest: string)
    requires '<' !in data && rest != "" && rest[0] == '<'
    ensures DataLength(data + rest) == |data|
  {
    if data == "" {
      assert data + rest == rest;
    } else {
      assert (data + rest)[1..] == data[1..] + rest;
      DataLengthOf(data[1..], rest);
    }
  }

  lemma {:induction false} FourParts(a: string, b: string, c: string, d: string)
    ensures a + b + c + d == a + (b + (c + d))
    ensures (a + (b + (c + d)))[|a|..] == b + (c + d)
    ensures (b + (c + d))[..|b|] == b && (b + (c + d))[|b|..] == c + d && (c + d)[|c|..] == d
    ensures a <= a + (b + (c + d)) && c <= c + d
  {
  }

  lemma {:induction false} CloseStarts(t: Tag, rest: string)
    ensures Close(t) + rest != "" && (Close(t) + rest)[0] == '<'
  {
  }

  lemma {:induction false} LeafReads(t: Tag, value: string, rest: string)
    ensures Open(t) <= LeafText(t, value) + rest
    ensures ReadLeaf(t, LeafText(t, value) + rest) == Some((value, rest))
  {
    EscapeReads(value);
    EscapeHasNoTag(value);
    CloseStarts(t, rest);
    DataLengthOf(Escape(value), Close(t) + rest);
    FourParts(Open(t), Escape(value), Close(t), rest);
    LeafReadsFrom(t, LeafText(t, value) + rest, Escape(value), value, rest);
  }

  lemma {:induction false} LeafReadsFrom(t: Tag, s: string, data: string, value: string, rest: string)
    requires s == Open(t) + (data + (Close(t) + rest)) && Unescape(data) == Some(value)
    requires DataLength(data + (Close(t) + rest)) == |data|
    ensures Open(t) <= s && ReadLeaf(t, s) == Some((value, rest))
  {
    FourParts(Open(t), data, Close(t), rest);
  }

  /** Markup in which no `<` opens a `key` or a `string` element. */
  predicate Quiet(s: string) {
    forall i :: 0 <= i < |s| && s[i] == '<' ==> i + 1 < |s| && s[i + 1] != 'k' && s[i + 1] != 's'
  }

  lemma {:induction false} QuietSkips(markup: string, rest: string)
    requires Quiet(markup)
    ensures Scan(markup + rest) == Scan(rest)
  {
    if markup == "" {
      assert markup + rest == rest;
    } else {
      var s := markup + rest;
      assert s[1..] == markup[1..] + rest;
      assert !(Open(Key) <= s) && !(Open(Str) <= s) by {
        if s[0] == '<' {
          assert s[1] == markup[1];
        }
      }
      QuietSkips(markup[1..], rest);
    }
  }

  lemma {:induction false} QuietJoin(a: string, b: string)
    requires Quiet(a) && Quiet(b)
    ensures Quiet(a + b)
  {
  }

  lemma {:induction false} XmlLineIsQuiet()
    ensures Quiet(XML_1 + XML_2)
  {
    assert Quiet(XML_1);
    assert Quiet(XML_2);
    QuietJoin(XML_1, XML_2);
  }

  lemma {:induction false} DoctypeIsQuiet(front: string)
    requires Quiet(front)
    ensures Quiet(front + DOCTYPE_1 + DOCTYPE_2)
  {
    assert Quiet(DOCTYPE_1);
    QuietJoin(front, DOCTYPE_1);
    assert Quiet(DOCTYPE_2);
    QuietJoin(front + DOCTYPE_1, DOCTYPE_2);
  }

  lemma {:induction false} DoctypeTailIsQuiet(front: string)
    requires Quiet(front)
    ensures Quiet(front + DOCTYPE_3 + DOCTYPE_4)
  {
    assert Quiet(DOCTYPE_3);
    QuietJoin(front, DOCTYPE_3);
    assert Quiet(DOCTYPE_4);
    QuietJoin(front + DOCTYPE_3, DOCTYPE_4);
  }

  lemma {:induction false} OpenDictIsQuiet(front: string)
    requires Quiet(front)
    ensures Quiet(front + OPEN_DICT)
  {
    assert Quiet(OPEN_DICT);
    QuietJoin(front, OPEN_DICT);
  }

  lemma {:induction false} TopIsQuiet()
    ensures Quiet(MarkupText(Top))
  {
    XmlLineIsQuiet();
    DoctypeIsQuiet(XML_1 + XML_2);
    DoctypeTailIsQuiet(XML_1 + XML_2 + DOCTYPE_1 + DOCTYPE_2);
    OpenDictIsQuiet(XML_1 + XML_2 + DOCTYPE_1 + DOCTYPE_2 + DOCTYPE_3 + DOCTYPE_4);
  }

  lemma {:induction false} InnerMarkupIsQuiet(m: Markup)
    requires !m.Top?
    ensures Quiet(MarkupText(m))
  {
    match m
    case Next =>
    case OpenArray =>
    case NextItem =>
    case CloseArray =>
    case TrueLine =>
  }

  lemma {:induction false} MarkupIsQuiet(m: Markup)
    ensures Quiet(MarkupText(m))
  {
    if m.Top? {
      TopIsQuiet();
    } else {
      InnerMarkupIsQuiet(m);
    }
  }

  lemma {:induction false} BottomIsQuiet()
    ensures Scan(BOTTOM) == Some([])
  {
    assert Quiet(BOTTOM);
    QuietSkips(BOTTOM, "");
    assert BOTTOM + "" == BOTTOM;
  }

  function Leaves(rows: seq<Row>): seq<(Tag, string)> {
    seq(|rows|, i requires 0 <= i < |rows| => (rows[i].tag, rows[i].value))
  }

  lemma {:induction false} LeafScans(t: Tag, value: string, rest: string)
    requires Scan(rest).Some?
    ensures Scan(LeafText(t, value) + rest) == Some([(t, value)] + Scan(rest).value)
  {
    var s := LeafText(t, value) + rest;
    LeafReads(t, value, rest);
    assert t == Str ==> !(Open(Key) <= s) by {
      assert Open(t) <= s && Open(Key)[1] == 'k' && Open(Str)[1] == 's';
    }
    assert Scan(s) == ScanLeaf(t, s);
  }

  /** Reading printed rows gives back their elements. */
  lemma {:induction false} RenderReads(rows: seq<Row>)
    ensures Scan(Render(rows)) == Some(Leaves(rows))
  {
    if rows == [] {
      BottomIsQuiet();
    } else {
      var row, rest := rows[0], Render(rows[1..]);
      RenderReads(rows[1..]);
      LeafScans(row.tag, row.value, rest);
      MarkupIsQuiet(row.before);
      QuietSkips(MarkupText(row.before), LeafText(row.tag, row.value) + rest);
      assert Leaves(rows) == [(row.tag, row.value)] + Leaves(rows[1..]);
    }
  }

  /** The elements a reader should find: each key followed by its text. */
  function Expected(f: Fields): seq<(Tag, string)> {
    [(Key, "Label"), (Str, f.jobLabel),
     (Key, "ProgramArguments"), (Str, f.binary), (Str, "run"), (Str, "--config"), (Str, f.config),
     (Str, "--state"), (Str, f.state),
     (Key, "RunAtLoad"), (Key, "KeepAlive"),
     (Key, "WorkingDirectory"), (Str, f.workingDir),
     (Key, "StandardOutPath"), (Str, f.stdout), (Key, "StandardErrorPath"), (Str, f.stderr),
     (Key, "ProcessType"), (Str, "Background")]
  }

  lemma {:induction false} TemplateLeaves(f: Fields)
    ensures Leaves(Template(f)) == Expected(f)
  {
  }

  /** Whatever the options, the printed text reads back as exactly the fixed keys, each followed by the
      value resolved for it. */
  lemma {:induction false} PlistReadsBack(o: InstallOptions, m: Machine)
    requires RenderPlist(o, m).Ok?
    ensures Scan(RenderPlist(o, m).value) == Some(Expected(Resolve(o, m).value))
  {
    var f := Resolve(o, m).value;
    RenderReads(Template(f));
    TemplateLeaves(f);
  }

  /** So printing is injective on the resolved values. */
  lemma {:induction false} PlistInjective(o: InstallOptions, m: Machine, p: InstallOptions, n: Machine)
    requires RenderPlist(o, m).Ok? && RenderPlist(p, n).Ok?
    ensures RenderPlist(o, m) == RenderPlist(p, n) <==> Resolve(o, m) == Resolve(p, n)
  {
    PlistReadsBack(o, m);
    PlistReadsBack(p, n);
    var f, g := Resolve(o, m).value, Resolve(p, n).value;
    if Expected(f) == Expected(g) {
      assert forall i :: 0 <= i < 19 ==> Expected(f)[i] == Expected(g)[i];
      assert Expected(f)[1] == Expected(g)[1] && Expected(f)[3] == Expected(g)[3] && Expected(f)[6] == Expected(g)[6];
      assert Expected(f)[8] == Expected(g)[8] && Expected(f)[12] == Expected(g)[12];
      assert Expected(f)[14] == Expected(g)[14] && Expected(f)[16] == Expected(g)[16];
    }
  }

  /** The first of these errors that applies, if any. */
  function FirstError(checks: seq<(bool, PlistError)>): Option<PlistError> {
    if checks == [] then None else if checks[0].0 then Some(checks[0].1) else FirstError(checks[1..])
  }

  predicate Blank(s: string) {
    Trim(s) == ""
  }

  function OrElse(s: string, fallback: string): string {
    if Blank(s) then fallback else Trim(s)
  }

  /** Printing fails exactly when a required value is blank, the first one being reported, or a log path
      is needed and the home directory is unknown. */
  lemma {:induction false} RenderErrors(o: InstallOptions, m: Machine)
    ensures var error := FirstError([
              (Blank(o.jobLabel), NoLabel), (Blank(o.binaryPath), NoBinary), (Blank(o.configPath), NoConfig),
              (Blank(o.statePath), NoState), (m.logs.None? && (Blank(o.stdoutPath) || Blank(o.stderrPath)), NoHome)]);
            && (RenderPlist(o, m).Ok? <==> error.None?)
            && (error.Some? ==> RenderPlist(o, m) == Error(error.value))
  {
    FiveChecks((Blank(o.jobLabel), NoLabel), (Blank(o.binaryPath), NoBinary), (Blank(o.configPath), NoConfig),
               (Blank(o.statePath), NoState), (m.logs.None? && (Blank(o.stdoutPath) || Blank(o.stderrPath)), NoHome));
    LogsNeedHome(o, m);
  }

  lemma {:induction false} FiveChecks(a: (bool, PlistError), b: (bool, PlistError), c: (bool, PlistError),
      d: (bool, PlistError), e: (bool, PlistError))
    ensures FirstError([a, b, c, d, e])
         == if a.0 then Some(a.1) else if b.0 then Some(b.1) else if c.0 then Some(c.1)
            else if d.0 then Some(d.1) else if e.0 then Some(e.1) else None
  {
    assert [a, b, c, d, e][1..] == [b, c, d, e] && [b, c, d, e][1..] == [c, d, e] && [c, d, e][1..] == [d, e];
    assert [d, e][1..] == [e] && [e][1..] == [];
    assert FirstError([e]) == if e.0 then Some(e.1) else None;
    assert FirstError([d, e]) == if d.0 then Some(d.1) else FirstError([e]);
    assert FirstError([c, d, e]) == if c.0 then Some(c.1) else FirstError([d, e]);
  }

  lemma {:induction false} LogsNeedHome(o: InstallOptions, m: Machine)
    ensures ResolveLogs(o, m).None? <==> m.logs.None? && (Blank(o.stdoutPath) || Blank(o.stderrPath))
  {
  }

  /** The log paths printed: each option trimmed, or its default when blank; a defaulted standard-error
      path is trimmed as well when the standard-output path was defaulted with it. */
  lemma {:induction false} PrintedLogs(o: InstallOptions, m: Machine)
    requires ResolveLogs(o, m).Some?
    ensures var logs := ResolveLogs(o, m).value;
            && (m.logs.Some? ==>
                  && logs.stdout == OrElse(o.stdoutPath, m.logs.value.stdout)
                  && logs.stderr == OrElse(o.stderrPath, if Blank(o.stdoutPath)
                                                         then OrElse(m.logs.value.stderr, m.logs.value.stderr)
                                                         else m.logs.value.stderr))
            && (m.logs.None? ==> logs.stdout == Trim(o.stdoutPath) && logs.stderr == Trim(o.stderrPath))
  {
  }

  /** The printed values: each option trimmed, or its default when blank. */
  lemma {:induction false} PrintedValues(o: InstallOptions, m: Machine)
    requires RenderPlist(o, m).Ok?
    ensures var f := Resolve(o, m).value;
            && f.jobLabel == Trim(o.jobLabel) && f.binary == Trim(o.binaryPath)
            && f.config == Trim(o.configPath) && f.state == Trim(o.statePath)
            && f.workingDir == OrElse(o.workingDir, m.dir(f.state))
            && Some(Logs(f.stdout, f.stderr)) == ResolveLogs(o, m)
  {
    ResolvedValues(o, m);
  }

  lemma {:induction false} ResolvedValues(o: InstallOptions, m: Machine)
    requires Resolve(o, m).Ok?
    ensures var f := Resolve(o, m).value;
            && f.jobLabel == Trim(o.jobLabel) && f.binary == Trim(o.binaryPath)
            && f.config == Trim(o.configPath) && f.state == Trim(o.statePath)
            && f.workingDir == OrElse(o.workingDir, m.dir(f.state))
            && Some(Logs(f.stdout, f.stderr)) == ResolveLogs(o, m)
  {
    var f := Resolve(o, m).value;
    var logs := ResolveLogs(o, m);
    assert logs.Some? && f.stdout == logs.value.stdout && f.stderr == logs.value.stderr;
  }
}
