/** The configuration loader as it runs: one record overwritten by each layer in turn, and the loops of
    the normalisers; and what the order of the layers means. */
module ConfigLoad {
  import opened Text
  import opened HostMethods
  import opened Config

  // ---------------------------------------------------------------- the loops

  /** The filtering loop of `splitCSV` and `normalizeUpdateConfig`. */
  method KeepEntries(values: seq<string>) returns (items: seq<string>)
    ensures items == Kept(values)
  {
    items := [];
    for i := 0 to |values|
      invariant items == Kept(values[..i])
    {
      assert values[..i + 1] == values[..i] + [values[i]];
      KeptExtend(values[..i], values[i]);
      var item := Trim(values[i]);
      if item != "" {
        items := items + [item];
      }
    }
    assert values[..|values|] == values;
  }

  method NormalizeUpdate(u: UpdateConfig, updateRoot: string) returns (r: UpdateConfig)
    ensures r == NormalUpdate(u, updateRoot)
  {
    var command := KeepEntries(u.command);
    if |command| == 0 {
      return NO_UPDATE;
    }
    var root := Trim(u.root);
    if root == "" {
      root := updateRoot;
    }
    var timeout := u.timeoutSeconds;
    if timeout <= 0 {
      timeout := 600;
    }
    var maxOutput := u.maxOutputBytes;
    if maxOutput <= 0 {
      maxOutput := 32768;
    }
    return UpdateConfig(command, root, u.download, Trim(u.authToken), timeout, maxOutput);
  }

  lemma {:induction false} NormalHintsExtend(values: seq<Hint>, last: Hint)
    ensures var before, hint := NormalHints(values), TrimHint(last);
            NormalHints(values + [last])
            == if hint == Hint("", "") || HintKey(hint) in HintKeys(before) then before else before + [hint]
  {
    assert (values + [last])[..|values|] == values;
  }

  ghost predicate Seen(seen: set<string>, hints: seq<Hint>) {
    forall k :: k in seen <==> k in HintKeys(hints)
  }

  lemma {:induction false} SeenExtend(seen: set<string>, hints: seq<Hint>, hint: Hint)
    requires Seen(seen, hints)
    ensures Seen(seen + {HintKey(hint)}, hints + [hint])
  {
    assert HintKeys(hints + [hint]) == HintKeys(hints) + [HintKey(hint)];
  }

  /** The loop of `normalizeWorkspaceHints`, with its `seen` set of joined keys. */
  method NormalizeHints(values: seq<Hint>) returns (hints: seq<Hint>)
    ensures hints == NormalHints(values)
  {
    hints := [];
    var seen: set<string> := {};
    for i := 0 to |values|
      invariant hints == NormalHints(values[..i])
      invariant Seen(seen, hints)
    {
      assert values[..i + 1] == values[..i] + [values[i]];
      NormalHintsExtend(values[..i], values[i]);
      seen, hints := AddHint(values[i], seen, hints);
    }
    assert values[..|values|] == values;
  }

  /** One turn of the loop. */
  method AddHint(value: Hint, seen: set<string>, hints: seq<Hint>) returns (seen': set<string>, hints': seq<Hint>)
    requires Seen(seen, hints)
    ensures var hint := TrimHint(value);
            hints' == if hint == Hint("", "") || HintKey(hint) in HintKeys(hints) then hints else hints + [hint]
    ensures Seen(seen', hints')
  {
    var hint := Hint(Trim(value.name), Trim(value.rootPath));
    if hint.name == "" && hint.rootPath == "" {
      return seen, hints;
    }
    var key := hint.name + "\U{00}" + hint.rootPath;
    if key in seen {
      return seen, hints;
    }
    SeenExtend(seen, hints, hint);
    return seen + {key}, hints + [hint];
  }

  // ---------------------------------------------------------------- one setting

  /** `if value != "" { current = value }`. */
  method Overwrite(current: string, value: string) returns (r: string)
    ensures r == OrElse(value, current)
  {
    r := current;
    if value != "" {
      r := value;
    }
  }

  /** `if option != nil { current = TrimSpace(*option) }`. */
  method OverwriteWith(current: string, option: Option<string>) returns (r: string)
    ensures r == Override(Trimming(option), current)
  {
    r := current;
    if option.Some? {
      r := Trim(option.value);
    }
  }

  /** A numeric variable: unchanged when blank, nothing when malformed. */
  method ReadInt(current: int, raw: string) returns (r: Option<int>)
    ensures r == EnvInt(raw, current)
  {
    r := Some(current);
    if raw != "" {
      r := ParseInt(raw);
    }
  }

  method ReadBool(current: bool, raw: string) returns (r: Option<bool>)
    ensures r == EnvBool(raw, current)
  {
    r := Some(current);
    if raw != "" {
      r := ParseBool(raw);
    }
  }

  method ReadList(current: seq<string>, raw: string) returns (r: seq<string>)
    ensures r == EnvList(raw, current)
  {
    r := current;
    if raw != "" {
      r := KeepEntries(Split(raw, ','));
    }
  }

  lemma {:induction false} EnvOutcome(c: Config, e: Env)
    ensures WithEnv(c, e).Some?
       <==> && EnvInt(e.heartbeatSeconds, c.heartbeatSeconds).Some? && EnvBool(e.hostEnabled, c.enabled).Some?
            && EnvUpdate(c.update, e).Some?
  {
  }

  lemma {:induction false} EnvAssembles(c: Config, r: Config, e: Env)
    requires r.wsUrl == OrElse(e.wsUrl, c.wsUrl) && r.tlsMode == OrElse(e.tlsMode, c.tlsMode)
    requires r.tlsFingerprint == OrElse(e.tlsFingerprint, c.tlsFingerprint)
    requires r.displayName == OrElse(e.displayName, c.displayName)
    requires r.logLevel == OrElse(e.logLevel, c.logLevel)
    requires Some(r.heartbeatSeconds) == EnvInt(e.heartbeatSeconds, c.heartbeatSeconds)
    requires Some(r.enabled) == EnvBool(e.hostEnabled, c.enabled)
    requires r.methods == EnvList(e.hostMethods, c.methods) && r.hints == c.hints
    requires Some(r.update) == EnvUpdate(c.update, e)
    ensures WithEnv(c, e) == Some(r)
  {
  }

  // ---------------------------------------------------------------- the record

  class Settings {
    var wsUrl: string
    var tlsMode: string
    var tlsFingerprint: string
    var displayName: string
    var heartbeatSeconds: int
    var enabled: bool
    var methods: seq<string>
    var hints: seq<Hint>
    var update: UpdateConfig
    var logLevel: string

    ghost function View(): Config
      reads this
    {
      Config(wsUrl, tlsMode, tlsFingerprint, displayName, heartbeatSeconds, enabled, methods, hints, update, logLevel)
    }

    /** `defaultConfig`. */
    constructor (h: Host)
      ensures View() == DefaultConfig(h)
    {
      wsUrl, tlsMode, tlsFingerprint := "", SYSTEM, "";
      displayName, heartbeatSeconds := h.hostname, 20;
      enabled, methods, hints, update := true, METHODS, [], NO_UPDATE;
      logLevel := "info";
    }

    /** `applyFile`; a failure leaves the record alone. */
    method ApplyFile(file: File) returns (ok: bool)
      modifies this
      ensures ok <==> FromFile(old(View()), file).Ok?
      ensures ok ==> Ok(View()) == FromFile(old(View()), file)
      ensures !ok ==> View() == old(View())
    {
      if file.Missing? {
        return true;
      }
      if file.Broken? {
        return false;
      }
      var decoded := Decode(file.json);
      if decoded.None? {
        return false;
      }
      ApplyFields(decoded.value);
      return true;
    }

    method ApplyFields(f: FileConfig)
      modifies this
      ensures View() == WithFile(old(View()), f)
    {
      if f.gateway.Some? {
        ApplyGateway(f.gateway.value);
      }
      ApplyNames(f);
      if f.host.Some? {
        ApplyHost(f.host.value);
      }
      if f.level.Some? {
        logLevel := Overwrite(logLevel, f.level.value);
      }
    }

    method ApplyNames(f: FileConfig)
      modifies `displayName, `heartbeatSeconds
      ensures displayName == OrElse(f.displayName, old(displayName))
      ensures heartbeatSeconds == PositiveOr(f.heartbeatSeconds, old(heartbeatSeconds))
    {
      displayName := Overwrite(displayName, f.displayName);
      if f.heartbeatSeconds > 0 {
        heartbeatSeconds := f.heartbeatSeconds;
      }
    }

    method ApplyGateway(g: Gateway)
      modifies `wsUrl, `tlsMode, `tlsFingerprint
      ensures wsUrl == OrElse(g.wsUrl, old(wsUrl)) && tlsMode == OrElse(g.tlsMode, old(tlsMode))
      ensures tlsFingerprint == OrElse(g.tlsFingerprint, old(tlsFingerprint))
    {
      wsUrl := Overwrite(wsUrl, g.wsUrl);
      tlsMode := Overwrite(tlsMode, g.tlsMode);
      tlsFingerprint := Overwrite(tlsFingerprint, g.tlsFingerprint);
    }

    method ApplyHost(f: FileHost)
      modifies `enabled, `methods, `hints, `update
      ensures enabled == f.enabled
      ensures methods == (if f.methods == [] then old(methods) else f.methods)
      ensures hints == (if f.hints == [] then old(hints) else f.hints)
      ensures update == if f.update.command == [] then old(update) else f.update
    {
      enabled := f.enabled;
      if |f.methods| > 0 {
        methods := f.methods;
      }
      if |f.hints| > 0 {
        hints := f.hints;
      }
      if |f.update.command| > 0 {
        update := f.update;
      }
    }

    /** `applyEnv` on the trimmed variables: stops at the first malformed variable. */
    method ApplyEnv(e: Env) returns (ok: bool)
      modifies this
      ensures ok <==> WithEnv(old(View()), e).Some?
      ensures ok ==> Some(View()) == WithEnv(old(View()), e)
    {
      ghost var before := View();
      EnvOutcome(before, e);
      ApplyEnvTexts(e);
      ok := ApplyEnvNumbers(e);
      if !ok {
        return;
      }
      ok := ApplyEnvUpdate(e);
      if ok {
        EnvAssembles(before, View(), e);
      }
    }

    method ApplyEnvNumbers(e: Env) returns (ok: bool)
      modifies `heartbeatSeconds, `enabled, `methods
      ensures ok <==> && EnvInt(e.heartbeatSeconds, old(heartbeatSeconds)).Some?
                      && EnvBool(e.hostEnabled, old(enabled)).Some?
      ensures ok ==> && Some(heartbeatSeconds) == EnvInt(e.heartbeatSeconds, old(heartbeatSeconds))
                     && Some(enabled) == EnvBool(e.hostEnabled, old(enabled))
                     && methods == EnvList(e.hostMethods, old(methods))
    {
      var heartbeat := ReadInt(heartbeatSeconds, e.heartbeatSeconds);
      if heartbeat.None? {
        return false;
      }
      heartbeatSeconds := heartbeat.value;
      var hostEnabled := ReadBool(enabled, e.hostEnabled);
      if hostEnabled.None? {
        return false;
      }
      enabled := hostEnabled.value;
      methods := ReadList(methods, e.hostMethods);
      return true;
    }

    method ApplyEnvTexts(e: Env)
      modifies `wsUrl, `tlsMode, `tlsFingerprint, `displayName, `logLevel
      ensures wsUrl == OrElse(e.wsUrl, old(wsUrl)) && tlsMode == OrElse(e.tlsMode, old(tlsMode))
      ensures tlsFingerprint == OrElse(e.tlsFingerprint, old(tlsFingerprint))
      ensures displayName == OrElse(e.displayName, old(displayName))
      ensures logLevel == OrElse(e.logLevel, old(logLevel))
    {
      wsUrl := Overwrite(wsUrl, e.wsUrl);
      tlsMode := Overwrite(tlsMode, e.tlsMode);
      tlsFingerprint := Overwrite(tlsFingerprint, e.tlsFingerprint);
      displayName := Overwrite(displayName, e.displayName);
      logLevel := Overwrite(logLevel, e.logLevel);
    }

    method ApplyEnvUpdate(e: Env) returns (ok: bool)
      modifies `update
      ensures ok <==> EnvUpdate(old(update), e).Some?
      ensures ok ==> Some(update) == EnvUpdate(old(update), e)
    {
      var command := ReadList(update.command, e.updateCommand);
      var root := Overwrite(update.root, e.updateRoot);
      update := update.(command := command, root := root);
      var download := ReadBool(update.download, e.updateDownload);
      if download.None? {
        return false;
      }
      var authToken := Overwrite(update.authToken, e.updateAuthToken);
      update := update.(download := download.value, authToken := authToken);
      var timeout := ReadInt(update.timeoutSeconds, e.updateTimeoutSeconds);
      if timeout.None? {
        return false;
      }
      update := update.(timeoutSeconds := timeout.value);
      var maxOutput := ReadInt(update.maxOutputBytes, e.updateMaxOutputBytes);
      if maxOutput.None? {
        return false;
      }
      update := update.(maxOutputBytes := maxOutput.value);
      return true;
    }

    /** `applyOptions`. */
    method ApplyOptions(o: Options)
      modifies this
      ensures View() == WithOptions(old(View()), o)
    {
      wsUrl := OverwriteWith(wsUrl, o.wsUrl);
      tlsMode := OverwriteWith(tlsMode, o.tlsMode);
      tlsFingerprint := OverwriteWith(tlsFingerprint, o.tlsFingerprint);
      displayName := OverwriteWith(displayName, o.displayName);
      logLevel := OverwriteWith(logLevel, o.logLevel);
      if o.heartbeatSeconds.Some? {
        heartbeatSeconds := o.heartbeatSeconds.value;
      }
      if o.hostEnabled.Some? {
        enabled := o.hostEnabled.value;
      }
    }

    /** `normalize`: on an error the record is partly normalised, and both callers discard it. */
    method NormalizeInPlace(h: Host) returns (r: Result<()>)
      modifies this
      ensures Reports(r, Normalize(old(View()), h))
    {
      NormalizeNamesInPlace(h);
      r := NormalizeTlsModeInPlace();
      if r.Ok? {
        NormalizeLevelInPlace();
        r := NormalizeHostInPlace(h);
      }
    }

    /** The outcome of an in-place step: its error, or the record now holding its value. */
    ghost predicate Reports(r: Result<()>, expected: Result<Config>)
      reads this
    {
      match expected
      case Ok(c) => r == Ok(()) && View() == c
      case Error(e) => r == Error(e)
    }

    method NormalizeNamesInPlace(h: Host)
      modifies `displayName, `heartbeatSeconds
      ensures View() == NormalizeNames(old(View()), h)
    {
      displayName := Overwrite(h.hostname, Trim(displayName));
      if heartbeatSeconds <= 0 {
        heartbeatSeconds := 20;
      }
    }

    method NormalizeTlsModeInPlace() returns (r: Result<()>)
      modifies `tlsMode
      ensures Reports(r, NormalizeTlsMode(old(View())))
    {
      var mode := Overwrite(SYSTEM, Trim(Lower(tlsMode)));
      if mode != OFF && mode != SYSTEM && mode != PINNED {
        return Error(BadTlsMode(tlsMode));
      }
      tlsMode := mode;
      return Ok(());
    }

    method NormalizeLevelInPlace()
      modifies `logLevel
      ensures View() == NormalizeLevel(old(View()))
    {
      logLevel := Overwrite("info", Trim(Lower(logLevel)));
    }

    method NormalizeHostInPlace(h: Host) returns (r: Result<()>)
      modifies `methods, `hints, `update
      ensures Reports(r, NormalizeHost(old(View()), h))
    {
      if enabled {
        var normal := NormalizeMethods(methods, METHODS);
        if normal.Rejected? {
          return Error(BadMethods(normal.error));
        }
        methods := normal.methods;
        hints := NormalizeHints(hints);
        update := NormalizeUpdate(update, h.updateRoot);
      } else {
        methods, hints, update := [], [], NO_UPDATE;
      }
      return Ok(());
    }
  }

  /** `Load`: the layers in order, then normalisation. */
  method LoadSettings(file: File, env: Env, options: Options, h: Host) returns (settings: Settings, r: Result<()>)
    ensures fresh(settings)
    ensures settings.Reports(r, Load(file, env, options, h))
  {
    settings := new Settings(h);
    var ok := settings.ApplyFile(file);
    if !ok {
      return settings, Error(BadFile);
    }
    ok := settings.ApplyEnv(TrimEnv(env));
    if !ok {
      return settings, Error(BadEnvironment);
    }
    settings.ApplyOptions(options);
    r := settings.NormalizeInPlace(h);
  }

  // ---------------------------------------------------------------- what the order means

  /** The value of the first layer that sets one. */
  function FirstSet<T>(layers: seq<Option<T>>, fallback: T): T {
    if layers == [] then fallback
    else if layers[0].Some? then layers[0].value
    else FirstSet(layers[1..], fallback)
  }

  function NonEmpty(s: string): Option<string> {
    if s == "" then None else Some(s)
  }

  function Positive(n: int): Option<int> {
    if n <= 0 then None else Some(n)
  }

  /** A variable's parsed value; unset when blank. */
  function Parsed<T>(raw: string, parse: string -> Option<T>): Option<T> {
    if raw == "" then None else parse(raw)
  }

  lemma {:induction false} ThreeLayers<T>(a: Option<T>, b: Option<T>, c: Option<T>, fallback: T)
    ensures FirstSet([a, b, c], fallback)
         == if a.Some? then a.value else if b.Some? then b.value else if c.Some? then c.value else fallback
  {
    assert [a, b, c][1..] == [b, c] && [b, c][1..] == [c];
    assert FirstSet([c], fallback) == if c.Some? then c.value else fallback;
    assert FirstSet([b, c], fallback) == if b.Some? then b.value else FirstSet([c], fallback);
  }

  lemma {:induction false} TextLayers(option: Option<string>, env: string, file: string, fallback: string)
    ensures Override(Trimming(option), OrElse(env, OrElse(file, fallback)))
         == FirstSet([Trimming(option), NonEmpty(env), NonEmpty(file)], fallback)
  {
    ThreeLayers(Trimming(option), NonEmpty(env), NonEmpty(file), fallback);
  }

  /** Options beat the environment, which beats the file, which beats the defaults; an option wins even
      when it is blank, the environment and the file only when they are not. */
  lemma {:induction false} LayerOrder(h: Host, f: FileConfig, e: Env, o: Options)
    requires WithEnv(WithFile(DefaultConfig(h), f), e).Some?
    ensures var r := WithOptions(WithEnv(WithFile(DefaultConfig(h), f), e).value, o);
            var g := if f.gateway.Some? then f.gateway.value else Gateway("", "", "");
            && r.wsUrl == FirstSet([Trimming(o.wsUrl), NonEmpty(e.wsUrl), NonEmpty(g.wsUrl)], "")
            && r.tlsMode == FirstSet([Trimming(o.tlsMode), NonEmpty(e.tlsMode), NonEmpty(g.tlsMode)], SYSTEM)
            && r.tlsFingerprint
               == FirstSet([Trimming(o.tlsFingerprint), NonEmpty(e.tlsFingerprint), NonEmpty(g.tlsFingerprint)], "")
  {
    var g := if f.gateway.Some? then f.gateway.value else Gateway("", "", "");
    TextLayers(o.wsUrl, e.wsUrl, g.wsUrl, "");
    TextLayers(o.tlsMode, e.tlsMode, g.tlsMode, SYSTEM);
    TextLayers(o.tlsFingerprint, e.tlsFingerprint, g.tlsFingerprint, "");
  }

  /** The same order outside the gateway section. */
  lemma {:induction false} OuterLayerOrder(h: Host, f: FileConfig, e: Env, o: Options)
    requires WithEnv(WithFile(DefaultConfig(h), f), e).Some?
    ensures var r := WithOptions(WithEnv(WithFile(DefaultConfig(h), f), e).value, o);
            var level := if f.level.Some? then f.level.value else "";
            && r.displayName
               == FirstSet([Trimming(o.displayName), NonEmpty(e.displayName), NonEmpty(f.displayName)], h.hostname)
            && r.logLevel == FirstSet([Trimming(o.logLevel), NonEmpty(e.logLevel), NonEmpty(level)], "info")
  {
    var level := if f.level.Some? then f.level.value else "";
    TextLayers(o.displayName, e.displayName, f.displayName, h.hostname);
    TextLayers(o.logLevel, e.logLevel, level, "info");
  }

  lemma {:induction false} NumberLayerOrder(h: Host, f: FileConfig, e: Env, o: Options)
    requires WithEnv(WithFile(DefaultConfig(h), f), e).Some?
    ensures var r := WithOptions(WithEnv(WithFile(DefaultConfig(h), f), e).value, o);
            && r.heartbeatSeconds
               == FirstSet([o.heartbeatSeconds, Parsed(e.heartbeatSeconds, ParseInt), Positive(f.heartbeatSeconds)], 20)
            && r.enabled
               == FirstSet([o.hostEnabled, Parsed(e.hostEnabled, ParseBool),
                            if f.host.Some? then Some(f.host.value.enabled) else None], true)
  {
    ThreeLayers(o.heartbeatSeconds, Parsed(e.heartbeatSeconds, ParseInt), Positive(f.heartbeatSeconds), 20);
    ThreeLayers(o.hostEnabled, Parsed(e.hostEnabled, ParseBool),
                if f.host.Some? then Some(f.host.value.enabled) else None, true);
  }

  function NonEmptyList<T(==)>(items: seq<T>): Option<seq<T>> {
    if items == [] then None else Some(items)
  }

  function ParsedList(raw: string): Option<seq<string>> {
    if raw == "" then None else Some(SplitCsv(raw))
  }

  /** The lists of the host section: the environment's method list, then the file's, then all; hints
      come from the file alone. */
  lemma {:induction false} ListLayerOrder(h: Host, f: FileConfig, e: Env, o: Options)
    requires WithEnv(WithFile(DefaultConfig(h), f), e).Some?
    ensures var r := WithOptions(WithEnv(WithFile(DefaultConfig(h), f), e).value, o);
            var host := if f.host.Some? then f.host.value else FileHost(false, [], [], NO_UPDATE);
            && r.methods == FirstSet([ParsedList(e.hostMethods), NonEmptyList(host.methods), None], METHODS)
            && r.hints == FirstSet([NonEmptyList(host.hints), None, None], [])
  {
    var host := if f.host.Some? then f.host.value else FileHost(false, [], [], NO_UPDATE);
    ThreeLayers(ParsedList(e.hostMethods), NonEmptyList(host.methods), None, METHODS);
    ThreeLayers(NonEmptyList(host.hints), None, None, []);
  }

  /** The file's update section counts as a whole, and only when it has a command; the environment
      overrides it field by field. */
  lemma {:induction false} UpdateLayerOrder(h: Host, f: FileConfig, e: Env, o: Options)
    requires WithEnv(WithFile(DefaultConfig(h), f), e).Some?
    ensures var u := WithOptions(WithEnv(WithFile(DefaultConfig(h), f), e).value, o).update;
            var host := if f.host.Some? then f.host.value else FileHost(false, [], [], NO_UPDATE);
            var base := if host.update.command == [] then NO_UPDATE else host.update;
            && u.command == FirstSet([ParsedList(e.updateCommand), None, None], base.command)
            && u.root == FirstSet([NonEmpty(e.updateRoot), None, None], base.root)
            && u.download == FirstSet([Parsed(e.updateDownload, ParseBool), None, None], base.download)
            && u.authToken == FirstSet([NonEmpty(e.updateAuthToken), None, None], base.authToken)
            && u.timeoutSeconds == FirstSet([Parsed(e.updateTimeoutSeconds, ParseInt), None, None], base.timeoutSeconds)
            && u.maxOutputBytes == FirstSet([Parsed(e.updateMaxOutputBytes, ParseInt), None, None], base.maxOutputBytes)
  {
    var c := WithFile(DefaultConfig(h), f);
    EnvUpdateOrder(c.update, e);
    assert WithOptions(WithEnv(c, e).value, o).update == EnvUpdate(c.update, e).value;
  }

  lemma {:induction false} EnvUpdateOrder(base: UpdateConfig, e: Env)
    requires EnvUpdate(base, e).Some?
    ensures var u := EnvUpdate(base, e).value;
            && u.command == FirstSet([ParsedList(e.updateCommand), None, None], base.command)
            && u.root == FirstSet([NonEmpty(e.updateRoot), None, None], base.root)
            && u.download == FirstSet([Parsed(e.updateDownload, ParseBool), None, None], base.download)
            && u.authToken == FirstSet([NonEmpty(e.updateAuthToken), None, None], base.authToken)
            && u.timeoutSeconds == FirstSet([Parsed(e.updateTimeoutSeconds, ParseInt), None, None], base.timeoutSeconds)
            && u.maxOutputBytes == FirstSet([Parsed(e.updateMaxOutputBytes, ParseInt), None, None], base.maxOutputBytes)
  {
    ThreeLayers(ParsedList(e.updateCommand), None, None, base.command);
    ThreeLayers(NonEmpty(e.updateRoot), None, None, base.root);
    ThreeLayers(Parsed(e.updateDownload, ParseBool), None, None, base.download);
    ThreeLayers(NonEmpty(e.updateAuthToken), None, None, base.authToken);
    ThreeLayers(Parsed(e.updateTimeoutSeconds, ParseInt), None, None, base.timeoutSeconds);
    ThreeLayers(Parsed(e.updateMaxOutputBytes, ParseInt), None, None, base.maxOutputBytes);
  }
}
