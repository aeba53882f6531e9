/** internal/config/config.go: the configuration layers, their normal form, and the file as a tree of
    named fields with `omitempty`. */
module Config {
  import opened Text
  import opened Decimal
  import opened HostMethods

  datatype UpdateConfig = UpdateConfig(
    command: seq<string>, root: string, download: bool, authToken: string, timeoutSeconds: int, maxOutputBytes: int)

  const NO_UPDATE := UpdateConfig([], "", false, "", 0, 0)

  datatype Hint = Hint(name: string, rootPath: string)

  /** `Config`, flattened; a nil slice and an empty one are the same. */
  datatype Config = Config(
    wsUrl: string, tlsMode: string, tlsFingerprint: string,
    displayName: string, heartbeatSeconds: int,
    enabled: bool, methods: seq<string>, hints: seq<Hint>, update: UpdateConfig,
    logLevel: string)

  /** What the operating system contributes: `os.Hostname()` and the default update directory. */
  datatype Host = Host(hostname: string, updateRoot: string)

  predicate HostOk(h: Host) {
    Trimmed(h.hostname) && Trimmed(h.updateRoot) && h.updateRoot != ""
  }

  datatype ConfigError =
    | BadTlsMode(mode: string)
    | BadMethods(cause: MethodsError)
    | BadEnvironment
    | BadFile

  datatype Result<T> = Ok(value: T) | Error(error: ConfigError)

  function DefaultConfig(h: Host): Config {
    Config("", "system", "", h.hostname, 20, true, METHODS, [], NO_UPDATE, "info")
  }

  // ---------------------------------------------------------------- normal form

  function OrElse(s: string, fallback: string): string {
    if s == "" then fallback else s
  }

  function PositiveOr(n: int, fallback: int): int {
    if n <= 0 then fallback else n
  }

  function NormalUpdate(u: UpdateConfig, updateRoot: string): UpdateConfig {
    var command := Kept(u.command);
    if command == [] then NO_UPDATE
    else UpdateConfig(command, OrElse(Trim(u.root), updateRoot), u.download, Trim(u.authToken),
                      PositiveOr(u.timeoutSeconds, 600), PositiveOr(u.maxOutputBytes, 32768))
  }

  function HintKey(h: Hint): string {
    h.name + "\U{00}" + h.rootPath
  }

  function HintKeys(hints: seq<Hint>): seq<string> {
    seq(|hints|, i requires 0 <= i < |hints| => HintKey(hints[i]))
  }

  function TrimHint(h: Hint): Hint {
    Hint(Trim(h.name), Trim(h.rootPath))
  }

  /** `normalizeWorkspaceHints`: trimmed, blank ones dropped, the first of each key kept. */
  function NormalHints(hints: seq<Hint>): seq<Hint> {
    if hints == [] then []
    else
      var before := NormalHints(hints[..|hints| - 1]);
      var last := TrimHint(hints[|hints| - 1]);
      if last == Hint("", "") || HintKey(last) in HintKeys(before) then before else before + [last]
  }

  const OFF := "off"
  const SYSTEM := "system"
  const PINNED := "pinned"

  function NormalTlsMode(mode: string): string {
    OrElse(Trim(Lower(mode)), SYSTEM)
  }

  predicate TlsModeOk(mode: string) {
    mode == OFF || mode == SYSTEM || mode == PINNED
  }

  /** `normalize`, in its four parts: the name and the interval, the TLS mode, the log level, the host. */
  function NormalizeNames(c: Config, h: Host): Config {
    c.(displayName := OrElse(Trim(c.displayName), h.hostname), heartbeatSeconds := PositiveOr(c.heartbeatSeconds, 20))
  }

  function NormalizeTlsMode(c: Config): Result<Config> {
    if TlsModeOk(NormalTlsMode(c.tlsMode)) then Ok(c.(tlsMode := NormalTlsMode(c.tlsMode)))
    else Error(BadTlsMode(c.tlsMode))
  }

  function NormalLevel(level: string): string {
    OrElse(Trim(Lower(level)), "info")
  }

  function NormalizeLevel(c: Config): Config {
    c.(logLevel := NormalLevel(c.logLevel))
  }

  function NormalizeHost(c: Config, h: Host): Result<Config> {
    if !c.enabled then Ok(c.(methods := [], hints := [], update := NO_UPDATE))
    else
      match NormalMethods(c.methods, METHODS)
      case Rejected(e) => Error(BadMethods(e))
      case Accepted(ms) =>
        Ok(c.(methods := ms, hints := NormalHints(c.hints), update := NormalUpdate(c.update, h.updateRoot)))
  }

  function Normalize(c: Config, h: Host): Result<Config> {
    match NormalizeTlsMode(NormalizeNames(c, h))
    case Error(e) => Error(e)
    case Ok(base) => NormalizeHost(NormalizeLevel(base), h)
  }

  // ---------------------------------------------------------------- the layers

  datatype Gateway = Gateway(wsUrl: string, tlsMode: string, tlsFingerprint: string)

  datatype FileHost = FileHost(enabled: bool, methods: seq<string>, hints: seq<Hint>, update: UpdateConfig)

  /** `fileConfig`. */
  datatype FileConfig = FileConfig(
    gateway: Option<Gateway>, displayName: string, heartbeatSeconds: int, host: Option<FileHost>, level: Option<string>)

  /** `applyFile` once the file is decoded. */
  function WithFile(c: Config, f: FileConfig): Config {
    var g := match f.gateway case None => Gateway("", "", "") case Some(g) => g;
    var afterGateway := c.(
      wsUrl := OrElse(g.wsUrl, c.wsUrl), tlsMode := OrElse(g.tlsMode, c.tlsMode),
      tlsFingerprint := OrElse(g.tlsFingerprint, c.tlsFingerprint),
      displayName := OrElse(f.displayName, c.displayName),
      heartbeatSeconds := PositiveOr(f.heartbeatSeconds, c.heartbeatSeconds),
      logLevel := match f.level case None => c.logLevel case Some(level) => OrElse(level, c.logLevel));
    match f.host
    case None => afterGateway
    case Some(h) =>
      afterGateway.(
        enabled := h.enabled,
        methods := if h.methods == [] then c.methods else h.methods,
        hints := if h.hints == [] then c.hints else h.hints,
        update := if h.update.command == [] then c.update else h.update)
  }

  /** The environment variables, empty when unset. */
  datatype Env = Env(
    wsUrl: string, tlsMode: string, tlsFingerprint: string, displayName: string, logLevel: string,
    heartbeatSeconds: string, hostEnabled: string, hostMethods: string,
    updateCommand: string, updateRoot: string, updateDownload: string, updateAuthToken: string,
    updateTimeoutSeconds: string, updateMaxOutputBytes: string)

  const NO_ENV := Env("", "", "", "", "", "", "", "", "", "", "", "", "", "")

  /** `ParseBool`. */
  function ParseBool(value: string): Option<bool> {
    var raw := Trim(Lower(value));
    if raw == "1" || raw == "true" || raw == "yes" || raw == "on" then Some(true)
    else if raw == "0" || raw == "false" || raw == "no" || raw == "off" then Some(false)
    else None
  }

  /** `ParseInt`: `strconv.Atoi` on a 64-bit platform. */
  function ParseInt(value: string): Option<int> {
    var raw := Trim(value);
    var negative := raw != "" && raw[0] == '-';
    var body := if raw != "" && (raw[0] == '-' || raw[0] == '+') then raw[1..] else raw;
    if body == "" then None
    else
      var magnitude :- Digits(body);
      var sign := if negative then -1 else 1;
      var signed := sign * magnitude;
      if InInt64(signed) then Some(signed) else None
  }

  /** `strconv.Itoa`. */
  function IntText(n: int): string {
    if n < 0 then "-" + Numeral(-n) else Numeral(n)
  }

  predicate InInt64(n: int) {
    -0x8000_0000_0000_0000 <= n < 0x8000_0000_0000_0000
  }

  lemma {:induction false} PlainIsTrimmed(s: string)
    requires forall c <- s :: '0' <= c <= '9' || c == '-'
    ensures Trimmed(s)
  {
    if s != "" {
      assert s[0] in s && s[|s| - 1] in s;
    }
  }

  /** Reading a printed number gives it back exactly when it fits 64 bits. */
  lemma {:induction false} IntReads(n: int)
    ensures ParseInt(IntText(n)) == if InInt64(n) then Some(n) else None
  {
    var s := IntText(n);
    var magnitude := if n < 0 then -n else n;
    NumeralReads(magnitude);
    PlainIsTrimmed(s);
    assert Numeral(magnitude)[0] in Numeral(magnitude);
    assert n < 0 ==> s[1..] == Numeral(magnitude);
  }

  function SplitCsv(value: string): seq<string> {
    Kept(Split(value, ','))
  }

  /** Every variable is trimmed as it is read, so a blank one counts as unset. */
  function TrimEnv(e: Env): Env {
    Env(Trim(e.wsUrl), Trim(e.tlsMode), Trim(e.tlsFingerprint), Trim(e.displayName), Trim(e.logLevel),
        Trim(e.heartbeatSeconds), Trim(e.hostEnabled), Trim(e.hostMethods),
        Trim(e.updateCommand), Trim(e.updateRoot), Trim(e.updateDownload), Trim(e.updateAuthToken),
        Trim(e.updateTimeoutSeconds), Trim(e.updateMaxOutputBytes))
  }

  /** The parsed variable when set, `current` when not, nothing when malformed. */
  function EnvInt(raw: string, current: int): Option<int> {
    if raw == "" then Some(current) else ParseInt(raw)
  }

  function EnvBool(raw: string, current: bool): Option<bool> {
    if raw == "" then Some(current) else ParseBool(raw)
  }

  function EnvList(raw: string, current: seq<string>): seq<string> {
    if raw == "" then current else SplitCsv(raw)
  }

  /** The part of `applyEnv` that writes the update section. */
  function EnvUpdate(u: UpdateConfig, e: Env): Option<UpdateConfig> {
    var download :- EnvBool(e.updateDownload, u.download);
    var timeout :- EnvInt(e.updateTimeoutSeconds, u.timeoutSeconds);
    var maxOutput :- EnvInt(e.updateMaxOutputBytes, u.maxOutputBytes);
    Some(UpdateConfig(EnvList(e.updateCommand, u.command), OrElse(e.updateRoot, u.root), download,
                      OrElse(e.updateAuthToken, u.authToken), timeout, maxOutput))
  }

  /** `applyEnv` on the trimmed variables. */
  function WithEnv(c: Config, e: Env): Option<Config> {
    var heartbeat :- EnvInt(e.heartbeatSeconds, c.heartbeatSeconds);
    var enabled :- EnvBool(e.hostEnabled, c.enabled);
    var update :- EnvUpdate(c.update, e);
    Some(c.(
           wsUrl := OrElse(e.wsUrl, c.wsUrl), tlsMode := OrElse(e.tlsMode, c.tlsMode),
           tlsFingerprint := OrElse(e.tlsFingerprint, c.tlsFingerprint),
           displayName := OrElse(e.displayName, c.displayName), logLevel := OrElse(e.logLevel, c.logLevel),
           heartbeatSeconds := heartbeat, enabled := enabled, update := update,
           methods := EnvList(e.hostMethods, c.methods)))
  }

  /** The command-line options that override settings. */
  datatype Options = Options(
    wsUrl: Option<string>, tlsMode: Option<string>, tlsFingerprint: Option<string>, displayName: Option<string>,
    logLevel: Option<string>, heartbeatSeconds: Option<int>, hostEnabled: Option<bool>)

  const NO_OPTIONS := Options(None, None, None, None, None, None, None)

  function Override<T>(o: Option<T>, current: T): T {
    if o.Some? then o.value else current
  }

  function Trimming(o: Option<string>): Option<string> {
    if o.Some? then Some(Trim(o.value)) else None
  }

  /** `applyOptions`. */
  function WithOptions(c: Config, o: Options): Config {
    c.(wsUrl := Override(Trimming(o.wsUrl), c.wsUrl),
       tlsMode := Override(Trimming(o.tlsMode), c.tlsMode),
       tlsFingerprint := Override(Trimming(o.tlsFingerprint), c.tlsFingerprint),
       displayName := Override(Trimming(o.displayName), c.displayName),
       logLevel := Override(Trimming(o.logLevel), c.logLevel),
       heartbeatSeconds := Override(o.heartbeatSeconds, c.heartbeatSeconds),
       enabled := Override(o.hostEnabled, c.enabled))
  }

  // ---------------------------------------------------------------- the file as a tree

  /** The field names of the file, snake case and the camel-case aliases the decoders accept. */
  datatype Key =
    | KGateway | KWsUrl | KTlsMode | KTlsFingerprint
    | KDisplayName | KHeartbeatSeconds
    | KComponents | KHost | KEnabled | KMethods | KWorkspaceHints | KName | KRootPath | KRootPathCamel
    | KUpdate | KCommand | KRoot | KDownload | KAuthToken | KAuthTokenCamel
    | KTimeoutSeconds | KTimeoutSecondsCamel | KMaxOutputBytes | KMaxOutputBytesCamel
    | KLogging | KLevel | KOther(name: string)

  datatype Json =
    | Null | Bool(b: bool) | Num(n: int) | Str(s: string) | Arr(items: seq<Json>) | Obj(fields: map<Key, Json>)

  type Fields = map<Key, Json>

  /** `omitempty`. */
  function Unless(empty: bool, key: Key, value: Json): Fields {
    if empty then map[] else map[key := value]
  }

  function EncodeStrings(items: seq<string>): seq<Json> {
    seq(|items|, i requires 0 <= i < |items| => Str(items[i]))
  }

  function EncodeHint(h: Hint): Json {
    Obj(map[KName := Str(h.name), KRootPath := Str(h.rootPath)])
  }

  function EncodeHints(hints: seq<Hint>): seq<Json> {
    seq(|hints|, i requires 0 <= i < |hints| => EncodeHint(hints[i]))
  }

  function UpdateFields(u: UpdateConfig): Fields {
    Unless(u.command == [], KCommand, Arr(EncodeStrings(u.command))) +
    Unless(u.root == "", KRoot, Str(u.root)) +
    Unless(!u.download, KDownload, Bool(u.download)) +
    Unless(u.authToken == "", KAuthToken, Str(u.authToken)) +
    Unless(u.timeoutSeconds == 0, KTimeoutSeconds, Num(u.timeoutSeconds)) +
    Unless(u.maxOutputBytes == 0, KMaxOutputBytes, Num(u.maxOutputBytes))
  }

  function GatewayFields(c: Config): Fields {
    map[KWsUrl := Str(c.wsUrl), KTlsMode := Str(c.tlsMode)] +
    Unless(c.tlsFingerprint == "", KTlsFingerprint, Str(c.tlsFingerprint))
  }

  function HostFields(c: Config): Fields {
    map[KEnabled := Bool(c.enabled), KMethods := if c.methods == [] then Null else Arr(EncodeStrings(c.methods)),
        KUpdate := Obj(UpdateFields(c.update))] +
    Unless(c.hints == [], KWorkspaceHints, Arr(EncodeHints(c.hints)))
  }

  /** `json.MarshalIndent` of a `Config`; the struct-valued `update` is never omitted. */
  function Encode(c: Config): Json {
    Obj(map[
      KGateway := Obj(GatewayFields(c)),
      KDisplayName := Str(c.displayName),
      KHeartbeatSeconds := Num(c.heartbeatSeconds),
      KComponents := Obj(map[KHost := Obj(HostFields(c))]),
      KLogging := Obj(map[KLevel := Str(c.logLevel)])])
  }

  function Get(o: Fields, k: Key): Option<Json> {
    if k in o then Some(o[k]) else None
  }

  /** A missing field and a null leave the zero value; another type is an error. */
  function GetStr(o: Fields, k: Key): Option<string> {
    match Get(o, k)
    case None => Some("")
    case Some(Null) => Some("")
    case Some(Str(s)) => Some(s)
    case Some(_) => None
  }

  function GetInt(o: Fields, k: Key): Option<int> {
    match Get(o, k)
    case None => Some(0)
    case Some(Null) => Some(0)
    case Some(Num(n)) => Some(n)
    case Some(_) => None
  }

  function GetBool(o: Fields, k: Key): Option<Option<bool>> {
    match Get(o, k)
    case None => Some(None)
    case Some(Null) => Some(None)
    case Some(Bool(b)) => Some(Some(b))
    case Some(_) => None
  }

  function DecodeStrings(items: seq<Json>): Option<seq<string>> {
    if items == [] then Some([])
    else
      var n := |items| - 1;
      var before :- DecodeStrings(items[..n]);
      match items[n]
      case Null => Some(before + [""])
      case Str(s) => Some(before + [s])
      case _ => None
  }

  function GetStrings(o: Fields, k: Key): Option<seq<string>> {
    match Get(o, k)
    case None => Some([])
    case Some(Null) => Some([])
    case Some(Arr(items)) => DecodeStrings(items)
    case Some(_) => None
  }

  /** The fields of a struct-valued or pointer-valued member. */
  function GetFields(o: Fields, k: Key): Option<Option<Fields>> {
    match Get(o, k)
    case None => Some(None)
    case Some(Null) => Some(None)
    case Some(Obj(fields)) => Some(Some(fields))
    case Some(_) => None
  }

  /** `WorkspaceHint.UnmarshalJSON`. */
  function DecodeHint(o: Fields): Option<Hint> {
    var name :- GetStr(o, KName);
    var snake :- GetStr(o, KRootPath);
    var camel :- GetStr(o, KRootPathCamel);
    Some(Hint(Trim(name), OrElse(Trim(snake), Trim(camel))))
  }

  function DecodeHints(items: seq<Json>): Option<seq<Hint>> {
    if items == [] then Some([])
    else
      var n := |items| - 1;
      var before :- DecodeHints(items[..n]);
      match items[n]
      case Null => Some(before + [Hint("", "")])
      case Obj(fields) =>
        var h :- DecodeHint(fields);
        Some(before + [h])
      case _ => None
  }

  function GetHints(o: Fields, k: Key): Option<seq<Hint>> {
    match Get(o, k)
    case None => Some([])
    case Some(Null) => Some([])
    case Some(Arr(items)) => DecodeHints(items)
    case Some(_) => None
  }

  /** `UpdateConfig.UnmarshalJSON`: a missing `download` means true. */
  function DecodeUpdate(o: Fields): Option<UpdateConfig> {
    var command :- GetStrings(o, KCommand);
    var root :- GetStr(o, KRoot);
    var download :- GetBool(o, KDownload);
    var token :- GetStr(o, KAuthToken);
    var tokenCamel :- GetStr(o, KAuthTokenCamel);
    var timeout :- GetInt(o, KTimeoutSeconds);
    var timeoutCamel :- GetInt(o, KTimeoutSecondsCamel);
    var maxOutput :- GetInt(o, KMaxOutputBytes);
    var maxOutputCamel :- GetInt(o, KMaxOutputBytesCamel);
    Some(UpdateConfig(
           command, Trim(root), download.None? || download.value, OrElse(Trim(token), Trim(tokenCamel)),
           PositiveOr(timeout, timeoutCamel), PositiveOr(maxOutput, maxOutputCamel)))
  }

  function DecodeHost(o: Fields): Option<FileHost> {
    var enabled :- GetBool(o, KEnabled);
    var methods :- GetStrings(o, KMethods);
    var hints :- GetHints(o, KWorkspaceHints);
    var update :- match Get(o, KUpdate)
                  case None => Some(NO_UPDATE)
                  case Some(Null) => DecodeUpdate(map[])
                  case Some(Obj(fields)) => DecodeUpdate(fields)
                  case Some(_) => None;
    Some(FileHost(enabled.Some? && enabled.value, methods, hints, update))
  }

  function DecodeGateway(o: Fields): Option<Gateway> {
    var wsUrl :- GetStr(o, KWsUrl);
    var tlsMode :- GetStr(o, KTlsMode);
    var fingerprint :- GetStr(o, KTlsFingerprint);
    Some(Gateway(wsUrl, tlsMode, fingerprint))
  }

  function DecodeComponents(o: Fields): Option<FileHost> {
    var host :- GetFields(o, KHost);
    if host.None? then Some(FileHost(false, [], [], NO_UPDATE)) else DecodeHost(host.value)
  }

  function Lift<T>(o: Option<T>): Option<Option<T>> {
    if o.None? then None else Some(o)
  }

  function DecodeFields(o: Fields): Option<FileConfig> {
    var gatewayFields :- GetFields(o, KGateway);
    var gateway :- if gatewayFields.None? then Some(None) else Lift(DecodeGateway(gatewayFields.value));
    var displayName :- GetStr(o, KDisplayName);
    var heartbeat :- GetInt(o, KHeartbeatSeconds);
    var componentFields :- GetFields(o, KComponents);
    var host :- if componentFields.None? then Some(None) else Lift(DecodeComponents(componentFields.value));
    var loggingFields :- GetFields(o, KLogging);
    var level :- if loggingFields.None? then Some(None) else Lift(GetStr(loggingFields.value, KLevel));
    Some(FileConfig(gateway, displayName, heartbeat, host, level))
  }

  /** `json.Unmarshal` into `fileConfig`. */
  function Decode(j: Json): Option<FileConfig> {
    match j
    case Null => Some(FileConfig(None, "", 0, None, None))
    case Obj(fields) => DecodeFields(fields)
    case _ => None
  }

  // ---------------------------------------------------------------- load and save

  /** The configuration file: missing, unreadable or not JSON, or a tree. */
  datatype File = Missing | Broken | Tree(json: Json)

  function FromFile(c: Config, file: File): Result<Config> {
    match file
    case Missing => Ok(c)
    case Broken => Error(BadFile)
    case Tree(json) =>
      match Decode(json)
      case None => Error(BadFile)
      case Some(f) => Ok(WithFile(c, f))
  }

  /** `Load`. */
  function Load(file: File, env: Env, options: Options, h: Host): Result<Config> {
    match FromFile(DefaultConfig(h), file)
    case Error(e) => Error(e)
    case Ok(c) =>
      match WithEnv(c, TrimEnv(env))
      case None => Error(BadEnvironment)
      case Some(d) => Normalize(WithOptions(d, options), h)
  }

  /** `Save`: the tree written, when normalisation accepts the configuration. */
  function Save(c: Config, h: Host): Result<Json> {
    match Normalize(c, h)
    case Error(e) => Error(e)
    case Ok(n) => Ok(Encode(n))
  }
}
