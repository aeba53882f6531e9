/** Saving a configuration and loading it again: exactly when the result is the normal form. */
module ConfigRoundTrip {
  import opened Text
  import opened HostMethods
  import opened Config

  // ---------------------------------------------------------------- the tree reads back

  lemma {:induction false} StringsReadBack(items: seq<string>)
    ensures DecodeStrings(EncodeStrings(items)) == Some(items)
  {
    if items != [] {
      var n := |items| - 1;
      StringsReadBack(items[..n]);
      assert EncodeStrings(items)[..n] == EncodeStrings(items[..n]);
      assert items[..n] + [items[n]] == items;
    }
  }

  predicate HintTrimmed(h: Hint) {
    Trimmed(h.name) && Trimmed(h.rootPath)
  }

  lemma {:induction false} HintReadsBack(h: Hint)
    requires HintTrimmed(h)
    ensures DecodeHint(EncodeHint(h).fields) == Some(h)
  {
  }

  lemma {:induction false} DecodeHintsExtend(items: seq<Json>, last: Fields, hints: seq<Hint>, h: Hint)
    requires DecodeHints(items) == Some(hints) && DecodeHint(last) == Some(h)
    ensures DecodeHints(items + [Obj(last)]) == Some(hints + [h])
  {
    assert (items + [Obj(last)])[..|items|] == items;
  }

  lemma {:induction false} EncodeHintsExtend(hints: seq<Hint>, h: Hint)
    ensures EncodeHints(hints + [h]) == EncodeHints(hints) + [EncodeHint(h)]
  {
  }

  /** The encoded form of a hint decodes to it. */
  predicate ReadsBack(h: Hint) {
    DecodeHint(EncodeHint(h).fields) == Some(h)
  }

  /** The first `n` hints read back as a list. */
  predicate ReadBackTo(hints: seq<Hint>, n: nat)
    requires n <= |hints|
  {
    DecodeHints(EncodeHints(hints[..n])) == Some(hints[..n])
  }

  lemma {:induction false} OneMoreReadsBack(hints: seq<Hint>, n: nat)
    requires n < |hints| && ReadsBack(hints[n]) && ReadBackTo(hints, n)
    ensures ReadBackTo(hints, n + 1)
  {
    var before, last := hints[..n], hints[n];
    TakeNext(hints, n);
    EncodeHintsExtend(before, last);
    DecodeHintsExtend(EncodeHints(before), EncodeHint(last).fields, before, last);
  }

  lemma {:induction false} PrefixReadsBack(hints: seq<Hint>, n: nat)
    requires n <= |hints| && forall i: nat :: i < |hints| && ReadBackTo(hints, i) ==> ReadBackTo(hints, i + 1)
    ensures ReadBackTo(hints, n)
  {
    if n > 0 {
      PrefixReadsBack(hints, n - 1);
      assert ReadBackTo(hints, n - 1 + 1);
    }
  }

  /** Encoded trimmed hints decode to themselves. */
  lemma {:induction false} HintsReadBack(hints: seq<Hint>)
    requires forall h <- hints :: HintTrimmed(h)
    ensures DecodeHints(EncodeHints(hints)) == Some(hints)
  {
    forall i: nat | i < |hints| && ReadBackTo(hints, i) ensures ReadBackTo(hints, i + 1) {
      HintReadsBack(hints[i]);
      OneMoreReadsBack(hints, i);
    }
    PrefixReadsBack(hints, |hints|);
    TakeAll(hints);
  }

  lemma {:induction false} UnionGet(a: Fields, b: Fields, k: Key)
    ensures Get(a + b, k) == if Get(b, k).Some? then Get(b, k) else Get(a, k)
  {
  }

  function Member(empty: bool, value: Json): Option<Json> {
    if empty then None else Some(value)
  }

  lemma {:induction false} UnlessGet(empty: bool, key: Key, value: Json, k: Key)
    ensures Get(Unless(empty, key, value), k) == if k == key then Member(empty, value) else None
  {
  }

  /** The members of the encoded update settings. */
  function UpdateMember(u: UpdateConfig, k: Key): Option<Json> {
    match k
    case KCommand => Member(u.command == [], Arr(EncodeStrings(u.command)))
    case KRoot => Member(u.root == "", Str(u.root))
    case KDownload => Member(!u.download, Bool(u.download))
    case KAuthToken => Member(u.authToken == "", Str(u.authToken))
    case KTimeoutSeconds => Member(u.timeoutSeconds == 0, Num(u.timeoutSeconds))
    case KMaxOutputBytes => Member(u.maxOutputBytes == 0, Num(u.maxOutputBytes))
    case _ => None
  }

  lemma {:induction false} SixGet(a: Fields, b: Fields, c: Fields, d: Fields, e: Fields, f: Fields, k: Key)
    ensures Get(a + b + c + d + e + f, k)
         == if Get(f, k).Some? then Get(f, k)
            else if Get(e, k).Some? then Get(e, k)
            else if Get(d, k).Some? then Get(d, k)
            else if Get(c, k).Some? then Get(c, k)
            else if Get(b, k).Some? then Get(b, k)
            else Get(a, k)
  {
    UnionGet(a, b, k);
    UnionGet(a + b, c, k);
    UnionGet(a + b + c, d, k);
    UnionGet(a + b + c + d, e, k);
    UnionGet(a + b + c + d + e, f, k);
  }

  lemma {:induction false} UpdateGet(u: UpdateConfig, k: Key)
    ensures Get(UpdateFields(u), k) == UpdateMember(u, k)
  {
    UnlessGet(u.command == [], KCommand, Arr(EncodeStrings(u.command)), k);
    UnlessGet(u.root == "", KRoot, Str(u.root), k);
    UnlessGet(!u.download, KDownload, Bool(u.download), k);
    UnlessGet(u.authToken == "", KAuthToken, Str(u.authToken), k);
    UnlessGet(u.timeoutSeconds == 0, KTimeoutSeconds, Num(u.timeoutSeconds), k);
    UnlessGet(u.maxOutputBytes == 0, KMaxOutputBytes, Num(u.maxOutputBytes), k);
    SixGet(Unless(u.command == [], KCommand, Arr(EncodeStrings(u.command))), Unless(u.root == "", KRoot, Str(u.root)),
           Unless(!u.download, KDownload, Bool(u.download)), Unless(u.authToken == "", KAuthToken, Str(u.authToken)),
           Unless(u.timeoutSeconds == 0, KTimeoutSeconds, Num(u.timeoutSeconds)),
           Unless(u.maxOutputBytes == 0, KMaxOutputBytes, Num(u.maxOutputBytes)), k);
  }

  /** What the decoder makes of encoded update settings: a false `download` is omitted and comes back
      true, and the strings come back trimmed. */
  function UpdateRead(u: UpdateConfig): UpdateConfig {
    UpdateConfig(u.command, Trim(u.root), true, Trim(u.authToken), u.timeoutSeconds, u.maxOutputBytes)
  }

  lemma {:induction false} StrReads(f: Fields, k: Key, s: string)
    requires Get(f, k) == Member(s == "", Str(s))
    ensures GetStr(f, k) == Some(s)
  {
  }

  lemma {:induction false} IntReads(f: Fields, k: Key, n: int)
    requires Get(f, k) == Member(n == 0, Num(n))
    ensures GetInt(f, k) == Some(n)
  {
  }

  lemma {:induction false} StringsRead(f: Fields, k: Key, items: seq<string>)
    requires Get(f, k) == Member(items == [], Arr(EncodeStrings(items)))
    ensures GetStrings(f, k) == Some(items)
  {
    StringsReadBack(items);
  }

  lemma {:induction false} UpdateAssembles(f: Fields, u: UpdateConfig)
    requires u.timeoutSeconds >= 0 && u.maxOutputBytes >= 0
    requires GetStrings(f, KCommand) == Some(u.command) && GetStr(f, KRoot) == Some(u.root)
    requires GetBool(f, KDownload) == Some(if u.download then Some(true) else None)
    requires GetStr(f, KAuthToken) == Some(u.authToken) && GetStr(f, KAuthTokenCamel) == Some("")
    requires GetInt(f, KTimeoutSeconds) == Some(u.timeoutSeconds) && GetInt(f, KTimeoutSecondsCamel) == Some(0)
    requires GetInt(f, KMaxOutputBytes) == Some(u.maxOutputBytes) && GetInt(f, KMaxOutputBytesCamel) == Some(0)
    ensures DecodeUpdate(f) == Some(UpdateRead(u))
  {
    assert Trim("") == "";
  }

  lemma {:induction false} UpdateStr(u: UpdateConfig, k: Key, s: string)
    requires UpdateMember(u, k) == Member(s == "", Str(s))
    ensures GetStr(UpdateFields(u), k) == Some(s)
  {
    UpdateGet(u, k);
    StrReads(UpdateFields(u), k, s);
  }

  lemma {:induction false} UpdateInt(u: UpdateConfig, k: Key, n: int)
    requires UpdateMember(u, k) == Member(n == 0, Num(n))
    ensures GetInt(UpdateFields(u), k) == Some(n)
  {
    UpdateGet(u, k);
    IntReads(UpdateFields(u), k, n);
  }

  lemma {:induction false} UpdateCommand(u: UpdateConfig)
    ensures GetStrings(UpdateFields(u), KCommand) == Some(u.command)
  {
    UpdateGet(u, KCommand);
    StringsRead(UpdateFields(u), KCommand, u.command);
  }

  lemma {:induction false} UpdateDownload(u: UpdateConfig)
    ensures GetBool(UpdateFields(u), KDownload) == Some(if u.download then Some(true) else None)
  {
    UpdateGet(u, KDownload);
  }

  lemma {:induction false} UpdateTexts(u: UpdateConfig)
    ensures GetStr(UpdateFields(u), KRoot) == Some(u.root)
    ensures GetStr(UpdateFields(u), KAuthToken) == Some(u.authToken)
    ensures GetStr(UpdateFields(u), KAuthTokenCamel) == Some("")
  {
    UpdateStr(u, KRoot, u.root);
    UpdateStr(u, KAuthToken, u.authToken);
    UpdateStr(u, KAuthTokenCamel, "");
  }

  lemma {:induction false} UpdateTimeout(u: UpdateConfig)
    ensures GetInt(UpdateFields(u), KTimeoutSeconds) == Some(u.timeoutSeconds)
    ensures GetInt(UpdateFields(u), KTimeoutSecondsCamel) == Some(0)
  {
    UpdateInt(u, KTimeoutSeconds, u.timeoutSeconds);
    UpdateInt(u, KTimeoutSecondsCamel, 0);
  }

  lemma {:induction false} UpdateMaxOutput(u: UpdateConfig)
    ensures GetInt(UpdateFields(u), KMaxOutputBytes) == Some(u.maxOutputBytes)
    ensures GetInt(UpdateFields(u), KMaxOutputBytesCamel) == Some(0)
  {
    UpdateInt(u, KMaxOutputBytes, u.maxOutputBytes);
    UpdateInt(u, KMaxOutputBytesCamel, 0);
  }

  lemma {:induction false} UpdateReadsBack(u: UpdateConfig)
    requires u.timeoutSeconds >= 0 && u.maxOutputBytes >= 0
    ensures DecodeUpdate(UpdateFields(u)) == Some(UpdateRead(u))
  {
    UpdateCommand(u);
    UpdateDownload(u);
    UpdateTexts(u);
    UpdateTimeout(u);
    UpdateMaxOutput(u);
    UpdateAssembles(UpdateFields(u), u);
  }

  predicate Encodable(c: Config) {
    (forall h <- c.hints :: HintTrimmed(h)) && c.update.timeoutSeconds >= 0 && c.update.maxOutputBytes >= 0
  }

  /** The members of the encoded host section. */
  function HostMember(c: Config, k: Key): Option<Json> {
    match k
    case KEnabled => Some(Bool(c.enabled))
    case KMethods => Some(if c.methods == [] then Null else Arr(EncodeStrings(c.methods)))
    case KUpdate => Some(Obj(UpdateFields(c.update)))
    case KWorkspaceHints => Member(c.hints == [], Arr(EncodeHints(c.hints)))
    case _ => None
  }

  lemma {:induction false} ThreeAndOneGet(enabled: Json, methods: Json, update: Json, noHints: bool, hints: Json,
      k: Key)
    ensures Get(map[KEnabled := enabled, KMethods := methods, KUpdate := update]
                + Unless(noHints, KWorkspaceHints, hints), k)
         == match k
            case KEnabled => Some(enabled)
            case KMethods => Some(methods)
            case KUpdate => Some(update)
            case KWorkspaceHints => Member(noHints, hints)
            case _ => None
  {
    UnlessGet(noHints, KWorkspaceHints, hints, k);
    UnionGet(map[KEnabled := enabled, KMethods := methods, KUpdate := update],
             Unless(noHints, KWorkspaceHints, hints), k);
  }

  lemma {:induction false} HostGet(c: Config, k: Key)
    ensures Get(HostFields(c), k) == HostMember(c, k)
  {
    ThreeAndOneGet(Bool(c.enabled), if c.methods == [] then Null else Arr(EncodeStrings(c.methods)),
                   Obj(UpdateFields(c.update)), c.hints == [], Arr(EncodeHints(c.hints)), k);
  }

  lemma {:induction false} MethodsRead(f: Fields, c: Config)
    requires Get(f, KMethods) == HostMember(c, KMethods)
    ensures GetStrings(f, KMethods) == Some(c.methods)
  {
    StringsReadBack(c.methods);
  }

  lemma {:induction false} HintsRead(f: Fields, c: Config)
    requires forall h <- c.hints :: HintTrimmed(h)
    requires Get(f, KWorkspaceHints) == HostMember(c, KWorkspaceHints)
    ensures GetHints(f, KWorkspaceHints) == Some(c.hints)
  {
    HintsReadBack(c.hints);
  }

  lemma {:induction false} HostAssembles(f: Fields, c: Config, u: Fields)
    requires Get(f, KEnabled) == Some(Bool(c.enabled)) && Get(f, KUpdate) == Some(Obj(u))
    requires GetStrings(f, KMethods) == Some(c.methods) && GetHints(f, KWorkspaceHints) == Some(c.hints)
    requires DecodeUpdate(u) == Some(UpdateRead(c.update))
    ensures DecodeHost(f) == Some(FileHost(c.enabled, c.methods, c.hints, UpdateRead(c.update)))
  {
  }

  lemma {:induction false} HostReadsBack(c: Config)
    requires Encodable(c)
    ensures DecodeHost(HostFields(c)) == Some(FileHost(c.enabled, c.methods, c.hints, UpdateRead(c.update)))
  {
    HostGet(c, KMethods);
    MethodsRead(HostFields(c), c);
    HostGet(c, KWorkspaceHints);
    HintsRead(HostFields(c), c);
    HostGet(c, KEnabled);
    HostGet(c, KUpdate);
    UpdateReadsBack(c.update);
    HostAssembles(HostFields(c), c, UpdateFields(c.update));
  }

  lemma {:induction false} GatewayReadsBack(c: Config)
    ensures DecodeGateway(GatewayFields(c)) == Some(Gateway(c.wsUrl, c.tlsMode, c.tlsFingerprint))
  {
  }

  /** The file a configuration is saved as, decoded. */
  function FileOf(c: Config): FileConfig {
    FileConfig(Some(Gateway(c.wsUrl, c.tlsMode, c.tlsFingerprint)), c.displayName, c.heartbeatSeconds,
               Some(FileHost(c.enabled, c.methods, c.hints, UpdateRead(c.update))), Some(c.logLevel))
  }

  lemma {:induction false} LiftedReads(components: Fields, gateway: Fields, logging: Fields, c: Config)
    requires DecodeGateway(gateway) == Some(Gateway(c.wsUrl, c.tlsMode, c.tlsFingerprint))
    requires DecodeComponents(components) == Some(FileHost(c.enabled, c.methods, c.hints, UpdateRead(c.update)))
    requires GetStr(logging, KLevel) == Some(c.logLevel)
    ensures Lift(DecodeGateway(gateway)) == Some(FileOf(c).gateway)
    ensures Lift(DecodeComponents(components)) == Some(FileOf(c).host)
    ensures Lift(GetStr(logging, KLevel)) == Some(FileOf(c).level)
  {
  }

  lemma {:induction false} FieldsReadBack(c: Config, f: Fields, gateway: Fields, components: Fields, logging: Fields)
    requires GetFields(f, KGateway) == Some(Some(gateway)) && Lift(DecodeGateway(gateway)) == Some(FileOf(c).gateway)
    requires GetStr(f, KDisplayName) == Some(c.displayName) && GetInt(f, KHeartbeatSeconds) == Some(c.heartbeatSeconds)
    requires GetFields(f, KComponents) == Some(Some(components))
    requires Lift(DecodeComponents(components)) == Some(FileOf(c).host)
    requires GetFields(f, KLogging) == Some(Some(logging)) && Lift(GetStr(logging, KLevel)) == Some(FileOf(c).level)
    ensures DecodeFields(f) == Some(FileOf(c))
  {
  }

  lemma {:induction false} ComponentsReadBack(host: Fields, r: FileHost)
    requires DecodeHost(host) == Some(r)
    ensures DecodeComponents(map[KHost := Obj(host)]) == Some(r)
  {
  }

  lemma {:induction false} FiveGet(gateway: Fields, name: string, heartbeat: int, components: Fields, logging: Fields)
    ensures var f := map[KGateway := Obj(gateway), KDisplayName := Str(name), KHeartbeatSeconds := Num(heartbeat),
                         KComponents := Obj(components), KLogging := Obj(logging)];
            && GetFields(f, KGateway) == Some(Some(gateway)) && GetStr(f, KDisplayName) == Some(name)
            && GetInt(f, KHeartbeatSeconds) == Some(heartbeat) && GetFields(f, KComponents) == Some(Some(components))
            && GetFields(f, KLogging) == Some(Some(logging))
  {
  }

  lemma {:induction false} TreeReadsBack(c: Config)
    requires Encodable(c)
    ensures Decode(Encode(c)) == Some(FileOf(c))
  {
    GatewayReadsBack(c);
    HostReadsBack(c);
    AssembleTree(c, GatewayFields(c), HostFields(c));
  }

  lemma {:induction false} AssembleTree(c: Config, gateway: Fields, host: Fields)
    requires DecodeGateway(gateway) == Some(Gateway(c.wsUrl, c.tlsMode, c.tlsFingerprint))
    requires DecodeHost(host) == Some(FileHost(c.enabled, c.methods, c.hints, UpdateRead(c.update)))
    ensures DecodeFields(map[
      KGateway := Obj(gateway),
      KDisplayName := Str(c.displayName),
      KHeartbeatSeconds := Num(c.heartbeatSeconds),
      KComponents := Obj(map[KHost := Obj(host)]),
      KLogging := Obj(map[KLevel := Str(c.logLevel)])]) == Some(FileOf(c))
  {
    ComponentsReadBack(host, FileHost(c.enabled, c.methods, c.hints, UpdateRead(c.update)));
    LevelReads(c.logLevel);
    var components, logging := map[KHost := Obj(host)], map[KLevel := Str(c.logLevel)];
    LiftedReads(components, gateway, logging, c);
    FiveGet(gateway, c.displayName, c.heartbeatSeconds, components, logging);
    FieldsReadBack(c, map[
      KGateway := Obj(gateway),
      KDisplayName := Str(c.displayName),
      KHeartbeatSeconds := Num(c.heartbeatSeconds),
      KComponents := Obj(components),
      KLogging := Obj(logging)], gateway, components, logging);
  }

  lemma {:induction false} LevelReads(level: string)
    ensures GetStr(map[KLevel := Str(level)], KLevel) == Some(level)
  {
  }

  // ---------------------------------------------------------------- the normal form settles

  predicate NormalHintList(hints: seq<Hint>) {
    && (forall h <- hints :: HintTrimmed(h) && h != Hint("", ""))
    && NoDuplicates(HintKeys(hints))
  }

  lemma {:induction false} HintKeysExtend(hints: seq<Hint>, last: Hint)
    ensures HintKeys(hints + [last]) == HintKeys(hints) + [HintKey(last)]
  {
  }

  lemma {:induction false} HintsAreNormal(hints: seq<Hint>)
    ensures NormalHintList(NormalHints(hints))
  {
    if hints != [] {
      HintsAreNormal(hints[..|hints| - 1]);
      HintKeysExtend(NormalHints(hints[..|hints| - 1]), TrimHint(hints[|hints| - 1]));
    }
  }

  lemma {:induction false} NormalHintsStep(before: seq<Hint>, last: Hint)
    requires NormalHints(before) == before && TrimHint(last) == last && last != Hint("", "")
    requires HintKey(last) !in HintKeys(before)
    ensures NormalHints(before + [last]) == before + [last]
  {
    assert (before + [last])[..|before|] == before;
  }

  lemma {:induction false} NormalIsNew(hints: seq<Hint>, i: nat)
    requires NormalHintList(hints) && i < |hints|
    ensures TrimHint(hints[i]) == hints[i] && hints[i] != Hint("", "") && HintKey(hints[i]) !in HintKeys(hints[..i])
  {
    assert hints[i] in hints;
    assert HintKeys(hints[..i]) == HintKeys(hints)[..i];
    assert HintKeys(hints)[i] == HintKey(hints[i]);
  }

  /** The first `n` hints are their own normal form. */
  predicate NormalTo(hints: seq<Hint>, n: nat)
    requires n <= |hints|
  {
    NormalHints(hints[..n]) == hints[..n]
  }

  lemma {:induction false} NewExtends(hints: seq<Hint>, i: nat)
    requires i < |hints| && NormalTo(hints, i)
    requires TrimHint(hints[i]) == hints[i] && hints[i] != Hint("", "") && HintKey(hints[i]) !in HintKeys(hints[..i])
    ensures NormalTo(hints, i + 1)
  {
    TakeNext(hints, i);
    NormalHintsStep(hints[..i], hints[i]);
  }

  lemma {:induction false} PrefixFixpoint(hints: seq<Hint>, n: nat)
    requires n <= |hints| && forall i: nat :: i < |hints| && NormalTo(hints, i) ==> NormalTo(hints, i + 1)
    ensures NormalTo(hints, n)
  {
    if n > 0 {
      PrefixFixpoint(hints, n - 1);
      assert NormalTo(hints, n - 1 + 1);
    }
  }

  /** A normal list is its own normal form. */
  lemma {:induction false} HintsFixpoint(hints: seq<Hint>)
    requires NormalHintList(hints)
    ensures NormalHints(hints) == hints
  {
    forall i: nat | i < |hints| && NormalTo(hints, i) ensures NormalTo(hints, i + 1) {
      NormalIsNew(hints, i);
      NewExtends(hints, i);
    }
    PrefixFixpoint(hints, |hints|);
    TakeAll(hints);
  }

  /** With no NUL in either name the joined keys tell two hints apart exactly when the pairs differ. */
  lemma {:induction false} KeyIsPair(a: Hint, b: Hint)
    requires '\U{00}' !in a.name && '\U{00}' !in b.name
    ensures HintKey(a) == HintKey(b) <==> a == b
  {
    if HintKey(a) == HintKey(b) {
      NoShorterName(a, b);
      NoShorterName(b, a);
      assert HintKey(a)[..|a.name|] == a.name && HintKey(b)[..|b.name|] == b.name;
      assert HintKey(a)[|a.name| + 1..] == a.rootPath && HintKey(b)[|b.name| + 1..] == b.rootPath;
    }
  }

  lemma {:induction false} NoShorterName(a: Hint, b: Hint)
    requires '\U{00}' !in b.name && HintKey(a) == HintKey(b)
    ensures |b.name| <= |a.name|
  {
    var i := |a.name|;
    assert HintKey(a)[i] == '\U{00}';
    assert forall j :: 0 <= j < |b.name| ==> HintKey(b)[j] == b.name[j];
  }

  /** A fallback that the trim-then-default step leaves alone. */
  predicate Settles(fallback: string) {
    Trimmed(fallback) || Trim(fallback) == ""
  }

  /** Trim, then default: the result is a fixpoint unless it is an untrimmed fallback. */
  lemma {:induction false} DefaultSettles(s: string, fallback: string)
    ensures var r := OrElse(Trim(s), fallback);
            OrElse(Trim(r), fallback) == r <==> (Trim(s) != "" || Settles(fallback))
  {
  }

  // ---------------------------------------------------------------- the theorem

  /** Does the update section survive normalisation? */
  predicate Updates(c: Config) {
    c.enabled && HasCommand(c.update.command)
  }

  /** A fallback that normalisation needed must itself be trimmed or blank. */
  predicate FallbacksSettle(c: Config, h: Host) {
    && (Trim(c.displayName) != "" || Settles(h.hostname))
    && (Updates(c) ==> Trim(c.update.root) != "" || Settles(h.updateRoot))
  }

  /** The configurations that saving and loading bring back: besides the fallbacks, a surviving update
      section must have `download` set. */
  predicate Restorable(c: Config, h: Host) {
    FallbacksSettle(c, h) && (Updates(c) ==> c.update.download)
  }

  lemma {:induction false} UpdateNormalTwice(u: UpdateConfig, updateRoot: string)
    ensures var n := NormalUpdate(u, updateRoot);
            var again := NormalUpdate(UpdateRead(n), updateRoot);
            again == if HasCommand(u.command) then n.(root := OrElse(Trim(n.root), updateRoot), download := true)
                     else NO_UPDATE
  {
    KeptAreTrimmed(u.command);
    KeptFixpoint(Kept(u.command));
  }

  /** Normal fields, one by one. */
  lemma {:induction false} NormalFacts(c: Config, h: Host)
    requires Normalize(c, h).Ok?
    ensures var n := Normalize(c, h).value;
            && Encodable(n) && n.enabled == c.enabled && n.wsUrl == c.wsUrl && n.tlsFingerprint == c.tlsFingerprint
            && n.heartbeatSeconds > 0 && n.displayName == OrElse(Trim(c.displayName), h.hostname)
            && TlsModeOk(n.tlsMode) && n.tlsMode == NormalTlsMode(c.tlsMode)
            && n.logLevel == NormalLevel(c.logLevel)
            && (!c.enabled ==> n.methods == [] && n.hints == [] && n.update == NO_UPDATE)
            && (c.enabled ==> && n.methods == NormalMethods(c.methods, METHODS).methods
                              && n.hints == NormalHints(c.hints) && n.update == NormalUpdate(c.update, h.updateRoot))
  {
    HintsAreNormal(c.hints);
  }

  /** With neither environment nor options the outer layers change nothing. */
  lemma {:induction false} EmptyLayers(c: Config)
    ensures WithEnv(c, TrimEnv(NO_ENV)) == Some(c) && WithOptions(c, NO_OPTIONS) == c
  {
    assert Trim("") == "";
  }

  /** What the file layer makes of a saved normal form. */
  lemma {:induction false} FileLayer(n: Config, h: Host)
    requires n.tlsMode != "" && n.heartbeatSeconds > 0 && n.logLevel != ""
    requires n.enabled ==> n.methods != []
    ensures var r := WithFile(DefaultConfig(h), FileOf(n));
            && r.wsUrl == n.wsUrl && r.tlsMode == n.tlsMode && r.tlsFingerprint == n.tlsFingerprint
            && r.displayName == OrElse(n.displayName, h.hostname) && r.heartbeatSeconds == n.heartbeatSeconds
            && r.logLevel == n.logLevel && r.enabled == n.enabled && r.hints == n.hints
            && (n.enabled ==> r.methods == n.methods)
            && r.update == if n.update.command == [] then NO_UPDATE else UpdateRead(n.update)
  {
  }

  /** The normal form of the loaded file, field by field against the saved normal form. */
  function Reloaded(c: Config, n: Config, h: Host): Config {
    n.(displayName := OrElse(Trim(n.displayName), h.hostname),
       update := if Updates(c) then n.update.(root := OrElse(Trim(n.update.root), h.updateRoot), download := true)
                 else NO_UPDATE)
  }

  lemma {:induction false} LowerSettles(s: string, fallback: string)
    requires Trim(Lower(fallback)) == fallback
    ensures var r := OrElse(Trim(Lower(s)), fallback);
            OrElse(Trim(Lower(r)), fallback) == r
  {
    LowerTrimIdempotent(s);
  }

  lemma {:induction false} FallbacksAreLower()
    ensures Trim(Lower(SYSTEM)) == SYSTEM && Trim(Lower("info")) == "info"
  {
    assert Lower(SYSTEM) == SYSTEM && Lower("info") == "info";
  }

  lemma {:induction false} ModeSettles(c: Config)
    ensures NormalTlsMode(NormalTlsMode(c.tlsMode)) == NormalTlsMode(c.tlsMode)
    ensures NormalLevel(NormalLevel(c.logLevel)) == NormalLevel(c.logLevel)
  {
    FallbacksAreLower();
    LowerSettles(c.tlsMode, SYSTEM);
    LowerSettles(c.logLevel, "info");
  }

  lemma {:induction false} UpdateAgain(c: Config, h: Host)
    requires c.enabled
    ensures var n := NormalUpdate(c.update, h.updateRoot);
            var r := if n.command == [] then NO_UPDATE else UpdateRead(n);
            var again := NormalUpdate(r, h.updateRoot);
            again == if Updates(c) then n.(root := OrElse(Trim(n.root), h.updateRoot), download := true) else NO_UPDATE
  {
    UpdateNormalTwice(c.update, h.updateRoot);
  }

  lemma {:induction false} NormalizeAgain(c: Config, n: Config, r: Config, h: Host)
    requires Normalize(c, h) == Ok(n)
    requires r.wsUrl == n.wsUrl && r.tlsMode == n.tlsMode && r.tlsFingerprint == n.tlsFingerprint
    requires r.displayName == OrElse(n.displayName, h.hostname) && r.heartbeatSeconds == n.heartbeatSeconds
    requires r.logLevel == n.logLevel && r.enabled == n.enabled && r.hints == n.hints
    requires n.enabled ==> r.methods == n.methods && NormalMethods(n.methods, METHODS) == Accepted(n.methods)
    requires r.update == if n.update.command == [] then NO_UPDATE else UpdateRead(n.update)
    ensures Normalize(r, h) == Ok(Reloaded(c, n, h))
  {
    NormalFacts(c, h);
    ModeSettles(c);
    if c.enabled {
      HintsAreNormal(c.hints);
      HintsFixpoint(n.hints);
      UpdateAgain(c, h);
    }
  }

  lemma {:induction false} TreeLayer(c: Config, json: Json, f: FileConfig)
    requires Decode(json) == Some(f)
    ensures FromFile(c, Tree(json)) == Ok(WithFile(c, f))
  {
  }

  lemma {:induction false} LoadFrom(file: File, c: Config, h: Host)
    requires FromFile(DefaultConfig(h), file) == Ok(c)
    ensures Load(file, NO_ENV, NO_OPTIONS, h) == Normalize(c, h)
  {
    EmptyLayers(c);
  }

  lemma {:induction false} LoadUnfolds(json: Json, f: FileConfig, h: Host)
    requires Decode(json) == Some(f)
    ensures Load(Tree(json), NO_ENV, NO_OPTIONS, h) == Normalize(WithFile(DefaultConfig(h), f), h)
  {
    TreeLayer(DefaultConfig(h), json, f);
    LoadFrom(Tree(json), WithFile(DefaultConfig(h), f), h);
  }

  lemma {:induction false} LoadedIsNormal(c: Config, h: Host)
    requires Normalize(c, h).Ok?
    ensures var n := Normalize(c, h).value;
            Normalize(WithFile(DefaultConfig(h), FileOf(n)), h) == Ok(Reloaded(c, n, h))
  {
    var n := Normalize(c, h).value;
    NormalFacts(c, h);
    MethodsListFacts();
    if c.enabled {
      NormalMethodsFixpoint(c.methods, METHODS);
    }
    FileLayer(n, h);
    NormalizeAgain(c, n, WithFile(DefaultConfig(h), FileOf(n)), h);
  }

  lemma {:induction false} LoadAfterSave(c: Config, h: Host)
    requires Normalize(c, h).Ok?
    ensures var n := Normalize(c, h).value;
            Load(Tree(Encode(n)), NO_ENV, NO_OPTIONS, h) == Ok(Reloaded(c, n, h))
  {
    var n := Normalize(c, h).value;
    NormalFacts(c, h);
    TreeReadsBack(n);
    LoadUnfolds(Encode(n), FileOf(n), h);
    LoadedIsNormal(c, h);
  }

  /** Loading a saved configuration gives its normal form if and only if the configuration is restorable. */
  lemma {:induction false} RoundTrip(c: Config, h: Host)
    requires Save(c, h).Ok?
    ensures Load(Tree(Save(c, h).value), NO_ENV, NO_OPTIONS, h) == Normalize(c, h) <==> Restorable(c, h)
  {
    var n := Normalize(c, h).value;
    LoadAfterSave(c, h);
    NormalFacts(c, h);
    DefaultSettles(c.displayName, h.hostname);
    DefaultSettles(c.update.root, h.updateRoot);
    if Updates(c) {
      assert n.update.root == OrElse(Trim(c.update.root), h.updateRoot) && n.update.download == c.update.download;
    }
  }

  /** On a host whose name and temporary directory are trimmed, the only loss is `download: false` beside
      a surviving update command: it comes back true and nothing else changes. */
  lemma {:induction false} DownloadComesBack(c: Config, h: Host)
    requires HostOk(h) && Save(c, h).Ok?
    ensures Restorable(c, h) <==> !(Updates(c) && !c.update.download)
    ensures var n := Normalize(c, h).value;
            var loaded := Load(Tree(Save(c, h).value), NO_ENV, NO_OPTIONS, h);
            loaded == Ok(if Restorable(c, h) then n else n.(update := n.update.(download := true)))
  {
    LoadAfterSave(c, h);
    NormalFacts(c, h);
  }

  lemma {:induction false} AllMethodsAccepted()
    ensures NormalMethods(METHODS, METHODS).Accepted?
  {
    MethodsListFacts();
    KeptFixpoint(METHODS);
  }

  lemma {:induction false} DefaultsNormalize(c: Config, h: Host)
    requires c.tlsMode == SYSTEM && c.methods == METHODS
    ensures Normalize(c, h).Ok?
  {
    FallbacksAreLower();
    AllMethodsAccepted();
  }

  lemma {:induction false} OneCommand(item: string)
    requires Trim(item) != ""
    ensures HasCommand([item])
  {
    assert [item][..0] == [];
  }

  /** The loss is real: the defaults with an update command and `download` off save without complaint and
      come back different. */
  lemma {:induction false} DownloadIsLost(h: Host, item: string)
    requires HostOk(h) && Trim(item) != ""
    ensures var c := DefaultConfig(h).(update := NO_UPDATE.(command := [item]));
            Save(c, h).Ok? && Load(Tree(Save(c, h).value), NO_ENV, NO_OPTIONS, h) != Normalize(c, h)
  {
    var c := DefaultConfig(h).(update := NO_UPDATE.(command := [item]));
    DefaultsNormalize(c, h);
    OneCommand(item);
    RoundTrip(c, h);
  }

  /** All but the display name and the update section of a normal form is a fixpoint. */
  lemma {:induction false} NormalizeKeeps(n: Config, h: Host)
    requires NormalTlsMode(n.tlsMode) == n.tlsMode && TlsModeOk(n.tlsMode) && n.heartbeatSeconds > 0
    requires NormalLevel(n.logLevel) == n.logLevel
    requires n.enabled ==> NormalMethods(n.methods, METHODS) == Accepted(n.methods) && NormalHints(n.hints) == n.hints
    requires !n.enabled ==> n.methods == [] && n.hints == []
    ensures Normalize(n, h)
         == Ok(n.(displayName := OrElse(Trim(n.displayName), h.hostname),
                  update := if n.enabled then NormalUpdate(n.update, h.updateRoot) else NO_UPDATE))
  {
  }

  lemma {:induction false} UpdateNormalOnce(u: UpdateConfig, updateRoot: string)
    ensures var n := NormalUpdate(u, updateRoot);
            var again := NormalUpdate(n, updateRoot);
            again == (if HasCommand(u.command) then n.(root := OrElse(Trim(n.root), updateRoot)) else NO_UPDATE)
  {
    KeptAreTrimmed(u.command);
    KeptFixpoint(Kept(u.command));
  }

  /** Normalisation is idempotent exactly when the fallbacks it used settle. */
  lemma {:induction false} NormalizeTwice(c: Config, h: Host)
    requires Normalize(c, h).Ok?
    ensures Normalize(Normalize(c, h).value, h) == Normalize(c, h) <==> FallbacksSettle(c, h)
  {
    var n := Normalize(c, h).value;
    NormalFacts(c, h);
    ModeSettles(c);
    MethodsListFacts();
    if c.enabled {
      NormalMethodsFixpoint(c.methods, METHODS);
      HintsAreNormal(c.hints);
      HintsFixpoint(n.hints);
    }
    NormalizeKeeps(n, h);
    DefaultSettles(c.displayName, h.hostname);
    DefaultSettles(c.update.root, h.updateRoot);
    UpdateNormalOnce(c.update, h.updateRoot);
  }
}
