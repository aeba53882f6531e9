/** From the configuration to the advertised method list: internal/config/config.go feeds the runner factory
    of internal/cli/cli.go, which builds internal/host/component.go. Both packages check the list. */
module Advertisement {
  import opened Text
  import opened HostMethods
  import opened Config
  import opened ConfigLoad
  import opened ConfigRoundTrip

  /** The list the component built from a configuration advertises. */
  function Offered(c: Config): MethodsResult {
    Advertised(c.methods, c.update.command)
  }

  lemma {:induction false} CommandSettles(u: UpdateConfig, updateRoot: string)
    ensures HasCommand(NormalUpdate(u, updateRoot).command) <==> HasCommand(u.command)
  {
    KeptAreTrimmed(u.command);
    KeptFixpoint(Kept(u.command));
  }

  lemma {:induction false} AcceptedTwice(methods: seq<string>, command: seq<string>, normal: seq<string>,
      kept: seq<string>)
    requires NormalMethods(methods, METHODS) == Accepted(normal) && (HasCommand(kept) <==> HasCommand(command))
    ensures Advertised(normal, kept) == Advertised(methods, command) && Advertised(normal, kept).Accepted?
  {
    MethodsListFacts();
    NormalMethodsFixpoint(methods, METHODS);
  }

  /** The component accepts what the configuration accepted: with the host enabled, normalising first
      changes nothing of what is advertised; with the host off, it is all but the self-update method. */
  lemma {:induction false} NormalizedIsOffered(c: Config, h: Host)
    requires Normalize(c, h).Ok?
    ensures var n := Normalize(c, h).value;
            && Offered(n).Accepted?
            && Offered(n) == if c.enabled then Offered(c) else Accepted(Without(METHODS, UPDATE_METHOD))
  {
    NormalFacts(c, h);
    var n := Normalize(c, h).value;
    if c.enabled {
      CommandSettles(c.update, h.updateRoot);
      AcceptedTwice(c.methods, c.update.command, n.methods, n.update.command);
    } else {
      assert !HasCommand(NO_UPDATE.command);
    }
  }

  /** `r` advertises, of the methods asked for, the first occurrence of each in order, and leaves out only the
      self-update method when no update command survives. */
  ghost predicate Advertises(r: seq<string>, methods: seq<string>, command: seq<string>, at: seq<nat>) {
    && FirstOccurrenceOrder(Asked(methods), r, at) && NoDuplicates(r)
    && forall m :: m in r <==> m in Asked(methods) && (m != UPDATE_METHOD || HasCommand(command))
  }

  /** The methods the layers ask for: the environment's list, then the file's, then all. */
  function LayeredMethods(f: FileConfig, e: Env): seq<string> {
    FirstSet([ParsedList(e.hostMethods), if f.host.Some? then NonEmptyList(f.host.value.methods) else None], METHODS)
  }

  /** The update command they give: the environment's, then the file's, then none. */
  function LayeredCommand(f: FileConfig, e: Env): seq<string> {
    FirstSet([ParsedList(e.updateCommand), if f.host.Some? then Some(f.host.value.update.command) else None], [])
  }

  lemma {:induction false} TwoLayers<T>(a: Option<T>, b: Option<T>, fallback: T)
    ensures FirstSet([a, b], fallback) == if a.Some? then a.value else if b.Some? then b.value else fallback
  {
    assert [a, b][1..] == [b];
    assert FirstSet([b], fallback) == if b.Some? then b.value else fallback;
  }

  lemma {:induction false} LayersGive(h: Host, f: FileConfig, e: Env, o: Options)
    requires WithEnv(WithFile(DefaultConfig(h), f), e).Some?
    ensures var c := WithOptions(WithEnv(WithFile(DefaultConfig(h), f), e).value, o);
            c.methods == LayeredMethods(f, e) && c.update.command == LayeredCommand(f, e)
  {
    ListLayerOrder(h, f, e, o);
    UpdateLayerOrder(h, f, e, o);
    var host := if f.host.Some? then f.host.value else FileHost(false, [], [], NO_UPDATE);
    ThreeLayers(ParsedList(e.hostMethods), NonEmptyList(host.methods), None, METHODS);
    ThreeLayers(ParsedList(e.updateCommand), None, None, host.update.command);
    TwoLayers(ParsedList(e.hostMethods), if f.host.Some? then NonEmptyList(f.host.value.methods) else None, METHODS);
    TwoLayers(ParsedList(e.updateCommand), if f.host.Some? then Some(f.host.value.update.command) else None, []);
  }

  /** What a configuration file says; a missing one says nothing. */
  predicate Says(file: File, f: FileConfig) {
    match file
    case Missing => f == FileConfig(None, "", 0, None, None)
    case Broken => false
    case Tree(json) => Decode(json) == Some(f)
  }

  lemma {:induction false} LoadSteps(file: File, f: FileConfig, env: Env, o: Options, h: Host)
    requires Says(file, f) && Load(file, env, o, h).Ok?
    ensures var d := WithEnv(WithFile(DefaultConfig(h), f), TrimEnv(env));
            d.Some? && Load(file, env, o, h) == Normalize(WithOptions(d.value, o), h)
  {
    assert FromFile(DefaultConfig(h), file) == Ok(WithFile(DefaultConfig(h), f));
  }

  /** From the configuration file, the environment and the options to the advertised list: whenever loading
      succeeds with the host enabled, the component accepts, and it advertises the first occurrences of what
      the first layer with a list asks for. */
  lemma {:induction false} LoadedIsAdvertised(file: File, f: FileConfig, env: Env, o: Options, h: Host)
      returns (at: seq<nat>)
    requires Says(file, f) && Load(file, env, o, h).Ok? && Load(file, env, o, h).value.enabled
    ensures var n := Load(file, env, o, h).value;
            && Offered(n).Accepted?
            && Advertises(Offered(n).methods, LayeredMethods(f, TrimEnv(env)), LayeredCommand(f, TrimEnv(env)), at)
  {
    var e := TrimEnv(env);
    LoadSteps(file, f, env, o, h);
    LayersGive(h, f, e, o);
    var c := WithOptions(WithEnv(WithFile(DefaultConfig(h), f), e).value, o);
    NormalFacts(c, h);
    NormalizedIsOffered(c, h);
    at := AdvertisedMeaning(c.methods, c.update.command);
  }
}
