/** Where a runtime token may travel: internal/cli/pair_invite.go and internal/hostdrun/runner.go together.
    Any number of claims, each stage of each its own event, with daemons starting, connecting and stopping
    in between. A claim rewrites the configured gateway long before it stores the token it asks for; a
    daemon keeps the gateway it started with, and sends that gateway the token each attempt has loaded. */
module TokenTravel {
  import opened Text
  import opened ServiceOrigin

  /** A token and the invite whose service issued it; a blank text is no token. */
  datatype Token = Token(text: string, issuer: Option<Url>)

  const NO_TOKEN := Token("", None)

  /** A running daemon: its gateway, and the token its attempt has loaded and not yet sent. */
  datatype Daemon = Daemon(gateway: Url, loaded: Token)

  /** What a service issues; a blank answer is refused. */
  type Answer = s: string | Trim(s) != "" witness "x"

  /** The stages of `pairClaimInvite`: the configuration file is empty while it is rewritten; it is saved; the
      state has been read; the service has answered with a token; the token is stored. */
  datatype Stage =
    | Saving
    | Saved
    | Ready(held: Token, last: Option<Url>)
    | Answered(issued: Answer)
    | Stored

  /** A URL that `parseInviteURL` accepts. */
  type Invitation = u: Url | ParseInvite(Some(u)).Claim? witness Url(HTTP, "h", "", "c")

  datatype Pairing = Pairing(invite: Invitation, stage: Stage)

  /** The stored token, the configured gateway (none while the file cannot be read), the recorded one, the
      running daemon, and the claims under way. */
  datatype Link = Link(
    token: Token, configured: Option<Url>, last: Option<Url>, daemon: Option<Daemon>, claims: map<nat, Pairing>)

  datatype Event =
    // the stages of a claim
    | Begins(claim: nat, invite: Invitation)
    | Saves(claim: nat)
    | Reads(claim: nat)
    | Asks(claim: nat, issued: Answer)
    | Stores(claim: nat)
    | Records(claim: nat)
    | GivesUp(claim: nat)
    // the daemon, and the command that clears the token
    | Starts
    | Stops
    | Loads
    | Sends
    | Welcomed
    | Clears

  predicate Blank(t: Token) {
    Trim(t.text) == ""
  }

  predicate HasOrigin(url: Option<Url>) {
    NormalizeOrigin(url).Some?
  }

  /** A service is asked only when its URL has an origin. */
  predicate Enabled(l: Link, e: Event) {
    match e
    case Begins(c, _) => c !in l.claims
    case Saves(c) => c in l.claims && l.claims[c].stage.Saving?
    case Reads(c) => c in l.claims && l.claims[c].stage.Saved?
    case Asks(c, _) => c in l.claims && l.claims[c].stage.Ready? && HasOrigin(Some(l.claims[c].invite))
    case Stores(c) => c in l.claims && l.claims[c].stage.Answered?
    case Records(c) => c in l.claims && l.claims[c].stage.Stored?
    case GivesUp(c) => c in l.claims
    case Starts => l.daemon.None? && l.configured.Some?
    case Stops | Loads | Sends | Welcomed => l.daemon.Some?
    case Clears => true
  }

  /** The gateway an invite stands for. */
  function Gateway(invite: Invitation): Url {
    ParseInvite(Some(invite)).gateway
  }

  function To(l: Link, claim: nat, stage: Stage): map<nat, Pairing>
    requires claim in l.claims
  {
    l.claims[claim := l.claims[claim].(stage := stage)]
  }

  function Next(l: Link, e: Event): Link
    requires Enabled(l, e)
  {
    match e
    case Begins(c, invite) => l.(configured := None, claims := l.claims[c := Pairing(invite, Saving)])
    case Saves(c) => l.(configured := Some(Gateway(l.claims[c].invite)), claims := To(l, c, Saved))
    case Reads(c) => l.(claims := To(l, c, Ready(l.token, l.last)))
    case Asks(c, issued) => l.(claims := To(l, c, Answered(issued)))
    case Stores(c) =>
      l.(token := Token(Trim(l.claims[c].stage.issued), Some(l.claims[c].invite)), claims := To(l, c, Stored))
    case Records(c) => l.(last := Some(Gateway(l.claims[c].invite)), claims := l.claims - {c})
    case GivesUp(c) => l.(claims := l.claims - {c})
    case Starts => l.(daemon := Some(Daemon(l.configured.value, NO_TOKEN)))
    case Stops => l.(daemon := None)
    case Loads => l.(daemon := Some(l.daemon.value.(loaded := l.token)))
    case Sends => l.(daemon := Some(l.daemon.value.(loaded := NO_TOKEN)))
    case Welcomed => l.(last := Some(l.daemon.value.gateway))
    case Clears => l.(token := NO_TOKEN)
  }

  /** Going to `url`, the token would reach the origin that issued it. */
  predicate MayGo(t: Token, url: Option<Url>) {
    Blank(t) || SameOrigin(t.issuer, url)
  }

  /** The request of a claim that read this token and this recorded gateway is at home: if it carries the
      token, it goes to the token's issuer. */
  predicate RequestHome(t: Token, last: Option<Url>, invite: Url) {
    CarriesToken(t.text, last, invite) ==> SameOrigin(t.issuer, Some(invite))
  }

  /** If the event sends a token, it sends it to the origin that issued it. */
  predicate AtHome(l: Link, e: Event)
    requires Enabled(l, e)
  {
    match e
    case Asks(c, _) => RequestHome(l.claims[c].stage.held, l.claims[c].stage.last, l.claims[c].invite)
    case Sends => MayGo(l.daemon.value.loaded, Some(l.daemon.value.gateway))
    case _ => true
  }

  // ---------------------------------------------------------------- runs

  /** The events can happen one after the other. */
  predicate Happens(l: Link, events: seq<Event>)
    decreases |events|
  {
    events == [] || (Enabled(l, events[0]) && Happens(Next(l, events[0]), events[1..]))
  }

  function After(l: Link, events: seq<Event>): Link
    requires Happens(l, events)
    decreases |events|
  {
    if events == [] then l else After(Next(l, events[0]), events[1..])
  }

  /** Every sending of the run goes to the issuer of the token sent. */
  predicate AllAtHome(l: Link, events: seq<Event>)
    requires Happens(l, events)
    decreases |events|
  {
    events == [] || (AtHome(l, events[0]) && AllAtHome(Next(l, events[0]), events[1..]))
  }

  /** The event is no stage of a claim. */
  predicate Quiet(e: Event) {
    e.Starts? || e.Stops? || e.Loads? || e.Sends? || e.Welcomed? || e.Clears?
  }

  predicate AllQuiet(events: seq<Event>) {
    forall e <- events :: Quiet(e)
  }

  /** One claim begins and goes straight to its request. */
  function ToRequest(claim: nat, invite: Invitation, issued: Answer): seq<Event> {
    [Begins(claim, invite), Saves(claim), Reads(claim)] + [Asks(claim, issued)]
  }

  ghost predicate Straight(events: seq<Event>) {
    exists c: nat, invite: Invitation, issued: Answer :: events == ToRequest(c, invite, issued)
  }

  /** What can happen of itself: the daemon does what it does, and then a request already under way is made,
      or one claim goes straight to its request. */
  ghost predicate Imminent(quiet: seq<Event>, last: seq<Event>) {
    AllQuiet(quiet) && (last == [] || (|last| == 1 && last[0].Asks?) || Straight(last))
  }

  /** No token can be sent anywhere but home by what can happen of itself. */
  ghost predicate Secure(l: Link) {
    forall quiet: seq<Event>, last: seq<Event> ::
      Imminent(quiet, last) && Happens(l, quiet + last) ==> AllAtHome(l, quiet + last)
  }

  // ---------------------------------------------------------------- when a token is secure

  predicate DaemonHonest(l: Link) {
    l.daemon.Some? ==>
      var gateway := Some(l.daemon.value.gateway);
      MayGo(l.token, gateway) && MayGo(l.daemon.value.loaded, gateway)
  }

  predicate PairingHonest(p: Pairing) {
    p.stage.Ready? ==> RequestHome(p.stage.held, p.stage.last, p.invite)
  }

  predicate ClaimsHonest(claims: map<nat, Pairing>) {
    forall c <- claims :: PairingHonest(claims[c])
  }

  /** Whatever may be sent a token has the origin of its issuer: the daemon's gateway, the one a new daemon
      would take, the one the next claim is compared with, and the services about to be asked. */
  predicate Honest(l: Link) {
    && DaemonHonest(l)
    && (l.configured.Some? ==> MayGo(l.token, l.configured))
    && (HasOrigin(l.last) ==> MayGo(l.token, l.last))
    && ClaimsHonest(l.claims)
  }

  lemma {:induction false} HonestSendsHome(l: Link, e: Event)
    requires Honest(l) && Enabled(l, e)
    ensures AtHome(l, e)
  {
    if e.Asks? {
      assert PairingHonest(l.claims[e.claim]);
    }
  }

  lemma {:induction false} QuietKeepsHonest(l: Link, e: Event)
    requires Honest(l) && Enabled(l, e) && Quiet(e)
    ensures Honest(Next(l, e))
  {
  }

  lemma {:induction false} QuietRunIsHome(l: Link, events: seq<Event>)
    requires Honest(l) && AllQuiet(events) && Happens(l, events)
    ensures AllAtHome(l, events) && Honest(After(l, events))
    decreases |events|
  {
    if events != [] {
      HonestSendsHome(l, events[0]);
      QuietKeepsHonest(l, events[0]);
      QuietRunIsHome(Next(l, events[0]), events[1..]);
    }
  }

  lemma {:induction false} HappensJoin(l: Link, front: seq<Event>, back: seq<Event>)
    ensures Happens(l, front + back) <==> Happens(l, front) && Happens(After(l, front), back)
    ensures Happens(l, front + back) ==>
              && After(l, front + back) == After(After(l, front), back)
              && (AllAtHome(l, front + back) <==> AllAtHome(l, front) && AllAtHome(After(l, front), back))
    decreases |front|
  {
    if front == [] {
      assert front + back == back;
    } else {
      assert (front + back)[1..] == front[1..] + back;
      if Enabled(l, front[0]) {
        HappensJoin(Next(l, front[0]), front[1..], back);
      }
    }
  }

  lemma {:induction false} OneEvent(l: Link, e: Event)
    ensures Happens(l, [e]) <==> Enabled(l, e)
    ensures Happens(l, [e]) ==> After(l, [e]) == Next(l, e) && (AllAtHome(l, [e]) <==> AtHome(l, e))
  {
    assert [e][1..] == [];
  }

  lemma {:induction false} Unfold(l: Link, e: Event, events: seq<Event>)
    requires Enabled(l, e) && Happens(Next(l, e), events)
    ensures Happens(l, [e] + events) && After(l, [e] + events) == After(Next(l, e), events)
    ensures AllAtHome(l, [e] + events) <==> AtHome(l, e) && AllAtHome(Next(l, e), events)
  {
    assert ([e] + events)[1..] == events;
  }

  /** A claim about to make its request, having gone straight there. */
  function Requesting(l: Link, c: nat, invite: Invitation): Link {
    l.(configured := Some(Gateway(invite)), claims := l.claims[c := Pairing(invite, Ready(l.token, l.last))])
  }

  lemma {:induction false} ReachesRequest(l: Link, c: nat, invite: Invitation)
    requires c !in l.claims
    ensures var events := [Begins(c, invite), Saves(c), Reads(c)];
            Happens(l, events) && AllAtHome(l, events) && After(l, events) == Requesting(l, c, invite)
  {
    var begun := l.(configured := None, claims := l.claims[c := Pairing(invite, Saving)]);
    var saved := l.(configured := Some(Gateway(invite)), claims := l.claims[c := Pairing(invite, Saved)]);
    assert To(begun, c, Saved) == saved.claims;
    assert To(saved, c, Ready(l.token, l.last)) == Requesting(l, c, invite).claims;
    OneEvent(saved, Reads(c));
    Unfold(begun, Saves(c), [Reads(c)]);
    assert [Saves(c)] + [Reads(c)] == [Saves(c), Reads(c)];
    Unfold(l, Begins(c, invite), [Saves(c), Reads(c)]);
    assert [Begins(c, invite)] + [Saves(c), Reads(c)] == [Begins(c, invite), Saves(c), Reads(c)];
  }

  lemma {:induction false} RequestFacts(m: Link, c: nat, p: Pairing, issued: Answer)
    requires c in m.claims && m.claims[c] == p && p.stage.Ready?
    ensures Happens(m, [Asks(c, issued)]) <==> HasOrigin(Some(p.invite))
    ensures Happens(m, [Asks(c, issued)]) ==>
              (AllAtHome(m, [Asks(c, issued)]) <==> RequestHome(p.stage.held, p.stage.last, p.invite))
  {
    OneEvent(m, Asks(c, issued));
  }

  /** A claim that goes straight to its request compares what was stored and recorded when it began. */
  lemma {:induction false} ToRequestFacts(l: Link, c: nat, invite: Invitation, issued: Answer)
    ensures Happens(l, ToRequest(c, invite, issued)) <==> c !in l.claims && HasOrigin(Some(invite))
    ensures Happens(l, ToRequest(c, invite, issued)) ==>
              (AllAtHome(l, ToRequest(c, invite, issued)) <==> RequestHome(l.token, l.last, invite))
  {
    if c in l.claims {
      assert !Enabled(l, ToRequest(c, invite, issued)[0]);
    } else {
      ReachesRequest(l, c, invite);
      HappensJoin(l, [Begins(c, invite), Saves(c), Reads(c)], [Asks(c, issued)]);
      RequestFacts(Requesting(l, c, invite), c, Pairing(invite, Ready(l.token, l.last)), issued);
    }
  }

  lemma {:induction false} StraightIsHome(l: Link, events: seq<Event>)
    requires Honest(l) && Straight(events) && Happens(l, events)
    ensures AllAtHome(l, events)
  {
    var c: nat, invite: Invitation, issued: Answer :| events == ToRequest(c, invite, issued);
    ToRequestFacts(l, c, invite, issued);
    SameOriginIsPartialEquivalence(l.token.issuer, l.last, Some(invite));
  }

  lemma {:induction false} HonestIsSecure(l: Link)
    requires Honest(l)
    ensures Secure(l)
  {
    forall quiet: seq<Event>, last: seq<Event> | Imminent(quiet, last) && Happens(l, quiet + last)
      ensures AllAtHome(l, quiet + last)
    {
      HappensJoin(l, quiet, last);
      QuietRunIsHome(l, quiet);
      var now := After(l, quiet);
      if |last| == 1 {
        assert last == [last[0]];
        OneEvent(now, last[0]);
        HonestSendsHome(now, last[0]);
      } else if last != [] {
        StraightIsHome(now, last);
      }
    }
  }

  // ---------------------------------------------------------------- when it is not

  lemma {:induction false} BlankHost(host: string)
    requires Trim(host) == ""
    ensures SplitHostPort(host) == (host, "")
  {
    TrimLeftRemoves(host, IsSpace);
    TrimRightRemoves(TrimLeft(host, IsSpace), IsSpace);
    assert forall k :: 0 <= k < |host| ==> IsSpace(host[k]);
  }

  /** An invite to the service of any URL that has an origin. */
  function InviteTo(u: Url): Url
    requires HasOrigin(Some(u))
  {
    Url(if Security(u.scheme).value then HTTPS else HTTP, u.host, u.path, "x")
  }

  lemma {:induction false} OriginHasHost(u: Url)
    requires HasOrigin(Some(u))
    ensures Trim(u.host) != ""
  {
    if Trim(u.host) == "" {
      BlankHost(u.host);
    }
  }

  lemma {:induction false} InviteToIsClaim(u: Url)
    requires HasOrigin(Some(u))
    ensures ParseInvite(Some(InviteTo(u))).Claim? && NormalizeOrigin(Some(InviteTo(u))) == NormalizeOrigin(Some(u))
  {
    OriginHasHost(u);
    SchemesPair();
    SameAuthority(u, InviteTo(u));
    assert Trimmed("x");
  }

  /** There is always a free claim number. */
  lemma {:induction false} FreshClaim(used: set<nat>) returns (c: nat)
    ensures forall k <- used :: k < c
  {
    if used == {} {
      c := 0;
    } else {
      var k :| k in used;
      var d := FreshClaim(used - {k});
      c := if d > k then d else k + 1;
      forall n | n in used ensures n < c {
        assert n == k || n in used - {k};
      }
    }
  }

  /** This is imminent, and sends a token away. */
  ghost predicate SendsAway(l: Link, quiet: seq<Event>, last: seq<Event>) {
    Imminent(quiet, last) && Happens(l, quiet + last) && !AllAtHome(l, quiet + last)
  }

  lemma {:induction false} QuietSendsAway(l: Link, quiet: seq<Event>)
    requires AllQuiet(quiet) && Happens(l, quiet) && !AllAtHome(l, quiet)
    ensures SendsAway(l, quiet, [])
  {
    assert quiet + [] == quiet;
  }

  lemma {:induction false} LoadedSendsAway(l: Link)
    requires l.daemon.Some? && !MayGo(l.daemon.value.loaded, Some(l.daemon.value.gateway))
    ensures Happens(l, [Sends]) && !AllAtHome(l, [Sends])
  {
    OneEvent(l, Sends);
    assert !AtHome(l, Sends);
  }

  lemma {:induction false} DaemonSendsAway(l: Link)
    requires l.daemon.Some? && !MayGo(l.token, Some(l.daemon.value.gateway))
    ensures Happens(l, [Loads, Sends]) && !AllAtHome(l, [Loads, Sends])
  {
    LoadedSendsAway(Next(l, Loads));
    Unfold(l, Loads, [Sends]);
    assert [Loads] + [Sends] == [Loads, Sends];
  }

  lemma {:induction false} StartSendsAway(l: Link)
    requires l.daemon.None? && l.configured.Some? && !MayGo(l.token, l.configured)
    ensures Happens(l, [Starts, Loads, Sends]) && !AllAtHome(l, [Starts, Loads, Sends])
  {
    DaemonSendsAway(Next(l, Starts));
    Unfold(l, Starts, [Loads, Sends]);
    assert [Starts] + [Loads, Sends] == [Starts, Loads, Sends];
  }

  /** A restarted daemon takes the configured gateway. */
  lemma {:induction false} RestartSendsAway(l: Link)
    requires l.daemon.Some? && l.configured.Some? && !MayGo(l.token, l.configured)
    ensures Happens(l, [Stops, Starts, Loads, Sends]) && !AllAtHome(l, [Stops, Starts, Loads, Sends])
  {
    StartSendsAway(Next(l, Stops));
    Unfold(l, Stops, [Starts, Loads, Sends]);
    assert [Stops] + [Starts, Loads, Sends] == [Stops, Starts, Loads, Sends];
  }

  lemma {:induction false} ClaimSendsAway(l: Link, invite: Invitation) returns (last: seq<Event>)
    requires HasOrigin(l.last) && !MayGo(l.token, l.last)
    requires NormalizeOrigin(Some(invite)) == NormalizeOrigin(l.last)
    ensures SendsAway(l, [], last)
  {
    var c := FreshClaim(l.claims.Keys);
    assert c !in l.claims;
    var issued: Answer :| true;
    ToRequestFacts(l, c, invite, issued);
    last := ToRequest(c, invite, issued);
    assert [] + last == last;
    assert CarriesToken(l.token.text, l.last, invite);
  }

  lemma {:induction false} CarriedHasOrigin(t: Token, last: Option<Url>, invite: Url)
    requires CarriesToken(t.text, last, invite)
    ensures HasOrigin(Some(invite)) && HasOrigin(last) && !Blank(t)
  {
  }

  lemma {:induction false} RequestSendsAway(l: Link, c: nat, issued: Answer)
    requires c in l.claims && !PairingHonest(l.claims[c])
    ensures SendsAway(l, [], [Asks(c, issued)])
  {
    var p := l.claims[c];
    CarriedHasOrigin(p.stage.held, p.stage.last, p.invite);
    OneEvent(l, Asks(c, issued));
    assert [] + [Asks(c, issued)] == [Asks(c, issued)];
  }

  /** Each way of not being honest sends a token away. */
  lemma {:induction false} DishonestSendsAway(l: Link) returns (quiet: seq<Event>, last: seq<Event>)
    requires !Honest(l)
    ensures SendsAway(l, quiet, last)
  {
    quiet, last := [], [];
    if !DaemonHonest(l) {
      if MayGo(l.token, Some(l.daemon.value.gateway)) {
        LoadedSendsAway(l);
        quiet := [Sends];
      } else {
        DaemonSendsAway(l);
        quiet := [Loads, Sends];
      }
      QuietSendsAway(l, quiet);
    } else if l.configured.Some? && !MayGo(l.token, l.configured) {
      if l.daemon.Some? {
        RestartSendsAway(l);
        quiet := [Stops, Starts, Loads, Sends];
      } else {
        StartSendsAway(l);
        quiet := [Starts, Loads, Sends];
      }
      QuietSendsAway(l, quiet);
    } else if HasOrigin(l.last) && !MayGo(l.token, l.last) {
      InviteToIsClaim(l.last.value);
      last := ClaimSendsAway(l, InviteTo(l.last.value));
    } else {
      var c :| c in l.claims && !PairingHonest(l.claims[c]);
      var issued: Answer :| true;
      RequestSendsAway(l, c, issued);
      last := [Asks(c, issued)];
    }
  }

  /** The tokens are secure exactly when the daemon's gateway, the configured and the recorded one, and every
      service about to be asked have the origin of the issuer. */
  lemma {:induction false} SecureExactly(l: Link)
    ensures Secure(l) <==> Honest(l)
  {
    if Honest(l) {
      HonestIsSecure(l);
    } else {
      var quiet, last := DishonestSendsAway(l);
    }
  }

  // ---------------------------------------------------------------- which events are careful

  /** What keeps tokens secure: the configuration may be saved, or a gateway recorded, for a service that may
      have the stored token; a new token may be stored when neither the running daemon, the configuration nor
      the record names another origin than its issuer's. Everything else is always careful. */
  predicate Careful(l: Link, e: Event)
    requires Enabled(l, e)
  {
    match e
    case Saves(c) => MayGo(l.token, Some(l.claims[c].invite))
    case Records(c) => HasOrigin(Some(l.claims[c].invite)) ==> MayGo(l.token, Some(l.claims[c].invite))
    case Stores(c) => MayTake(l, Some(l.claims[c].invite))
    case _ => true
  }

  /** A token issued by `issuer` could go nowhere else. */
  predicate MayTake(l: Link, issuer: Option<Url>) {
    && (l.daemon.Some? ==> SameOrigin(issuer, Some(l.daemon.value.gateway)))
    && (l.configured.Some? ==> SameOrigin(issuer, l.configured))
    && (HasOrigin(l.last) ==> SameOrigin(issuer, l.last))
  }

  /** The gateway derived from an invite stands for the same service. */
  lemma {:induction false} GatewayGoes(invite: Invitation)
    ensures forall t: Token :: MayGo(t, Some(Gateway(invite))) <==> MayGo(t, Some(invite))
    ensures HasOrigin(Some(Gateway(invite))) <==> HasOrigin(Some(invite))
    ensures forall u :: SameOrigin(u, Some(Gateway(invite))) <==> SameOrigin(u, Some(invite))
  {
    InviteSharesOrigin(Some(invite));
  }

  lemma {:induction false} ClaimsStayHonest(claims: map<nat, Pairing>, c: nat, p: Pairing)
    requires ClaimsHonest(claims) && PairingHonest(p)
    ensures ClaimsHonest(claims[c := p]) && ClaimsHonest(claims - {c})
  {
  }

  lemma {:induction false} ReadIsHonest(l: Link, invite: Invitation)
    requires Honest(l)
    ensures RequestHome(l.token, l.last, invite)
  {
    SameOriginIsPartialEquivalence(l.token.issuer, l.last, Some(invite));
  }

  /** The claims stay honest whatever a claim does. */
  lemma {:induction false} StagesStayHonest(l: Link, e: Event)
    requires Honest(l) && Enabled(l, e) && !Quiet(e)
    ensures ClaimsHonest(Next(l, e).claims)
  {
    match e
    case Begins(c, invite) => ClaimsStayHonest(l.claims, c, Pairing(invite, Saving));
    case Saves(c) => ClaimsStayHonest(l.claims, c, l.claims[c].(stage := Saved));
    case Reads(c) =>
      ReadIsHonest(l, l.claims[c].invite);
      ClaimsStayHonest(l.claims, c, l.claims[c].(stage := Ready(l.token, l.last)));
    case Asks(c, issued) => ClaimsStayHonest(l.claims, c, l.claims[c].(stage := Answered(issued)));
    case Stores(c) => ClaimsStayHonest(l.claims, c, l.claims[c].(stage := Stored));
    case Records(c) => ClaimsStayHonest(l.claims, c, l.claims[c]);
    case GivesUp(c) => ClaimsStayHonest(l.claims, c, l.claims[c]);
  }

  /** A new token's own places. */
  lemma {:induction false} NewTokenGoes(l: Link, t: Token)
    requires Honest(l) && !Blank(t)
    ensures Honest(l.(token := t)) <==> MayTake(l, t.issuer)
  {
  }

  lemma {:induction false} StageKeepsHonest(l: Link, e: Event)
    requires Honest(l) && Enabled(l, e) && !Quiet(e)
    ensures Honest(Next(l, e)) <==> Careful(l, e)
  {
    StagesStayHonest(l, e);
    if e.Saves? {
      GatewayGoes(l.claims[e.claim].invite);
    } else if e.Records? {
      GatewayGoes(l.claims[e.claim].invite);
    } else if e.Stores? {
      var p := l.claims[e.claim];
      TrimIdempotent(p.stage.issued);
      NewTokenGoes(l.(claims := To(l, e.claim, Stored)), Token(Trim(p.stage.issued), Some(p.invite)));
    }
  }

  /** An event keeps the tokens secure exactly when it is careful. */
  lemma {:induction false} StaysSecureExactly(l: Link, e: Event)
    requires Secure(l) && Enabled(l, e)
    ensures Secure(Next(l, e)) <==> Careful(l, e)
  {
    SecureExactly(l);
    SecureExactly(Next(l, e));
    if Quiet(e) {
      QuietKeepsHonest(l, e);
    } else {
      StageKeepsHonest(l, e);
    }
  }

  /** Every event of the run is careful where it happens. */
  predicate AllCareful(l: Link, events: seq<Event>)
    requires Happens(l, events)
    decreases |events|
  {
    events == [] || (Careful(l, events[0]) && AllCareful(Next(l, events[0]), events[1..]))
  }

  /** The tokens are secure at every moment of the run. */
  ghost predicate AlwaysSecure(l: Link, events: seq<Event>)
    requires Happens(l, events)
    decreases |events|
  {
    Secure(l) && (events == [] || AlwaysSecure(Next(l, events[0]), events[1..]))
  }

  /** From a secure start, through any claims, overlapping or not, finished or given up, and any daemons: the
      tokens are secure all along exactly when every event was careful, and then every service that is sent a
      token has the origin that issued it. */
  lemma {:induction false} TokenReachesIssuer(l: Link, events: seq<Event>)
    requires Secure(l) && Happens(l, events)
    ensures AlwaysSecure(l, events) <==> AllCareful(l, events)
    ensures AllCareful(l, events) ==> AllAtHome(l, events)
    decreases |events|
  {
    if events != [] {
      StaysSecureExactly(l, events[0]);
      SecureExactly(l);
      HonestSendsHome(l, events[0]);
      if Secure(Next(l, events[0])) {
        TokenReachesIssuer(Next(l, events[0]), events[1..]);
      }
    }
  }

  /** A runtime without a token, and with nothing under way, has none to lose. */
  lemma {:induction false} UnpairedIsSecure(l: Link)
    requires Blank(l.token) && l.claims == map[] && (l.daemon.Some? ==> Blank(l.daemon.value.loaded))
    ensures Secure(l)
  {
    SecureExactly(l);
  }
}
