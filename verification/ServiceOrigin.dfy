/** internal/cli/pair_invite.go: service origins, invite URLs, and the requests of a claim. */
module ServiceOrigin {
  import opened Text
  import Config

  /** A parsed URL: `host` is the authority as written, `code` the decoded query value of that name. */
  datatype Url = Url(scheme: string, host: string, path: string, code: string)

  datatype Origin = Origin(secure: bool, host: string, port: string)

  // ---------------------------------------------------------------- host and port

  predicate Digit(c: char) {
    '0' <= c <= '9'
  }

  predicate AllDigits(s: string) {
    forall c <- s :: Digit(c)
  }

  /** The position of the last colon. */
  function LastColon(s: string): (r: Option<nat>)
    ensures r.Some? ==> r.value < |s| && s[r.value] == ':' && ':' !in s[r.value + 1..]
    ensures r.None? ==> ':' !in s
  {
    if s == "" then None
    else if s[|s| - 1] == ':' then Some(|s| - 1)
    else
      var r := LastColon(s[..|s| - 1]);
      assert s == s[..|s| - 1] + [s[|s| - 1]];
      assert r.Some? ==> s[r.value + 1..] == s[..|s| - 1][r.value + 1..] + [s[|s| - 1]];
      r
  }

  predicate Bracketed(s: string) {
    |s| >= 2 && s[0] == '[' && s[|s| - 1] == ']'
  }

  function Unbracket(s: string): string {
    if Bracketed(s) then s[1..|s| - 1] else s
  }

  /** `URL.Hostname` and `URL.Port`: a port is what follows the last colon when it is all digits. */
  function SplitHostPort(authority: string): (string, string) {
    var colon := LastColon(authority);
    if colon.Some? && AllDigits(authority[colon.value + 1..])
    then (Unbracket(authority[..colon.value]), authority[colon.value + 1..])
    else (Unbracket(authority), "")
  }

  /** Authority syntax of section 3.2 of RFC 3986: a host with a colon is an address literal in brackets. */
  function JoinHostPort(host: string, port: string): string {
    (if ':' in host then "[" + host + "]" else host) + ":" + port
  }

  lemma {:induction false} NoColonAfter(s: string, colon: nat, i: nat)
    requires colon < i < |s| && ':' !in s[colon + 1..]
    ensures s[i] != ':'
  {
    assert s[i] == s[colon + 1..][i - colon - 1];
  }

  lemma {:induction false} LastColonOf(front: string, back: string)
    requires ':' !in back
    ensures LastColon(front + ":" + back) == Some(|front|)
  {
    var s := front + ":" + back;
    assert s[|front|] == ':' && s[|front| + 1..] == back;
    var r := LastColon(s).value;
    forall k | r < k < |s| ensures s[k] != ':' {
      NoColonAfter(s, r, k);
    }
    forall k | |front| < k < |s| ensures s[k] != ':' {
      NoColonAfter(s, |front|, k);
    }
  }

  /** Splitting undoes joining for every host that is not itself a bracketed name. */
  lemma {:induction false} SplitJoin(host: string, port: string)
    requires AllDigits(port)
    ensures SplitHostPort(JoinHostPort(host, port)) == (host, port) <==> (':' in host || !Bracketed(host))
  {
    var front := if ':' in host then "[" + host + "]" else host;
    assert ':' !in port;
    LastColonOf(front, port);
    var s := front + ":" + port;
    assert s[..|front|] == front && s[|front| + 1..] == port;
    assert ("[" + host + "]")[1..|host| + 1] == host;
  }

  // ---------------------------------------------------------------- origins

  const HTTP := "http"
  const HTTPS := "https"
  const WS := "ws"
  const WSS := "wss"

  /** Whether the scheme is a secure one, if it is supported. */
  function Security(scheme: string): Option<bool> {
    var s := Lower(Trim(scheme));
    if s == HTTP || s == WS then Some(false) else if s == HTTPS || s == WSS then Some(true) else None
  }

  function DropDot(s: string): string {
    if s != "" && s[|s| - 1] == '.' then s[..|s| - 1] else s
  }

  function NormalHost(u: Url): string {
    DropDot(Lower(Trim(SplitHostPort(u.host).0)))
  }

  /** The default ports of section 3 of RFC 6455. */
  function DefaultPort(secure: bool): string {
    if secure then "443" else "80"
  }

  function NormalPort(u: Url, secure: bool): string {
    var port := Trim(SplitHostPort(u.host).1);
    if port == "" then DefaultPort(secure) else port
  }

  /** `normalizeServiceOrigin`; no URL when it does not parse. */
  function NormalizeOrigin(url: Option<Url>): Option<Origin> {
    var u :- url;
    var secure :- Security(u.scheme);
    if NormalHost(u) == "" then None else Some(Origin(secure, NormalHost(u), NormalPort(u, secure)))
  }

  /** `sameServiceOrigin`. */
  predicate SameOrigin(left: Option<Url>, right: Option<Url>) {
    var l, r := NormalizeOrigin(left), NormalizeOrigin(right);
    l.Some? && r.Some? && l.value == r.value
  }

  /** A partial equivalence: symmetric, transitive, and reflexive exactly on the URLs with an origin. */
  lemma {:induction false} SameOriginIsPartialEquivalence(a: Option<Url>, b: Option<Url>, c: Option<Url>)
    ensures SameOrigin(a, b) == SameOrigin(b, a)
    ensures SameOrigin(a, b) && SameOrigin(b, c) ==> SameOrigin(a, c)
    ensures SameOrigin(a, a) <==> NormalizeOrigin(a).Some?
    ensures SameOrigin(a, b) ==> SameOrigin(a, a)
  {
  }

  lemma {:induction false} DefaultPortFills(u: Url, v: Url, host: string, secure: bool)
    requires Security(u.scheme) == Some(secure) && v.scheme == u.scheme
    requires SplitHostPort(u.host) == (host, "") && SplitHostPort(v.host) == (host, DefaultPort(secure))
    ensures NormalizeOrigin(Some(u)) == NormalizeOrigin(Some(v))
  {
    DefaultPortsAreTrimmed();
  }

  /** Writing the default port out, or leaving it out, is the same origin. */
  lemma {:induction false} ExplicitDefaultPort(u: Url, host: string, secure: bool)
    requires NormalizeOrigin(Some(u)).Some? && SplitHostPort(u.host) == (host, "") && Security(u.scheme) == Some(secure)
    requires ':' in host || !Bracketed(host)
    ensures SameOrigin(Some(u), Some(u.(host := JoinHostPort(host, DefaultPort(secure)))))
  {
    var v := u.(host := JoinHostPort(host, DefaultPort(secure)));
    DefaultPortsAreTrimmed();
    SplitJoin(host, DefaultPort(secure));
    DefaultPortFills(u, v, host, secure);
  }

  lemma {:induction false} DefaultPortsAreTrimmed()
    ensures Trimmed(DefaultPort(true)) && Trimmed(DefaultPort(false))
    ensures DefaultPort(true) != "" && DefaultPort(false) != ""
    ensures AllDigits(DefaultPort(true)) && AllDigits(DefaultPort(false))
  {
  }

  /** A host name as an origin holds it. */
  predicate PlainHost(host: string) {
    && host != "" && Trimmed(host) && Lower(host) == host && host[|host| - 1] != '.'
    && (':' in host || !Bracketed(host))
  }

  /** On URLs written with a plain host and an explicit port, sameness of origin is sameness of parts:
      no two services are confused, and `ws` and `http` (`wss` and `https`) are one. */
  lemma {:induction false} SameOriginMeaning(a: Url, hostA: string, portA: string, b: Url, hostB: string, portB: string)
    requires PlainHost(hostA) && AllDigits(portA) && portA != "" && a.host == JoinHostPort(hostA, portA)
    requires PlainHost(hostB) && AllDigits(portB) && portB != "" && b.host == JoinHostPort(hostB, portB)
    ensures SameOrigin(Some(a), Some(b))
       <==> Security(a.scheme).Some? && Security(a.scheme) == Security(b.scheme) && hostA == hostB && portA == portB
  {
    PlainOrigin(a, hostA, portA);
    PlainOrigin(b, hostB, portB);
  }

  lemma {:induction false} DigitsAreTrimmed(s: string)
    requires AllDigits(s)
    ensures Trimmed(s)
  {
    if s != "" {
      assert s[0] in s && s[|s| - 1] in s;
    }
  }

  lemma {:induction false} PlainOrigin(u: Url, host: string, port: string)
    requires PlainHost(host) && AllDigits(port) && port != "" && u.host == JoinHostPort(host, port)
    ensures NormalizeOrigin(Some(u))
         == match Security(u.scheme)
            case None => None
            case Some(secure) => Some(Origin(secure, host, port))
  {
    SplitJoin(host, port);
    PlainParts(u, host, port);
  }

  lemma {:induction false} PlainParts(u: Url, host: string, port: string)
    requires PlainHost(host) && AllDigits(port) && port != "" && SplitHostPort(u.host) == (host, port)
    ensures NormalHost(u) == host && NormalPort(u, true) == NormalPort(u, false) == port
  {
    DigitsAreTrimmed(port);
  }

  // ---------------------------------------------------------------- invites

  datatype InviteError = BadUrl | BadScheme | NoHost | NoCode

  datatype Invite = Claim(url: Url, gateway: Url, tlsMode: string) | Refused(error: InviteError)

  /** `parseInviteURL`. */
  function ParseInvite(url: Option<Url>): Invite {
    match url
    case None => Refused(BadUrl)
    case Some(u) =>
      if u.scheme != HTTP && u.scheme != HTTPS then Refused(BadScheme)
      else if Trim(u.host) == "" then Refused(NoHost)
      else if Trim(u.code) == "" then Refused(NoCode)
      else
        var secure := u.scheme == HTTPS;
        Claim(u, Url(if secure then WSS else WS, u.host, "/ws/node", ""), if secure then Config.SYSTEM else Config.OFF)
  }

  lemma {:induction false} SchemesPair()
    ensures Security(HTTP) == Some(false) && Security(WS) == Some(false)
    ensures Security(HTTPS) == Some(true) && Security(WSS) == Some(true)
  {
    assert Lower(HTTP) == HTTP && Lower(WS) == WS && Lower(HTTPS) == HTTPS && Lower(WSS) == WSS;
    assert HTTP[0] == 'h' && WS[0] == 'w' && |HTTP| == 4 && |HTTPS| == 5 && |WS| == 2 && |WSS| == 3;
  }

  lemma {:induction false} SameAuthority(a: Url, b: Url)
    requires a.host == b.host && Security(a.scheme) == Security(b.scheme)
    ensures NormalizeOrigin(Some(a)) == NormalizeOrigin(Some(b))
  {
  }

  lemma {:induction false} OriginNeedsHost(u: Url)
    requires Security(u.scheme).Some?
    ensures NormalizeOrigin(Some(u)).Some? <==> NormalHost(u) != ""
  {
  }

  lemma {:induction false} ClaimSchemes(url: Option<Url>)
    requires ParseInvite(url).Claim?
    ensures var i := ParseInvite(url);
            && url == Some(i.url) && i.gateway.host == i.url.host
            && Security(i.url.scheme).Some? && Security(i.gateway.scheme) == Security(i.url.scheme)
  {
    SchemesPair();
  }

  /** The gateway derived from an invite has the invite's own origin, unless the invite has none: then
      its host is only a port, a dot or white space. */
  lemma {:induction false} InviteSharesOrigin(url: Option<Url>)
    requires ParseInvite(url).Claim?
    ensures var i := ParseInvite(url);
            && NormalizeOrigin(Some(i.gateway)) == NormalizeOrigin(url)
            && (SameOrigin(Some(i.gateway), Some(i.url)) <==> NormalHost(i.url) != "")
  {
    var i := ParseInvite(url);
    ClaimSchemes(url);
    SameAuthority(i.url, i.gateway);
    OriginNeedsHost(i.url);
  }

  // ---------------------------------------------------------------- redirects

  datatype Outcome = Arrived | TooManyRedirects | OriginChanged

  const MAX_REQUESTS := 10

  /** The requests made, `sent` so far, when the server answers with these redirects: the `CheckRedirect`
      rule, with its test of the origin, is asked before each one. */
  function Follow(allowed: Url -> bool, sent: seq<Url>, locations: seq<Url>): (seq<Url>, Outcome)
    decreases |locations|
  {
    if locations == [] then (sent, Arrived)
    else if |sent| >= MAX_REQUESTS then (sent, TooManyRedirects)
    else if !allowed(locations[0]) then (sent, OriginChanged)
    else Follow(allowed, sent + [locations[0]], locations[1..])
  }

  predicate All(urls: seq<Url>, allowed: Url -> bool) {
    forall u <- urls :: allowed(u)
  }

  /** Every request passes the test, there are at most ten, and they follow the redirects in order; the
      last one is reached exactly when there are at most nine redirects and all pass. */
  lemma {:induction false} RedirectsStayHome(allowed: Url -> bool, sent: seq<Url>, locations: seq<Url>)
    requires sent != [] && |sent| <= MAX_REQUESTS && All(sent, allowed)
    ensures var (requests, outcome) := Follow(allowed, sent, locations);
            && All(requests, allowed) && |requests| <= MAX_REQUESTS
            && sent <= requests <= sent + locations
            && (outcome == Arrived <==> |sent| + |locations| <= MAX_REQUESTS && All(locations, allowed))
            && (outcome == Arrived ==> requests == sent + locations)
    decreases |locations|
  {
    if locations == [] {
      assert sent + locations == sent;
    } else if |sent| < MAX_REQUESTS && allowed(locations[0]) {
      RedirectsStayHome(allowed, sent + [locations[0]], locations[1..]);
      assert sent + [locations[0]] + locations[1..] == sent + locations;
      assert locations == [locations[0]] + locations[1..];
    } else if |sent| < MAX_REQUESTS {
      assert locations[0] in locations;
    }
  }

  // ---------------------------------------------------------------- the token

  /** The requests of `claimInvite` and how they end; none at all when the claim has no origin. */
  function Requests(claim: Url, locations: seq<Url>): Option<(seq<Url>, Outcome)> {
    var origin := NormalizeOrigin(Some(claim));
    if origin.None? then None
    else Some(Follow(u => NormalizeOrigin(Some(u)) == origin, [claim], locations))
  }

  /** Does the claim carry the current runtime token? */
  predicate CarriesToken(token: string, lastGateway: Option<Url>, claim: Url) {
    Trim(token) != "" && SameOrigin(lastGateway, Some(claim))
  }

  /** A claim sends the token only to the origin of the gateway recorded last, redirects included. What
      daemons send is the subject of TokenTravel. */
  lemma {:induction false} TokenStaysHome(token: string, lastGateway: Option<Url>, claim: Url, locations: seq<Url>)
    requires CarriesToken(token, lastGateway, claim)
    ensures Requests(claim, locations).Some?
    ensures var requests := Requests(claim, locations).value.0;
            |requests| <= MAX_REQUESTS && forall u <- requests :: SameOrigin(lastGateway, Some(u))
  {
    var origin := NormalizeOrigin(Some(claim));
    RedirectsStayHome(u => NormalizeOrigin(Some(u)) == origin, [claim], locations);
  }

  lemma {:induction false} TokenByOrigin(token: string, gateway: Option<Url>, invite: Option<Url>, claim: Url)
    requires Trim(token) != "" && NormalizeOrigin(gateway) == NormalizeOrigin(invite)
    ensures CarriesToken(token, gateway, claim) <==> SameOrigin(invite, Some(claim))
  {
  }

  // ---------------------------------------------------------------- the TLS mode of an invite

  /** The configuration `pairClaimInvite` saves: a plain invite turns TLS off, a secure one keeps a
      complete pin and otherwise asks for the system roots. */
  function WithInvite(c: Config.Config, gatewayUrl: string, tlsMode: string): Config.Config {
    var d := c.(wsUrl := gatewayUrl);
    if tlsMode == Config.OFF then d.(tlsMode := Config.OFF, tlsFingerprint := "")
    else if Trim(c.tlsMode) != Config.PINNED || Trim(c.tlsFingerprint) == "" then
      d.(tlsMode := Config.SYSTEM, tlsFingerprint := "")
    else d
  }

  lemma {:induction false} ModesAreNormal()
    ensures Config.NormalTlsMode(Config.OFF) == Config.OFF && Config.NormalTlsMode(Config.SYSTEM) == Config.SYSTEM
    ensures Config.OFF != Config.SYSTEM && Config.OFF != Config.PINNED && Config.SYSTEM != Config.PINNED
    ensures Config.OFF != "" && Config.PINNED != ""
  {
    assert Lower(Config.OFF) == Config.OFF && Lower(Config.SYSTEM) == Config.SYSTEM;
    assert |Config.OFF| == 3 && Config.SYSTEM[0] == 's' && Config.PINNED[0] == 'p';
  }

  lemma {:induction false} PinnedIsNormal(mode: string)
    requires Trim(mode) == Config.PINNED
    ensures Config.NormalTlsMode(mode) == Config.PINNED
  {
    LowerTrimCommute(mode);
    assert Lower(Config.PINNED) == Config.PINNED;
  }

  /** Whatever the configuration held, the result has a valid TLS mode, is plain exactly for a plain
      invite, and never pins without a fingerprint, which is what a run requires of it. */
  lemma {:induction false} InviteTls(c: Config.Config, gatewayUrl: string, inviteMode: string)
    requires inviteMode == Config.OFF || inviteMode == Config.SYSTEM
    ensures var d := WithInvite(c, gatewayUrl, inviteMode);
            var mode := Config.NormalTlsMode(d.tlsMode);
            && Config.TlsModeOk(mode)
            && (mode == Config.OFF <==> inviteMode == Config.OFF)
            && (mode == Config.PINNED ==> Trim(d.tlsFingerprint) != "" && d.tlsFingerprint == c.tlsFingerprint)
  {
    ModesAreNormal();
    if Trim(c.tlsMode) == Config.PINNED {
      PinnedIsNormal(c.tlsMode);
    }
  }
}
