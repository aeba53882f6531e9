/** What `pairClaimInvite` means for the runtime token as a whole: what must hold when a claim begins so that
    neither finishing nor giving up at any stage can send a token to another service than its issuer's. */
module TokenClaims {
  import opened Text
  import opened ServiceOrigin
  import opened TokenTravel

  /** The invite is fit to be claimed now: the service may have the stored token, and, if it can issue one, neither the
      running daemon nor the recorded gateway names another service. */
  predicate Fit(l: Link, invite: Invitation) {
    var service := Some(invite);
    && MayGo(l.token, service)
    && (HasOrigin(service) ==>
          && (l.daemon.Some? ==> SameOrigin(service, Some(l.daemon.value.gateway)))
          && (HasOrigin(l.last) ==> SameOrigin(service, l.last)))
  }

  /** The event is the daemon's, or a stage of this claim. */
  predicate Concerns(e: Event, c: nat, invite: Invitation) {
    match e
    case Begins(k, i) => k == c && i == invite
    case Saves(k) => k == c
    case Reads(k) => k == c
    case Asks(k, _) => k == c
    case Stores(k) => k == c
    case Records(k) => k == c
    case GivesUp(k) => k == c
    case _ => true
  }

  predicate OneClaim(events: seq<Event>, c: nat, invite: Invitation) {
    forall e <- events :: Concerns(e, c, invite)
  }

  // ---------------------------------------------------------------- a fit claim

  /** At most this claim is under way, and everything in reach of a token is its service's. */
  predicate Within(l: Link, c: nat, invite: Invitation) {
    && Honest(l) && MayGo(l.token, Some(invite))
    && (HasOrigin(Some(invite)) ==> MayTake(l, Some(invite)))
    && (forall k <- l.claims :: k == c && l.claims[k].invite == invite)
    && (c in l.claims && (l.claims[c].stage.Answered? || l.claims[c].stage.Stored?) ==> HasOrigin(Some(invite)))
  }

  lemma {:induction false} BeginsWithin(l: Link, c: nat, invite: Invitation)
    requires Honest(l) && l.claims == map[] && Fit(l, invite)
    ensures Within(Next(l, Begins(c, invite)), c, invite)
  {
    StageKeepsHonest(l, Begins(c, invite));
  }

  lemma {:induction false} QuietKeepsWithin(l: Link, c: nat, invite: Invitation, e: Event)
    requires Within(l, c, invite) && Enabled(l, e) && Quiet(e)
    ensures Within(Next(l, e), c, invite)
  {
    QuietKeepsHonest(l, e);
  }

  lemma {:induction false} StageKeepsWithin(l: Link, c: nat, invite: Invitation, e: Event)
    requires Within(l, c, invite) && Enabled(l, e) && Concerns(e, c, invite) && !Quiet(e)
    ensures Within(Next(l, e), c, invite)
  {
    GatewayGoes(invite);
    SameOriginIsPartialEquivalence(Some(invite), Some(invite), None);
    assert Careful(l, e);
    StageKeepsHonest(l, e);
  }

  lemma {:induction false} WithinStaysSecure(l: Link, c: nat, invite: Invitation, events: seq<Event>)
    requires Within(l, c, invite) && OneClaim(events, c, invite) && Happens(l, events)
    ensures AlwaysSecure(l, events)
    decreases |events|
  {
    SecureExactly(l);
    if events != [] {
      if Quiet(events[0]) {
        QuietKeepsWithin(l, c, invite, events[0]);
      } else {
        StageKeepsWithin(l, c, invite, events[0]);
      }
      WithinStaysSecure(Next(l, events[0]), c, invite, events[1..]);
    }
  }

  // ---------------------------------------------------------------- a claim that was not fit

  lemma {:induction false} SecureToTheEnd(l: Link, events: seq<Event>)
    requires Happens(l, events) && AlwaysSecure(l, events)
    ensures Honest(After(l, events))
    decreases |events|
  {
    SecureExactly(l);
    if events != [] {
      SecureToTheEnd(Next(l, events[0]), events[1..]);
    }
  }

  /** The claim has just saved the configuration; no other is under way. */
  function JustSaved(l: Link, c: nat, invite: Invitation): Link {
    l.(configured := Some(Gateway(invite)), claims := map[c := Pairing(invite, Saved)])
  }

  lemma {:induction false} ReachesSaved(l: Link, c: nat, invite: Invitation)
    requires l.claims == map[]
    ensures var m := Next(l, Begins(c, invite));
            Happens(m, [Saves(c)]) && After(m, [Saves(c)]) == JustSaved(l, c, invite)
  {
    var m := Next(l, Begins(c, invite));
    assert m.claims == map[c := Pairing(invite, Saving)];
    assert To(m, c, Saved) == map[c := Pairing(invite, Saved)];
    OneEvent(m, Saves(c));
  }

  /** The stages from a saved configuration to a stored token. */
  function ToStore(c: nat, issued: Answer): seq<Event> {
    [Reads(c)] + ([Asks(c, issued)] + [Stores(c)])
  }

  lemma {:induction false} StageAt(l: Link, c: nat, stage: Stage)
    requires c in l.claims
    ensures To(l, c, stage)[c] == Pairing(l.claims[c].invite, stage)
    ensures forall m: Link, later: Stage :: m.claims == To(l, c, stage) ==> To(m, c, later) == To(l, c, later)
  {
  }

  lemma {:induction false} StoresAnswer(m: Link, c: nat, issued: Answer)
    requires c in m.claims && m.claims[c].stage == Answered(issued)
    ensures Happens(m, [Stores(c)])
    ensures After(m, [Stores(c)])
         == m.(token := Token(Trim(issued), Some(m.claims[c].invite)), claims := To(m, c, Stored))
  {
    OneEvent(m, Stores(c));
  }

  /** A claim that has read the state asks, is answered, and stores. */
  lemma {:induction false} AsksAndStores(m: Link, c: nat, issued: Answer)
    requires c in m.claims && m.claims[c].stage.Ready? && HasOrigin(Some(m.claims[c].invite))
    ensures Happens(m, [Asks(c, issued)] + [Stores(c)])
    ensures After(m, [Asks(c, issued)] + [Stores(c)])
         == m.(token := Token(Trim(issued), Some(m.claims[c].invite)), claims := To(m, c, Stored))
  {
    var storing := Next(m, Asks(c, issued));
    StageAt(m, c, Answered(issued));
    StoresAnswer(storing, c, issued);
    Unfold(m, Asks(c, issued), [Stores(c)]);
  }

  lemma {:induction false} ReadsAndStores(m: Link, c: nat, issued: Answer)
    requires c in m.claims && m.claims[c].stage.Saved? && HasOrigin(Some(m.claims[c].invite))
    ensures Happens(m, ToStore(c, issued))
    ensures After(m, ToStore(c, issued))
         == m.(token := Token(Trim(issued), Some(m.claims[c].invite)), claims := To(m, c, Stored))
  {
    var asking := Next(m, Reads(c));
    AsksAndStores(asking, c, issued);
    StageAt(m, c, Ready(m.token, m.last));
    Unfold(m, Reads(c), [Asks(c, issued)] + [Stores(c)]);
  }

  /** All that can happen while this claim is under way, and after it, keeps the tokens secure. */
  ghost predicate Harmless(l: Link, c: nat, invite: Invitation)
    requires c !in l.claims
  {
    forall events: seq<Event> ::
      OneClaim(events, c, invite) && Happens(Next(l, Begins(c, invite)), events)
      ==> AlwaysSecure(Next(l, Begins(c, invite)), events)
  }

  lemma {:induction false} HarmlessSaves(l: Link, c: nat, invite: Invitation)
    requires l.claims == map[] && Harmless(l, c, invite)
    ensures MayGo(l.token, Some(invite))
  {
    var m := Next(l, Begins(c, invite));
    ReachesSaved(l, c, invite);
    assert OneClaim([Saves(c)], c, invite);
    SecureToTheEnd(m, [Saves(c)]);
    GatewayGoes(invite);
  }

  lemma {:induction false} HarmlessStores(l: Link, c: nat, invite: Invitation, issued: Answer)
    requires l.claims == map[] && Harmless(l, c, invite) && HasOrigin(Some(invite))
    ensures MayTake(JustSaved(l, c, invite), Some(invite))
  {
    var m, saved := Next(l, Begins(c, invite)), JustSaved(l, c, invite);
    SavedStores(l, c, invite, issued);
    ReachesSaved(l, c, invite);
    HappensJoin(m, [Saves(c)], ToStore(c, issued));
    StoresAreItsOwn(c, invite, issued);
    SecureToTheEnd(m, [Saves(c)] + ToStore(c, issued));
    NewTokenIsHome(saved, After(saved, ToStore(c, issued)), issued);
  }

  lemma {:induction false} StoresAreItsOwn(c: nat, invite: Invitation, issued: Answer)
    ensures OneClaim([Saves(c)] + ToStore(c, issued), c, invite)
  {
  }

  lemma {:induction false} SavedStores(l: Link, c: nat, invite: Invitation, issued: Answer)
    requires HasOrigin(Some(invite))
    ensures var saved := JustSaved(l, c, invite);
            && Happens(saved, ToStore(c, issued))
            && var stored := After(saved, ToStore(c, issued));
               && stored.token == Token(Trim(issued), Some(invite))
               && stored.daemon == saved.daemon && stored.configured == saved.configured && stored.last == saved.last
  {
    var saved := JustSaved(l, c, invite);
    assert saved.claims[c] == Pairing(invite, Saved);
    ReadsAndStores(saved, c, issued);
  }

  lemma {:induction false} HarmlessWasFit(l: Link, c: nat, invite: Invitation, issued: Answer)
    requires l.claims == map[] && Harmless(l, c, invite)
    ensures Fit(l, invite)
  {
    HarmlessSaves(l, c, invite);
    if HasOrigin(Some(invite)) {
      HarmlessStores(l, c, invite, issued);
    }
  }

  lemma {:induction false} NewTokenIsHome(l: Link, m: Link, issued: Answer)
    requires Honest(m) && m.token.text == Trim(issued)
    requires m.daemon == l.daemon && m.configured == l.configured && m.last == l.last
    ensures MayTake(l, m.token.issuer)
  {
    TrimIdempotent(issued);
    NewTokenGoes(m, m.token);
    assert m.(token := m.token) == m;
  }

  /** A claim that begins while no other is under way can never send a token away, whatever the daemon does
      meanwhile and wherever the claim stops, exactly when it was fit. */
  lemma {:induction false} HarmlessExactly(l: Link, c: nat, invite: Invitation)
    requires Secure(l) && l.claims == map[]
    ensures Harmless(l, c, invite) <==> Fit(l, invite)
  {
    SecureExactly(l);
    if Fit(l, invite) {
      BeginsWithin(l, c, invite);
      forall events: seq<Event> | OneClaim(events, c, invite) && Happens(Next(l, Begins(c, invite)), events)
        ensures AlwaysSecure(Next(l, Begins(c, invite)), events)
      {
        WithinStaysSecure(Next(l, Begins(c, invite)), c, invite, events);
      }
    }
    if Harmless(l, c, invite) {
      var issued: Answer :| true;
      HarmlessWasFit(l, c, invite, issued);
    }
  }

  // ---------------------------------------------------------------- whole runs

  /** Every claim of the run begins alone, and fit. */
  predicate AllFit(l: Link, events: seq<Event>)
    requires Happens(l, events)
    decreases |events|
  {
    events == [] ||
    (&& (events[0].Begins? ==> l.claims == map[] && Fit(l, events[0].invite))
     && AllFit(Next(l, events[0]), events[1..]))
  }

  /** No claim is under way, or one that was fit. */
  ghost predicate Calm(l: Link) {
    (Honest(l) && l.claims == map[]) || exists c: nat, invite: Invitation :: Within(l, c, invite)
  }

  lemma {:induction false} CalmStep(l: Link, e: Event)
    requires Calm(l) && Enabled(l, e) && (e.Begins? ==> l.claims == map[] && Fit(l, e.invite))
    ensures Calm(Next(l, e))
  {
    if e.Begins? {
      CalmIsHonest(l);
      BeginsWithin(l, e.claim, e.invite);
    } else if Honest(l) && l.claims == map[] {
      assert Quiet(e);
      QuietKeepsHonest(l, e);
    } else {
      var c: nat, invite: Invitation :| Within(l, c, invite);
      if Quiet(e) {
        QuietKeepsWithin(l, c, invite, e);
      } else {
        StageKeepsWithin(l, c, invite, e);
      }
    }
  }

  lemma {:induction false} CalmIsHonest(l: Link)
    requires Calm(l)
    ensures Honest(l)
  {
  }

  lemma {:induction false} CalmRun(l: Link, events: seq<Event>)
    requires Calm(l) && Happens(l, events) && AllFit(l, events)
    ensures AlwaysSecure(l, events) && AllAtHome(l, events)
    decreases |events|
  {
    CalmIsHonest(l);
    SecureExactly(l);
    if events != [] {
      HonestSendsHome(l, events[0]);
      CalmStep(l, events[0]);
      CalmRun(Next(l, events[0]), events[1..]);
    }
  }

  /** From a secure start with nothing under way, with claims that begin alone and fit, and any daemons, no run
      ever sends a token to another origin than its issuer's. */
  lemma {:induction false} FitClaimsReachIssuer(l: Link, events: seq<Event>)
    requires Secure(l) && l.claims == map[] && Happens(l, events) && AllFit(l, events)
    ensures AlwaysSecure(l, events) && AllAtHome(l, events)
  {
    SecureExactly(l);
    CalmRun(l, events);
  }

  // ---------------------------------------------------------------- a finished claim

  /** The stages of a claim after it has saved the configuration. */
  function ToTheEnd(c: nat, issued: Answer): seq<Event> {
    ToStore(c, issued) + [Records(c)]
  }

  lemma {:induction false} RecordsLast(m: Link, c: nat)
    requires c in m.claims && m.claims[c].stage.Stored?
    ensures Happens(m, [Records(c)])
    ensures c !in After(m, [Records(c)]).claims && After(m, [Records(c)]).token == m.token
  {
    OneEvent(m, Records(c));
  }

  lemma {:induction false} FinishesFrom(m: Link, c: nat, issued: Answer)
    requires c in m.claims && m.claims[c].stage.Saved? && HasOrigin(Some(m.claims[c].invite))
    ensures Happens(m, ToTheEnd(c, issued)) && c !in After(m, ToTheEnd(c, issued)).claims
    ensures After(m, ToTheEnd(c, issued)).token == Token(Trim(issued), Some(m.claims[c].invite))
  {
    ReadsAndStores(m, c, issued);
    StageAt(m, c, Stored);
    RecordsLast(After(m, ToStore(c, issued)), c);
    HappensJoin(m, ToStore(c, issued), [Records(c)]);
  }

  /** The daemon's part: it takes the gateway just configured and sends it the token still stored. */
  function Restart(l: Link): seq<Event> {
    if l.daemon.Some? then [Stops, Starts, Loads, Sends] else [Starts, Loads, Sends]
  }

  lemma {:induction false} QuietStepKeepsClaims(l: Link, e: Event)
    requires Enabled(l, e) && Quiet(e)
    ensures Next(l, e).claims == l.claims
  {
  }

  lemma {:induction false} QuietKeepsClaims(l: Link, events: seq<Event>)
    requires AllQuiet(events) && Happens(l, events)
    ensures After(l, events).claims == l.claims
    decreases |events|
  {
    if events != [] {
      QuietStepKeepsClaims(l, events[0]);
      QuietKeepsClaims(Next(l, events[0]), events[1..]);
    }
  }

  lemma {:induction false} RestartSends(l: Link)
    requires l.configured.Some? && !MayGo(l.token, l.configured)
    ensures Happens(l, Restart(l)) && !AllAtHome(l, Restart(l)) && After(l, Restart(l)).claims == l.claims
  {
    if l.daemon.Some? {
      RestartSendsAway(l);
    } else {
      StartSendsAway(l);
    }
    QuietKeepsClaims(l, Restart(l));
  }

  /** A daemon (re)starts while the claim is under way, and then the claim finishes. */
  lemma {:induction false} RestartAndFinish(s: Link, c: nat, issued: Answer)
    requires c in s.claims && s.claims[c].stage.Saved? && HasOrigin(Some(s.claims[c].invite))
    requires s.configured.Some? && !MayGo(s.token, s.configured)
    ensures var events := Restart(s) + ToTheEnd(c, issued);
            && Happens(s, events) && !AllAtHome(s, events) && c !in After(s, events).claims
            && After(s, events).token == Token(Trim(issued), Some(s.claims[c].invite))
  {
    RestartSends(s);
    FinishesFrom(After(s, Restart(s)), c, issued);
    HappensJoin(s, Restart(s), ToTheEnd(c, issued));
  }

  /** Finishing does not help: for every stored token and every claim to another service that can issue one,
      there is a run in which the claim finishes, and a daemon that started under way has sent the old token
      to the new service. */
  lemma {:induction false} FinishedClaimSendsAway(l: Link, c: nat, invite: Invitation, issued: Answer)
      returns (events: seq<Event>)
    requires l.claims == map[] && !MayGo(l.token, Some(invite)) && HasOrigin(Some(invite))
    ensures Happens(l, events) && !AllAtHome(l, events)
    ensures c !in After(l, events).claims && After(l, events).token == Token(Trim(issued), Some(invite))
  {
    var m, s := Next(l, Begins(c, invite)), JustSaved(l, c, invite);
    ReachesSaved(l, c, invite);
    GatewayGoes(invite);
    assert s.claims[c] == Pairing(invite, Saved);
    RestartAndFinish(s, c, issued);
    var rest := Restart(s) + ToTheEnd(c, issued);
    HappensJoin(m, [Saves(c)], rest);
    Unfold(l, Begins(c, invite), [Saves(c)] + rest);
    events := [Begins(c, invite)] + ([Saves(c)] + rest);
  }

  // ---------------------------------------------------------------- which claim re-sends the token

  /** The gateway last recorded by a hello. */
  function LastHello(l: Link, events: seq<Event>): Option<Url>
    requires Happens(l, events)
    decreases |events|
  {
    if events == [] then None
    else
      var later := LastHello(Next(l, events[0]), events[1..]);
      if later.None? && events[0].Welcomed? then Some(l.daemon.value.gateway) else later
  }

  lemma {:induction false} QuietRecords(l: Link, e: Event)
    requires Enabled(l, e) && Quiet(e) && !e.Clears?
    ensures Next(l, e).token == l.token
    ensures Next(l, e).last == if e.Welcomed? then Some(l.daemon.value.gateway) else l.last
  {
  }

  lemma {:induction false} LastHelloIsLast(l: Link, events: seq<Event>)
    requires Happens(l, events) && AllQuiet(events) && Clears !in events
    ensures var now := After(l, events);
            now.token == l.token && now.last == if LastHello(l, events).Some? then LastHello(l, events) else l.last
    decreases |events|
  {
    if events != [] {
      QuietRecords(l, events[0]);
      LastHelloIsLast(Next(l, events[0]), events[1..]);
    }
  }

  /** After a claim has recorded its gateway, and whatever daemons did since, the next request carries the token
      exactly when its invite has the origin of the last gateway that said hello, or else of that claim. */
  lemma {:induction false} TokenFollowsInvite(l: Link, c: nat, events: seq<Event>, second: Invitation)
    requires c in l.claims && l.claims[c].stage.Stored? && !Blank(l.token)
    requires AllQuiet(events) && Clears !in events && Happens(Next(l, Records(c)), events)
    ensures var now := After(Next(l, Records(c)), events);
            var greeted := LastHello(Next(l, Records(c)), events);
            CarriesToken(now.token.text, now.last, second)
            <==> SameOrigin(if greeted.Some? then greeted else Some(l.claims[c].invite), Some(second))
  {
    var m := Next(l, Records(c));
    var greeted := LastHello(m, events);
    InviteSharesOrigin(Some(l.claims[c].invite));
    LastHelloIsLast(m, events);
    TokenByOrigin(m.token.text, if greeted.Some? then greeted else m.last,
                  if greeted.Some? then greeted else Some(l.claims[c].invite), second);
  }
}
