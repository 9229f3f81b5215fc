/** Exactly when each call on the identity kernel succeeds, which error it gives otherwise, and what it answers. */
module IdentityAnswers {
  import opened Wrappers
  import opened Dict
  import opened IdentitySpec
  import opened IdentityRuns
  import opened IdentityResults
  import opened Names

  // ----- clients and codes -----

  /** A stored client, or one whose document, fetched from its https id, lists redirects. */
  predicate Stands(s: Store, clientId: string, fetch: Option<string -> ClientDoc>, client: Client) {
    if clientId in s.clients then client == s.clients[clientId]
    else
      && |clientId| >= 8 && clientId[..8] == "https://" && fetch.Some?
      && var doc := fetch.value(clientId);
         && doc.redirectUris != []
         && client.id == clientId && client.redirectUris == doc.redirectUris
         && client.name == if doc.name.None? then clientId else doc.name.value
  }

  /** A client document was fetched and lists no redirect. */
  predicate Unusable(s: Store, clientId: string, fetch: Option<string -> ClientDoc>) {
    clientId !in s.clients && |clientId| >= 8 && clientId[..8] == "https://" && fetch.Some?
    && fetch.value(clientId).redirectUris == []
  }

  lemma HttpsIs(id: string)
    ensures IsHttps(id) <==> |id| >= 8 && id[..8] == "https://"
  {
  }

  /** The client is resolved exactly when one stands, and a fetched one is then stored. */
  lemma ResolveAnswers(s: Store, clientId: string, fetch: Option<string -> ClientDoc>)
    ensures var (s', r) := ResolveClient(s, clientId, fetch);
            && (forall client :: r == Ok(client) <==> Stands(s, clientId, fetch, client))
            && (r.Err? ==> s' == s && r.error == if Unusable(s, clientId, fetch) then NoRedirectUris else UnknownClient)
            && (r.Ok? ==> s' == s.(clients := s.clients[clientId := r.value]))
  {
    HttpsIs(clientId);
    if clientId in s.clients { assert s.clients[clientId := s.clients[clientId]] == s.clients; }
  }

  /** May this client come back to this redirect? */
  ghost predicate Admitted(s: Store, clientId: string, redirectUri: string, fetch: Option<string -> ClientDoc>) {
    exists client :: Stands(s, clientId, fetch, client) && redirectUri in client.redirectUris
  }

  /**
   A code is issued exactly when its client stands and registered the redirect; it is then stored under
   a new name with the grant asked for, unused, until its time; otherwise no code is stored.
   */
  lemma IssueSucceedsExactly(w: World, s: Store, grant: Grant, redirectUri: string, challenge: string,
                             now: real, ttl: real, fetch: Option<string -> ClientDoc>)
    requires grant.clientId in s.clients ==> s.clients[grant.clientId].id == grant.clientId
    ensures var (s', r) := IssueAuthCode(w, s, grant, redirectUri, challenge, now, ttl, fetch);
            && (r.Ok? <==> Admitted(s, grant.clientId, redirectUri, fetch))
            && (r.Ok? ==>
                  && r.value == w.newName(s.names)
                  && var c := w.hash(r.value);
                     s'.codes == s.codes[c := AuthCode(c, grant, challenge, now + ttl, None)])
            && (r.Err? ==> s'.codes == s.codes
                           && (r.error == UnregisteredRedirect
                               <==> exists client :: Stands(s, grant.clientId, fetch, client))
                           && (r.error == NoRedirectUris <==> Unusable(s, grant.clientId, fetch)))
  {
    ResolveAnswers(s, grant.clientId, fetch);
    var client := ResolveClient(s, grant.clientId, fetch).1;
    if client.Ok? { assert Stands(s, grant.clientId, fetch, client.value); }
    hide ResolveClient;
  }

  // ----- islands -----

  /** The first island registered for this audience. */
  ghost predicate FirstFor(s: Store, audience: string, island: Island) {
    exists n: nat :: FirstAt(s, audience, island, n)
  }

  ghost predicate FirstAt(s: Store, audience: string, island: Island, n: nat) {
    var order, data := s.islands.order, s.islands.data;
    && n < |order| && order[n] in data && data[order[n]] == island && island.audience == audience
    && forall m :: 0 <= m < n && order[m] in data ==> data[order[m]].audience != audience
  }

  lemma IslandIsFirst(s: Store, audience: string)
    requires Valid(s.islands)
    ensures forall island :: IslandForAudience(s, audience) == Some(island) <==> FirstFor(s, audience, island)
    ensures IslandForAudience(s, audience).None? <==>
            forall i :: i in s.islands.data ==> s.islands.data[i].audience != audience
  {
    var test := (i: Island) => i.audience == audience;
    FirstNone(s.islands, test);
    forall island ensures IslandForAudience(s, audience) == Some(island) <==> FirstFor(s, audience, island) {
      if FirstFor(s, audience, island) {
        var n: nat :| FirstAt(s, audience, island, n);
        FirstComesFirst(s.islands, test, n);
      }
      if IslandForAudience(s, audience) == Some(island) {
        var at := PicksInOrder(s.islands, s.islands.order, test);
        assert Hit(s.islands, s.islands.order, test, at[0]);
        forall m | 0 <= m < at[0] && s.islands.order[m] in s.islands.data
          ensures s.islands.data[s.islands.order[m]].audience != audience
        {
          assert Hit(s.islands, s.islands.order, test, m) <==> m in at;
        }
        assert FirstAt(s, audience, island, at[0]);
      }
    }
  }

  /** A refresh token not given a lifetime lives as the first island of its audience says, or thirty days. */
  lemma LifetimeIsFirstIslands(s: Store, audience: string)
    requires Valid(s.islands)
    ensures forall island :: FirstFor(s, audience, island) ==>
              ResolveRefreshTtl(s, audience, None) == island.sessionTtlDays * 86400.0
    ensures (forall i :: i in s.islands.data ==> s.islands.data[i].audience != audience) ==>
              ResolveRefreshTtl(s, audience, None) == 2592000.0
  {
    IslandIsFirst(s, audience);
    hide IslandForAudience, FirstFor;
  }

  /** What starting a login comes to, by the client and the island it finds. */
  lemma StartIs(w: World, s: Store, r: LoginRequest, now: real, ttl: real, fetch: Option<string -> ClientDoc>)
    ensures var (s', started) := StartFederation(w, s, r, now, ttl, fetch);
            var client := ResolveClient(s, r.clientId, fetch).1;
            var found := IslandForAudience(s, r.audience);
            if client.Err? then started == Err(client.error) && s'.txns == s.txns
            else if r.redirectUri !in client.value.redirectUris
            then started == Err(UnregisteredRedirect) && s'.txns == s.txns
            else if found.None? then started == Err(NoIsland) && s'.txns == s.txns
            else if found.value.disabledAt.Some? then started == Err(IslandDisabled) && s'.txns == s.txns
            else
              && started == Ok(Started(w.newName(s.names), w.newName(s.names + 1)))
              && var h := w.hash(w.newName(s.names));
                 s'.txns == s.txns[h := Txn(h, client.value.id, r.redirectUri, r.challenge, r.audience, r.scope,
                                            r.clientState, found.value.id, w.newName(s.names + 1), now + ttl, None)]
  {
    IslandsOnly(s, ResolveClient(s, r.clientId, fetch).0, r.audience);
    hide IslandForAudience;
  }

  /** The client that stands is the one resolved. */
  lemma ClientIs(s: Store, clientId: string, redirectUri: string, fetch: Option<string -> ClientDoc>)
    requires clientId in s.clients ==> s.clients[clientId].id == clientId
    ensures var r := ResolveClient(s, clientId, fetch).1;
            && (Admitted(s, clientId, redirectUri, fetch) <==> r.Ok? && redirectUri in r.value.redirectUris)
            && (r.Ok? ==> r.value.id == clientId)
            && (r.Err? ==> r.error.UnknownClient? || r.error.NoRedirectUris?)
  {
    ResolveAnswers(s, clientId, fetch);
    var r := ResolveClient(s, clientId, fetch).1;
    if r.Ok? { assert Stands(s, clientId, fetch, r.value); }
    hide ResolveClient;
  }

  /**
   A login starts exactly when its client stands and registered the redirect and the first island of
   the audience is enabled; its transaction then holds what was asked, the island and a new nonce.
   */
  lemma StartSucceedsExactly(w: World, s: Store, r: LoginRequest, now: real, ttl: real,
                             fetch: Option<string -> ClientDoc>)
    requires Valid(s.islands) && (r.clientId in s.clients ==> s.clients[r.clientId].id == r.clientId)
    ensures var (s', started) := StartFederation(w, s, r, now, ttl, fetch);
            && (started.Ok? <==>
                  && Admitted(s, r.clientId, r.redirectUri, fetch)
                  && exists island :: FirstFor(s, r.audience, island) && island.disabledAt.None?)
            && (started.Ok? ==> Began(w, s, s', r, started.value, now + ttl))
            && (started.Err? ==> s'.txns == s.txns)
  {
    StartIs(w, s, r, now, ttl, fetch);
    ClientIs(s, r.clientId, r.redirectUri, fetch);
    IslandIsFirst(s, r.audience);
    var found := IslandForAudience(s, r.audience);
    if found.Some? { assert FirstFor(s, r.audience, found.value); }
    hide StartFederation, ResolveClient, IslandForAudience, FirstFor, Admitted, Valid;
  }

  /** It is the island's fault exactly when the client may come back there and no enabled island is first. */
  lemma StartErrors(w: World, s: Store, r: LoginRequest, now: real, ttl: real, fetch: Option<string -> ClientDoc>)
    requires Valid(s.islands) && (r.clientId in s.clients ==> s.clients[r.clientId].id == r.clientId)
    ensures var started, admitted := StartFederation(w, s, r, now, ttl, fetch).1,
                                     Admitted(s, r.clientId, r.redirectUri, fetch);
            && (started == Err(NoIsland) <==>
                  admitted && forall i :: i in s.islands.data ==> s.islands.data[i].audience != r.audience)
            && (started == Err(IslandDisabled) <==>
                  admitted && exists island :: FirstFor(s, r.audience, island) && island.disabledAt.Some?)
  {
    StartIs(w, s, r, now, ttl, fetch);
    ClientIs(s, r.clientId, r.redirectUri, fetch);
    IslandIsFirst(s, r.audience);
    var found := IslandForAudience(s, r.audience);
    if found.Some? { assert FirstFor(s, r.audience, found.value); }
    hide StartFederation, ResolveClient, IslandForAudience, FirstFor, Admitted, Valid;
  }

  ghost predicate Began(w: World, s: Store, s': Store, r: LoginRequest, started: Started, until: real) {
    && started.txnId == w.newName(s.names) && started.nonce == w.newName(s.names + 1)
    && var h := w.hash(started.txnId);
       && h in s'.txns && s'.txns == s.txns[h := s'.txns[h]]
       && var txn := s'.txns[h];
          && txn.hash == h && txn.clientId == r.clientId && txn.redirectUri == r.redirectUri
          && txn.challenge == r.challenge && txn.audience == r.audience && txn.scope == r.scope
          && txn.clientState == r.clientState && txn.nonce == started.nonce
          && txn.expiresAt == until && txn.consumedAt.None?
          && exists island :: FirstFor(s, r.audience, island) && txn.islandId == island.id
  }

  lemma IslandsOnly(s: Store, s1: Store, audience: string)
    requires s1.islands == s.islands
    ensures IslandForAudience(s1, audience) == IslandForAudience(s, audience)
  {
  }

  // ----- completing a login -----

  /** The island's assertion is for this kernel, echoes the nonce of this login, and is in time. */
  predicate Vouches(answer: IslandAnswer, issuer: string, nonce: string, kernelIssuer: string, now: real) {
    match answer
    case FetchFailed => false
    case Assertion(claims) =>
      && claims.Some? && claims.value.iss == issuer && claims.value.aud == kernelIssuer
      && claims.value.nonce == Some(nonce) && now < claims.value.exp
  }

  /** The transaction can be used now. */
  predicate Usable(s: Store, x: string, now: real) {
    x in s.txns && s.txns[x].consumedAt.None? && now < s.txns[x].expiresAt
  }

  predicate Enabled(s: Store, islandId: string) {
    islandId in s.islands.data && s.islands.data[islandId].disabledAt.None?
  }

  predicate StillRegistered(s: Store, clientId: string, redirectUri: string) {
    clientId in s.clients && redirectUri in s.clients[clientId].redirectUris
  }

  /**
   A login is completed exactly when its transaction is known, unused and in time, its island
   registered and enabled, the island's answer vouches for it, and its client and redirect still stand.
   */
  lemma CompletionSucceedsExactly(w: World, s: Store, txnId: string, answer: IslandAnswer, now: real,
                                  kernelIssuer: string)
    ensures var r := CompleteFederation(w, s, txnId, answer, now, kernelIssuer).1;
            var x := w.hash(txnId);
            r.Ok? <==>
              && Usable(s, x, now) && Enabled(s, s.txns[x].islandId)
              && Vouches(answer, s.islands.data[s.txns[x].islandId].issuer, s.txns[x].nonce, kernelIssuer, now)
              && StillRegistered(s, s.txns[x].clientId, s.txns[x].redirectUri)
  {
    var x := w.hash(txnId);
    if Usable(s, x, now) && Enabled(s, s.txns[x].islandId) && answer.Assertion? && answer.claims.Some? {
      var s1 := s.(txns := s.txns[x := s.txns[x].(consumedAt := Some(now))]);
      AdmitAnswers(w, s1, s.txns[x], s.islands.data[s.txns[x].islandId], answer.claims.value, now);
    }
    hide Admit;
  }

  lemma AdmitAnswers(w: World, s: Store, txn: Txn, island: Island, claims: Claims, now: real)
    ensures Admit(w, s, txn, island, claims, now).1.Ok? <==> StillRegistered(s, txn.clientId, txn.redirectUri)
  {
    hide FindOrCreate;
    LinkKeepsClients(w, s, island, claims.sub, claims.email, now);
  }

  /** The n-th operation completed the login behind this code, on an assertion that echoed its transaction's nonce. */
  ghost predicate VouchedBy(w: World, s: Store, ops: seq<Op>, n: nat, login: Login) {
    && n < |ops| && ops[n].DoComplete? && login.txn == w.hash(ops[n].txnId)
    && var was, op := Exec(w, s, ops[..n]).store, ops[n];
       && Usable(was, login.txn, op.now) && Enabled(was, was.txns[login.txn].islandId)
       && Vouches(op.answer, was.islands.data[was.txns[login.txn].islandId].issuer, was.txns[login.txn].nonce,
                  op.kernelIssuer, op.now)
       && op.answer.claims.value.sub == login.user
  }

  lemma CompletionLogs(w: World, t: Traced, op: Op, c: string)
    requires c in Apply(w, t, op).logins && (c in t.logins ==> Apply(w, t, op).logins[c] != t.logins[c])
    ensures op.DoComplete? && var s, login := t.store, Apply(w, t, op).logins[c];
            && login.txn == w.hash(op.txnId) && Usable(s, login.txn, op.now) && Enabled(s, s.txns[login.txn].islandId)
            && Vouches(op.answer, s.islands.data[s.txns[login.txn].islandId].issuer, s.txns[login.txn].nonce,
                       op.kernelIssuer, op.now)
            && op.answer.claims.value.sub == login.user
  {
    hide RedeemCode, Refresh, StartFederation, IssueAuthCode;
    if op.DoComplete? { CompletionSucceedsExactly(w, t.store, op.txnId, op.answer, op.now, op.kernelIssuer); }
    hide CompleteFederation;
  }

  /**
   Over every run each federated code was issued on an assertion of its own island, for this kernel,
   in time, that echoed the nonce of its own transaction, and is for the user it asserted.
   */
  lemma {:induction false} EveryLoginWasVouchedFor(w: World, s: Store, ops: seq<Op>, c: string)
    requires c in Exec(w, s, ops).logins
    ensures exists n: nat :: VouchedBy(w, s, ops, n, Exec(w, s, ops).logins[c])
  {
    if ops != [] {
      hide Apply;
      var front, last := ops[..|ops| - 1], |ops| - 1;
      var t := Exec(w, s, front);
      assert Exec(w, s, ops) == Apply(w, t, ops[last]);
      if c in t.logins && Apply(w, t, ops[last]).logins[c] == t.logins[c] {
        EveryLoginWasVouchedFor(w, s, front, c);
        var n: nat :| VouchedBy(w, s, front, n, t.logins[c]);
        assert front[..n] == ops[..n];
        assert VouchedBy(w, s, ops, n, t.logins[c]);
      } else {
        CompletionLogs(w, t, ops[last], c);
        assert VouchedBy(w, s, ops, last, Exec(w, s, ops).logins[c]);
      }
    }
  }

  /** Which error a completion gives: the transaction's fault first, then the island's, then its answer's. */
  lemma CompletionErrors(w: World, s: Store, txnId: string, answer: IslandAnswer, now: real, kernelIssuer: string)
    ensures var r := CompleteFederation(w, s, txnId, answer, now, kernelIssuer).1;
            var x := w.hash(txnId);
            && (r == Err(UnknownTxn) <==> x !in s.txns)
            && (r == Err(TxnExpired) <==> x in s.txns && now >= s.txns[x].expiresAt)
            && (r == Err(TxnUsed) <==> x in s.txns && now < s.txns[x].expiresAt && s.txns[x].consumedAt.Some?)
            && (r == Err(IslandUnavailable) <==> Usable(s, x, now) && !Enabled(s, s.txns[x].islandId))
            && (r == Err(ExchangeFailed) <==>
                  Usable(s, x, now) && Enabled(s, s.txns[x].islandId) && answer.FetchFailed?)
            && (r == Err(BadAssertion) <==>
                  && Usable(s, x, now) && Enabled(s, s.txns[x].islandId) && answer.Assertion?
                  && !Vouches(answer, s.islands.data[s.txns[x].islandId].issuer, s.txns[x].nonce, kernelIssuer, now))
  {
    hide FindOrCreate;
  }

  // ----- redeeming -----

  /** Which error a refused redemption gives: the first check that fails, the use of the code last. */
  lemma RedeemErrors(w: World, s: Store, code: string, verifier: string, audience: Option<string>, now: real,
                     accessTtl: real, refreshTtl: Option<real>)
    ensures var r, c := RedeemCode(w, s, code, verifier, audience, now, accessTtl, refreshTtl).1, w.hash(code);
            && (r == Err(UnknownCode) <==> c !in s.codes)
            && (r == Err(CodeExpired) <==> c in s.codes && now >= s.codes[c].expiresAt)
            && (r == Err(AudienceMismatch) <==>
                  && c in s.codes && now < s.codes[c].expiresAt
                  && audience.Some? && audience.value != s.codes[c].grant.audience)
            && (r == Err(PkceFailed) <==>
                  && c in s.codes && now < s.codes[c].expiresAt
                  && (audience.Some? ==> audience.value == s.codes[c].grant.audience)
                  && w.s256(verifier) != s.codes[c].challenge)
            && (r == Err(CodeUsed) <==>
                  && c in s.codes && now < s.codes[c].expiresAt
                  && (audience.Some? ==> audience.value == s.codes[c].grant.audience)
                  && w.s256(verifier) == s.codes[c].challenge && s.codes[c].consumedAt.Some?)
  {
    hide IssuePair, ResolveRefreshTtl;
  }

  /** The code of a completed login is its transaction's, unused, for ten minutes. */
  lemma CompletionStores(w: World, s: Store, txnId: string, answer: IslandAnswer, now: real, kernelIssuer: string)
    ensures var (s', r) := CompleteFederation(w, s, txnId, answer, now, kernelIssuer);
            r.Ok? ==>
              && w.hash(txnId) in s.txns && w.hash(r.value) in s'.codes
              && var code, txn := s'.codes[w.hash(r.value)], s.txns[w.hash(txnId)];
                 && code.expiresAt == now + 600.0 && code.consumedAt.None? && code.challenge == txn.challenge
                 && code.grant.audience == txn.audience && code.grant.scope == txn.scope
  {
    hide FindOrCreate;
  }

  /**
   The code of a login is refused from 600 seconds after the login's completion, whatever has been
   done meanwhile, and until then is accepted with the login's PKCE proof unless it has been used.
   */
  lemma FederatedCodeLivesTenMinutes(w: World, s: Store, ops: seq<Op>, done: Op, more: seq<Op>, verifier: string,
                                     audience: Option<string>, later: real, accessTtl: real, refreshTtl: Option<real>)
    requires Sound(w) && Initial(w, s) && done.DoComplete?
    requires CompleteFederation(w, Exec(w, s, ops).store, done.txnId, done.answer, done.now, done.kernelIssuer).1.Ok?
    ensures var was, now := Exec(w, s, ops).store, Exec(w, s, ops + [done] + more).store;
            var code := CompleteFederation(w, was, done.txnId, done.answer, done.now, done.kernelIssuer).1.value;
            var r := RedeemCode(w, now, code, verifier, audience, later, accessTtl, refreshTtl).1;
            && w.hash(done.txnId) in was.txns && w.hash(code) in now.codes
            && (r == Err(CodeExpired) <==> later >= done.now + 600.0)
            && (r.Ok? <==>
                  && later < done.now + 600.0 && now.codes[w.hash(code)].consumedAt.None?
                  && w.s256(verifier) == was.txns[w.hash(done.txnId)].challenge
                  && (audience.Some? ==> audience.value == was.txns[w.hash(done.txnId)].audience))
  {
    hide Sound, Initial, Exec, RedeemCode, CompleteFederation;
    var t, all := Exec(w, s, ops), ops + [done];
    CompletionStores(w, t.store, done.txnId, done.answer, done.now, done.kernelIssuer);
    AfterOne(w, s, ops, done);
    RunsKeep(w, s, all, more);
    var code := CompleteFederation(w, t.store, done.txnId, done.answer, done.now, done.kernelIssuer).1.value;
    var now := Exec(w, s, all + more).store;
    RedeemErrors(w, now, code, verifier, audience, later, accessTtl, refreshTtl);
    RedeemSucceedsExactly(w, now, code, verifier, audience, later, accessTtl, refreshTtl);
  }

  lemma AfterOne(w: World, s: Store, ops: seq<Op>, op: Op)
    ensures Exec(w, s, ops + [op]) == Apply(w, Exec(w, s, ops), op)
    ensures op.DoComplete? ==>
              Exec(w, s, ops + [op]).store
              == CompleteFederation(w, Exec(w, s, ops).store, op.txnId, op.answer, op.now, op.kernelIssuer).0
  {
    assert (ops + [op])[..|ops|] == ops;
  }

  // ----- exchange -----

  /** A long-lived token that is good for this audience now. */
  predicate LongLived(s: Store, h: string, audience: string, now: real) {
    && h in s.mcp && s.mcp[h].revokedAt.None?
    && (s.mcp[h].audience.None? || s.mcp[h].audience.value == audience)
    && (s.mcp[h].expiresAt.None? || now < s.mcp[h].expiresAt.value)
  }

  /** An access token that is good for this audience now. */
  predicate Access(s: Store, h: string, audience: string, now: real) {
    h in s.tokens.data && s.tokens.data[h].grant.audience == audience && now < s.tokens.data[h].expiresAt
  }

  /** A token is exchanged exactly when it is a good long-lived token, or not one at all but a good access token. */
  lemma ExchangeSucceedsExactly(w: World, s: Store, token: string, audience: string, now: real)
    ensures var r, h := Exchange(w, s, token, audience, now), w.hash(token);
            && (r.Ok? <==> LongLived(s, h, audience, now) || (h !in s.mcp && Access(s, h, audience, now)))
            && (r == Err(UnknownToken) <==> h !in s.mcp && h !in s.tokens.data)
            && (r == Err(Revoked) <==> h in s.mcp && s.mcp[h].revokedAt.Some?)
            && (r == Err(AudienceMismatch) <==>
                  if h in s.mcp
                  then s.mcp[h].revokedAt.None? && s.mcp[h].audience.Some? && s.mcp[h].audience != Some(audience)
                  else h in s.tokens.data && s.tokens.data[h].grant.audience != audience)
            && (r == Err(TokenExpired) <==>
                  if h in s.mcp
                  then
                    && s.mcp[h].revokedAt.None? && (s.mcp[h].audience.None? || s.mcp[h].audience == Some(audience))
                    && s.mcp[h].expiresAt.Some? && now >= s.mcp[h].expiresAt.value
                  else
                    && h in s.tokens.data && s.tokens.data[h].grant.audience == audience
                    && now >= s.tokens.data[h].expiresAt)
  {
    hide Describe;
  }

  /** What is said of a principal in an org: the roles of its active membership, its kind, and one of its links. */
  ghost predicate Describes(s: Store, r: Resolved, pid: string, orgId: Option<string>) {
    && r.principalId == pid && r.orgId == orgId
    && r.roles == (if orgId.Some? && |orgId.value| > 0 && (pid, orgId.value) in s.memberships
                      && s.memberships[(pid, orgId.value)].active
                   then s.memberships[(pid, orgId.value)].roles else [])
    && r.kind == (if pid in s.principals then s.principals[pid].kind else "human")
    && (r.island.Some? <==> r.islandSub.Some?)
    && (r.island.Some? <==> exists k :: k in s.links.data && s.links.data[k].principalId == pid)
    && (r.island.Some? ==>
          exists k :: k in s.links.data && s.links.data[k].principalId == pid
                      && r.island == Some(s.links.data[k].islandId)
                      && r.islandSub == Some(s.links.data[k].islandUserId))
  }

  /** An exchange answers for the principal and org of the token it accepted. */
  lemma ExchangeAnswers(w: World, s: Store, token: string, audience: string, now: real)
    requires Valid(s.links)
    ensures var r, h := Exchange(w, s, token, audience, now), w.hash(token);
            r.Ok? ==>
              && (h in s.mcp ==> Describes(s, r.value, s.mcp[h].principalId, s.mcp[h].orgId))
              && (h !in s.mcp ==>
                    h in s.tokens.data
                    && Describes(s, r.value, s.tokens.data[h].grant.principalId, s.tokens.data[h].grant.orgId))
  {
    var h := w.hash(token);
    if h in s.mcp { DescribeIs(s, s.mcp[h].principalId, s.mcp[h].orgId); }
    else if h in s.tokens.data { DescribeIs(s, s.tokens.data[h].grant.principalId, s.tokens.data[h].grant.orgId); }
    hide Describe, Describes;
  }

  lemma DescribeIs(s: Store, pid: string, orgId: Option<string>)
    requires Valid(s.links)
    ensures Describes(s, Describe(s, pid, orgId), pid, orgId)
  {
    FirstNone(s.links, (l: Link) => l.principalId == pid);
  }
}
