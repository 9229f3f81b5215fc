/**
 The identity kernel as a function of its store: authorization codes, access and refresh
 tokens, federated login and token exchange (sections 4.1.2 and 6 of RFC 6749, section 4.6
 of RFC 7636).
 */
module IdentitySpec {
  import opened Wrappers
  import opened Dict

  /** Name generation, token hashing and the PKCE transform, as arbitrary functions. */
  datatype World = World(newName: nat -> string, hash: string -> string, s256: string -> string)

  datatype Client = Client(id: string, name: string, redirectUris: seq<string>)

  datatype ClientDoc = ClientDoc(name: Option<string>, redirectUris: seq<string>)

  /** What a code and every token descended from it carry. */
  datatype Grant = Grant(clientId: string, principalId: string, orgId: Option<string>, audience: string, scope: string)

  datatype AuthCode = AuthCode(hash: string, grant: Grant, challenge: string, expiresAt: real, consumedAt: Option<real>)

  datatype RefreshPart = RefreshPart(hash: string, expiresAt: real)

  datatype AccessToken = AccessToken(hash: string, grant: Grant, expiresAt: real, refresh: Option<RefreshPart>)

  datatype McpToken = McpToken(hash: string, principalId: string, orgId: Option<string>, audience: Option<string>,
                               expiresAt: Option<real>, revokedAt: Option<real>)

  datatype Island = Island(id: string, issuer: string, audience: string, orgId: string,
                           sessionTtlDays: real, disabledAt: Option<real>)

  datatype Link = Link(islandId: string, islandUserId: string, principalId: string, createdAt: real)

  datatype Principal = Principal(id: string, kind: string, email: Option<string>, createdAt: real)

  datatype Membership = Membership(principalId: string, orgId: string, roles: seq<string>, active: bool, joinedAt: real)

  datatype Txn = Txn(hash: string, clientId: string, redirectUri: string, challenge: string, audience: string,
                     scope: string, clientState: string, islandId: string, nonce: string,
                     expiresAt: real, consumedAt: Option<real>)

  datatype Store = Store(
    names: nat,
    clients: map<string, Client>,
    codes: map<string, AuthCode>,
    tokens: Dict<string, AccessToken>,
    mcp: map<string, McpToken>,
    islands: Dict<string, Island>,
    links: Dict<(string, string), Link>,
    principals: map<string, Principal>,
    memberships: map<(string, string), Membership>,
    txns: map<string, Txn>)

  datatype Error =
    | UnknownClient | NoRedirectUris | UnregisteredRedirect
    | UnknownCode | CodeExpired | AudienceMismatch | PkceFailed | CodeUsed
    | UnknownRefresh | RefreshExpired
    | NoIsland | IslandDisabled | UnknownTxn | TxnExpired | TxnUsed | IslandUnavailable | ExchangeFailed | BadAssertion
    | UnknownToken | Revoked | TokenExpired

  // ----- clients and codes -----

  predicate IsHttps(s: string) {
    "https://" <= s
  }

  function ResolveClient(s: Store, clientId: string,
                         fetch: Option<string -> ClientDoc>): (Store, Result<Client, Error>) {
    if clientId in s.clients then (s, Ok(s.clients[clientId]))
    else if IsHttps(clientId) && fetch.Some? then
      var doc := fetch.value(clientId);
      if doc.redirectUris == [] then (s, Err(NoRedirectUris))
      else
        var c := Client(clientId, if doc.name.Some? then doc.name.value else clientId, doc.redirectUris);
        (s.(clients := s.clients[clientId := c]), Ok(c))
    else (s, Err(UnknownClient))
  }

  function IssueAuthCode(w: World, s: Store, grant: Grant, redirectUri: string, challenge: string,
                         now: real, ttl: real, fetch: Option<string -> ClientDoc>): (Store, Result<string, Error>)
  {
    var (s1, client) := ResolveClient(s, grant.clientId, fetch);
    if client.Err? then (s1, Err(client.error))
    else if redirectUri !in client.value.redirectUris then (s1, Err(UnregisteredRedirect))
    else
      var raw := w.newName(s.names);
      var h := w.hash(raw);
      var code := AuthCode(h, grant.(clientId := client.value.id), challenge, now + ttl, None);
      (s1.(names := s.names + 1, codes := s.codes[h := code]), Ok(raw))
  }

  // ----- tokens -----

  datatype Pair = Pair(accessToken: string, refreshToken: string, expiresIn: real)

  const DAY: real := 86400.0

  function IslandForAudience(s: Store, audience: string): Option<Island> {
    First(s.islands, (i: Island) => i.audience == audience)
  }

  function ResolveRefreshTtl(s: Store, audience: string, refreshTtl: Option<real>): real {
    match refreshTtl
    case Some(ttl) => ttl
    case None =>
      match IslandForAudience(s, audience)
      case Some(island) => island.sessionTtlDays * DAY
      case None => 30.0 * DAY
  }

  function IssuePair(w: World, s: Store, grant: Grant, now: real, accessTtl: real, refreshTtl: real): (Store, Pair) {
    var access, refresh := w.newName(s.names), w.newName(s.names + 1);
    var row := AccessToken(w.hash(access), grant, now + accessTtl,
                           Some(RefreshPart(w.hash(refresh), now + refreshTtl)));
    (s.(names := s.names + 2, tokens := Put(s.tokens, row.hash, row)), Pair(access, refresh, accessTtl))
  }

  /** None when the code may be consumed. */
  function CodeProblem(w: World, code: AuthCode, verifier: string, audience: Option<string>, now: real): Option<Error> {
    if now >= code.expiresAt then Some(CodeExpired)
    else if audience.Some? && code.grant.audience != audience.value then Some(AudienceMismatch)
    else if w.s256(verifier) != code.challenge then Some(PkceFailed)
    else None
  }

  function RedeemCode(w: World, s: Store, code: string, verifier: string, audience: Option<string>, now: real,
                      accessTtl: real, refreshTtl: Option<real>): (Store, Result<Pair, Error>)
  {
    var h := w.hash(code);
    if h !in s.codes then (s, Err(UnknownCode))
    else
      var row := s.codes[h];
      var problem := CodeProblem(w, row, verifier, audience, now);
      if problem.Some? then (s, Err(problem.value))
      else if row.consumedAt.Some? then (s, Err(CodeUsed))
      else
        var s1 := s.(codes := s.codes[h := row.(consumedAt := Some(now))]);
        var (s2, pair) := IssuePair(w, s1, row.grant, now, accessTtl,
                                    ResolveRefreshTtl(s1, row.grant.audience, refreshTtl));
        (s2, Ok(pair))
  }

  predicate CarriesRefresh(t: AccessToken, h: string) {
    t.refresh.Some? && t.refresh.value.hash == h
  }

  /** The first row, in insertion order, whose refresh hash is this one. */
  function FindRefresh(s: Store, h: string): Option<AccessToken> {
    First(s.tokens, (t: AccessToken) => CarriesRefresh(t, h))
  }

  function RotateRefresh(s: Store, oldHash: string, row: AccessToken): Store {
    s.(tokens := Put(Remove(s.tokens, oldHash), row.hash, row))
  }

  function Refresh(w: World, s: Store, refreshToken: string, now: real, accessTtl: real,
                   refreshTtl: Option<real>): (Store, Result<Pair, Error>)
  {
    match FindRefresh(s, w.hash(refreshToken))
    case None => (s, Err(UnknownRefresh))
    case Some(current) =>
      if current.refresh.None? || now >= current.refresh.value.expiresAt then (s, Err(RefreshExpired))
      else
        var ttl := ResolveRefreshTtl(s, current.grant.audience, refreshTtl);
        var (s1, pair) := IssuePair(w, s, current.grant, now, accessTtl, ttl);
        var h := w.hash(pair.accessToken);
        (RotateRefresh(s1, current.hash, s1.tokens.data[h]), Ok(pair))
  }

  // ----- federated login -----

  datatype LoginRequest = LoginRequest(clientId: string, redirectUri: string, challenge: string, audience: string,
                                       scope: string, clientState: string)

  /** The transaction id handed to the browser, and the nonce the island must echo. */
  datatype Started = Started(txnId: string, nonce: string)

  function StartFederation(w: World, s: Store, r: LoginRequest, now: real, ttl: real,
                           fetch: Option<string -> ClientDoc>): (Store, Result<Started, Error>)
  {
    var (s1, client) := ResolveClient(s, r.clientId, fetch);
    if client.Err? then (s1, Err(client.error))
    else if r.redirectUri !in client.value.redirectUris then (s1, Err(UnregisteredRedirect))
    else
      match IslandForAudience(s1, r.audience)
      case None => (s1, Err(NoIsland))
      case Some(island) =>
        if island.disabledAt.Some? then (s1, Err(IslandDisabled))
        else
          var id, nonce := w.newName(s.names), w.newName(s.names + 1);
          var h := w.hash(id);
          var txn := Txn(h, client.value.id, r.redirectUri, r.challenge, r.audience, r.scope, r.clientState,
                         island.id, nonce, now + ttl, None);
          (s1.(names := s.names + 2, txns := s.txns[h := txn]), Ok(Started(id, nonce)))
  }

  /** The claims of an assertion whose signature verified. */
  datatype Claims = Claims(iss: string, aud: string, nonce: Option<string>, exp: real, sub: string,
                           email: Option<string>)

  /** What the island's token endpoint gave: nothing, or an assertion that may fail its signature check. */
  datatype IslandAnswer = FetchFailed | Assertion(claims: Option<Claims>)

  function VerifyAssertion(claims: Option<Claims>, iss: string, aud: string, nonce: string, now: real): Option<Claims> {
    if claims.Some? && claims.value.iss == iss && claims.value.aud == aud
       && now < claims.value.exp && claims.value.nonce == Some(nonce)
    then claims else None
  }

  function FindOrCreate(w: World, s: Store, island: Island, user: string, email: Option<string>,
                        now: real): (Store, string) {
    if (island.id, user) in s.links.data then (s, s.links.data[(island.id, user)].principalId)
    else
      var pid := w.newName(s.names);
      (s.(names := s.names + 1,
          principals := s.principals[pid := Principal(pid, "human", email, now)],
          memberships := s.memberships[(pid, island.orgId) := Membership(pid, island.orgId, ["member"], true, now)],
          links := Put(s.links, (island.id, user), Link(island.id, user, pid, now))),
       pid)
  }

  const CODE_TTL: real := 600.0

  function TxnGrant(t: Txn, pid: string, island: Island): Grant {
    Grant(t.clientId, pid, Some(island.orgId), t.audience, t.scope)
  }

  /** The part of a completion after the island's answer has been checked. */
  function Admit(w: World, s: Store, txn: Txn, island: Island, claims: Claims,
                 now: real): (Store, Result<string, Error>) {
    var (s1, pid) := FindOrCreate(w, s, island, claims.sub, claims.email, now);
    IssueAuthCode(w, s1, TxnGrant(txn, pid, island), txn.redirectUri, txn.challenge, now, CODE_TTL, None)
  }

  function CompleteFederation(w: World, s: Store, txnId: string, answer: IslandAnswer, now: real,
                              kernelIssuer: string): (Store, Result<string, Error>)
  {
    var h := w.hash(txnId);
    if h !in s.txns then (s, Err(UnknownTxn))
    else
      var txn := s.txns[h];
      if now >= txn.expiresAt then (s, Err(TxnExpired))
      else if txn.consumedAt.Some? then (s, Err(TxnUsed))
      else
        var s1 := s.(txns := s.txns[h := txn.(consumedAt := Some(now))]);
        if txn.islandId !in s.islands.data || s.islands.data[txn.islandId].disabledAt.Some?
           then (s1, Err(IslandUnavailable))
        else if answer.FetchFailed? then (s1, Err(ExchangeFailed))
        else
          var island := s.islands.data[txn.islandId];
          var claims := VerifyAssertion(answer.claims, island.issuer, kernelIssuer, txn.nonce, now);
          if claims.None? then (s1, Err(BadAssertion)) else Admit(w, s1, txn, island, claims.value, now)
  }

  // ----- exchange -----

  datatype Resolved = Resolved(principalId: string, orgId: Option<string>, roles: seq<string>, kind: string,
                               island: Option<string>, islandSub: Option<string>)

  function PrincipalByIsland(s: Store, islandId: string, user: string): Option<string> {
    if (islandId, user) in s.links.data then Some(s.links.data[(islandId, user)].principalId) else None
  }

  function LinkByPrincipal(s: Store, pid: string): Option<Link> {
    First(s.links, (l: Link) => l.principalId == pid)
  }

  /** Roles of the active membership; an absent or empty org has none. */
  function RolesOf(s: Store, pid: string, orgId: Option<string>): seq<string> {
    if orgId.None? || orgId.value == "" || (pid, orgId.value) !in s.memberships then []
    else
      var m := s.memberships[(pid, orgId.value)];
      if m.active then m.roles else []
  }

  function Describe(s: Store, pid: string, orgId: Option<string>): Resolved {
    var link := LinkByPrincipal(s, pid);
    Resolved(pid, orgId, RolesOf(s, pid, orgId),
             if pid in s.principals then s.principals[pid].kind else "human",
             if link.Some? then Some(link.value.islandId) else None,
             if link.Some? then Some(link.value.islandUserId) else None)
  }

  function Exchange(w: World, s: Store, opaqueToken: string, audience: string, now: real): Result<Resolved, Error> {
    var h := w.hash(opaqueToken);
    if h in s.mcp then
      var row := s.mcp[h];
      if row.revokedAt.Some? then Err(Revoked)
      else if row.audience.Some? && row.audience.value != audience then Err(AudienceMismatch)
      else if row.expiresAt.Some? && now >= row.expiresAt.value then Err(TokenExpired)
      else Ok(Describe(s, row.principalId, row.orgId))
    else if h in s.tokens.data then
      var row := s.tokens.data[h];
      if row.grant.audience != audience then Err(AudienceMismatch)
      else if now >= row.expiresAt then Err(TokenExpired)
      else Ok(Describe(s, row.grant.principalId, row.grant.orgId))
    else Err(UnknownToken)
  }
}
