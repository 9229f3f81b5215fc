/** What every sequential run of the identity kernel keeps, over a fixed island registry. */
module IdentityRuns {
  import opened Wrappers
  import opened Dict
  import opened IdentitySpec
  import opened Names

  // ----- runs, with their history -----

  datatype Login = Login(txn: string, user: string)

  /**
   The store and what the run remembers: the code each token descends from, the token each
   redeemed code is now at, the login behind each federated code, the refresh tokens accepted.
   */
  datatype Traced = Traced(store: Store, origin: map<string, string>, live: map<string, string>,
                           logins: map<string, Login>, spent: seq<string>)

  datatype Op =
    | DoIssue(grant: Grant, redirectUri: string, challenge: string, now: real, ttl: real,
              fetch: Option<string -> ClientDoc>)
    | DoRedeem(code: string, verifier: string, audience: Option<string>, now: real, accessTtl: real,
               refreshTtl: Option<real>)
    | DoRefresh(refreshToken: string, now: real, accessTtl: real, refreshTtl: Option<real>)
    | DoStart(request: LoginRequest, now: real, ttl: real, fetch: Option<string -> ClientDoc>)
    | DoComplete(txnId: string, answer: IslandAnswer, now: real, kernelIssuer: string)

  function Apply(w: World, t: Traced, op: Op): Traced {
    var s := t.store;
    match op
    case DoIssue(grant, redirectUri, challenge, now, ttl, fetch) =>
      t.(store := IssueAuthCode(w, s, grant, redirectUri, challenge, now, ttl, fetch).0)
    case DoRedeem(code, verifier, audience, now, accessTtl, refreshTtl) =>
      var (s', r) := RedeemCode(w, s, code, verifier, audience, now, accessTtl, refreshTtl);
      if r.Err? then t.(store := s')
      else
        var c, h := w.hash(code), w.hash(r.value.accessToken);
        t.(store := s', origin := t.origin[h := c], live := t.live[c := h])
    case DoRefresh(refreshToken, now, accessTtl, refreshTtl) =>
      var (s', r) := Refresh(w, s, refreshToken, now, accessTtl, refreshTtl);
      var current := FindRefresh(s, w.hash(refreshToken));
      if r.Err? || current.None? || current.value.hash !in t.origin then t.(store := s')
      else
        var c, h := t.origin[current.value.hash], w.hash(r.value.accessToken);
        t.(store := s', origin := t.origin[h := c], live := t.live[c := h], spent := t.spent + [refreshToken])
    case DoStart(request, now, ttl, fetch) => t.(store := StartFederation(w, s, request, now, ttl, fetch).0)
    case DoComplete(txnId, answer, now, kernelIssuer) =>
      var (s', r) := CompleteFederation(w, s, txnId, answer, now, kernelIssuer);
      if r.Err? || answer.FetchFailed? || answer.claims.None? then t.(store := s')
      else t.(store := s', logins := t.logins[w.hash(r.value) := Login(w.hash(txnId), answer.claims.value.sub)])
  }

  function Exec(w: World, s: Store, ops: seq<Op>): Traced {
    if ops == [] then Traced(s, map[], map[], map[], []) else Apply(w, Exec(w, s, ops[..|ops| - 1]), ops[|ops| - 1])
  }

  // ----- the invariant -----

  ghost predicate CodesOk(w: World, n: nat, codes: map<string, AuthCode>) {
    forall c :: c in codes ==> codes[c].hash == c && Minted(w, n, c)
  }

  ghost predicate TokenOk(w: World, n: nat, h: string, row: AccessToken) {
    row.hash == h && Minted(w, n, h) && row.refresh.Some? && Minted(w, n, row.refresh.value.hash)
  }

  ghost predicate TokensOk(w: World, n: nat, tokens: map<string, AccessToken>, mcp: map<string, McpToken>) {
    forall h :: h in tokens ==> TokenOk(w, n, h, tokens[h]) && h !in mcp
  }

  /** Names still to come hash to nothing among the long-lived tokens. */
  ghost predicate McpApart(w: World, n: nat, mcp: map<string, McpToken>) {
    forall i: nat :: i >= n ==> w.hash(w.newName(i)) !in mcp
  }

  /** No two rows carry the same refresh hash. */
  ghost predicate RefreshUnique(tokens: map<string, AccessToken>) {
    forall h, h' | h in tokens && h' in tokens && h != h' ::
      tokens[h].refresh.Some? ==> !CarriesRefresh(tokens[h'], tokens[h].refresh.value.hash)
  }

  /** Redeemed codes and token rows are in one-to-one correspondence, and rows carry their code's grant. */
  ghost predicate Lineage(codes: map<string, AuthCode>, tokens: map<string, AccessToken>,
                          origin: map<string, string>, live: map<string, string>)
  {
    && (forall c :: c in live <==> c in codes && codes[c].consumedAt.Some?)
    && (forall c :: c in live ==> live[c] in tokens && live[c] in origin && origin[live[c]] == c)
    && (forall h :: h in tokens ==>
          && h in origin && origin[h] in live && live[origin[h]] == h
          && tokens[h].grant == codes[origin[h]].grant)
  }

  ghost predicate Retired(w: World, n: nat, tokens: map<string, AccessToken>, r: string) {
    Named(w, n, r) && forall h :: h in tokens ==> !CarriesRefresh(tokens[h], w.hash(r))
  }

  ghost predicate SpentOk(w: World, n: nat, tokens: map<string, AccessToken>, spent: seq<string>) {
    NoDuplicates(spent) && forall r :: r in spent ==> Retired(w, n, tokens, r)
  }

  ghost predicate IslandsOk(islands: Dict<string, Island>) {
    Valid(islands) && forall i :: i in islands.data ==> islands.data[i].id == i
  }

  ghost predicate LinkOk(w: World, n: nat, k: (string, string), l: Link, islands: map<string, Island>,
                         principals: map<string, Principal>, memberships: map<(string, string), Membership>)
  {
    && (l.islandId, l.islandUserId) == k && k.0 in islands
    && Named(w, n, l.principalId)
    && l.principalId in principals && principals[l.principalId].kind == "human"
    && (l.principalId, islands[k.0].orgId) in memberships
    && memberships[(l.principalId, islands[k.0].orgId)].roles == ["member"]
    && memberships[(l.principalId, islands[k.0].orgId)].active
  }

  /** One principal per island user and one island user per principal. */
  ghost predicate LinksInjective(links: map<(string, string), Link>) {
    forall j, k | j in links && k in links && j != k :: links[j].principalId != links[k].principalId
  }

  ghost predicate LinksOk(w: World, n: nat, links: Dict<(string, string), Link>, islands: map<string, Island>,
                          principals: map<string, Principal>, memberships: map<(string, string), Membership>)
  {
    && Valid(links) && LinksInjective(links.data)
    && forall k :: k in links.data ==> LinkOk(w, n, k, links.data[k], islands, principals, memberships)
  }

  ghost predicate TxnsOk(w: World, n: nat, txns: map<string, Txn>) {
    forall x :: x in txns ==> txns[x].hash == x && Minted(w, n, x)
  }

  ghost predicate ClientsOk(clients: map<string, Client>) {
    forall id :: id in clients ==> clients[id].id == id
  }

  /** A federated code carries what its login established. */
  ghost predicate LoginOk(c: string, login: Login, codes: map<string, AuthCode>, txns: map<string, Txn>,
                          islands: map<string, Island>, links: map<(string, string), Link>)
  {
    && c in codes && login.txn in txns
    && var txn := txns[login.txn];
       && txn.islandId in islands && (txn.islandId, login.user) in links
       && codes[c].grant == TxnGrant(txn, links[(txn.islandId, login.user)].principalId, islands[txn.islandId])
  }

  ghost predicate LoginsOk(logins: map<string, Login>, codes: map<string, AuthCode>, txns: map<string, Txn>,
                           islands: map<string, Island>, links: map<(string, string), Link>)
  {
    forall c :: c in logins ==> LoginOk(c, logins[c], codes, txns, islands, links)
  }

  /** What holds of codes and tokens. */
  ghost predicate TokenSide(w: World, n: nat, codes: map<string, AuthCode>, tokens: Dict<string, AccessToken>,
                            mcp: map<string, McpToken>, origin: map<string, string>, live: map<string, string>,
                            spent: seq<string>)
  {
    && CodesOk(w, n, codes)
    && Valid(tokens) && TokensOk(w, n, tokens.data, mcp) && McpApart(w, n, mcp) && RefreshUnique(tokens.data)
    && Lineage(codes, tokens.data, origin, live) && SpentOk(w, n, tokens.data, spent)
  }

  /** What holds of islands, their users and federated logins. */
  ghost predicate LoginSide(w: World, n: nat, s: Store, codes: map<string, AuthCode>, logins: map<string, Login>) {
    && IslandsOk(s.islands) && LinksOk(w, n, s.links, s.islands.data, s.principals, s.memberships)
    && TxnsOk(w, n, s.txns) && ClientsOk(s.clients)
    && LoginsOk(logins, codes, s.txns, s.islands.data, s.links.data)
  }

  ghost predicate Inv(w: World, t: Traced) {
    var s := t.store;
    && TokenSide(w, s.names, s.codes, s.tokens, s.mcp, t.origin, t.live, t.spent)
    && LoginSide(w, s.names, s, s.codes, t.logins)
  }

  /** A store with clients and islands registered and nothing issued yet. */
  ghost predicate Initial(w: World, s: Store) {
    && s.codes == map[] && s.tokens == Empty() && s.links == Empty() && s.txns == map[]
    && IslandsOk(s.islands) && ClientsOk(s.clients) && McpApart(w, s.names, s.mcp)
  }

  // ----- names and codes -----

  /** Using up names changes nothing that is already named. */
  lemma TokenNames(w: World, n: nat, m: nat, codes: map<string, AuthCode>, tokens: Dict<string, AccessToken>,
                   mcp: map<string, McpToken>, origin: map<string, string>, live: map<string, string>,
                     spent: seq<string>)
    requires TokenSide(w, n, codes, tokens, mcp, origin, live, spent) && n <= m
    ensures TokenSide(w, m, codes, tokens, mcp, origin, live, spent)
  {
    forall x: string ensures Minted(w, n, x) ==> Minted(w, m, x) { MintedGrows(w, n, m, x); }
    forall x: string ensures Named(w, n, x) ==> Named(w, m, x) { MintedGrows(w, n, m, x); }
  }

  lemma LoginNames(w: World, n: nat, m: nat, s: Store, codes: map<string, AuthCode>, logins: map<string, Login>)
    requires LoginSide(w, n, s, codes, logins) && n <= m
    ensures LoginSide(w, m, s, codes, logins)
  {
    forall x: string ensures Minted(w, n, x) ==> Minted(w, m, x) { MintedGrows(w, n, m, x); }
    forall x: string ensures Named(w, n, x) ==> Named(w, m, x) { MintedGrows(w, n, m, x); }
  }

  /** Logins keep standing while codes keep their grants. */
  lemma LoginCodes(w: World, n: nat, s: Store, codes: map<string, AuthCode>, codes': map<string, AuthCode>,
                   logins: map<string, Login>)
    requires LoginSide(w, n, s, codes, logins)
    requires forall c :: c in codes ==> c in codes' && codes'[c].grant == codes[c].grant
    ensures LoginSide(w, n, s, codes', logins)
  {
    forall c | c in logins ensures LoginOk(c, logins[c], codes', s.txns, s.islands.data, s.links.data) {
      assert LoginOk(c, logins[c], codes, s.txns, s.islands.data, s.links.data);
    }
  }

  lemma TokenAddCode(w: World, n: nat, codes: map<string, AuthCode>, tokens: Dict<string, AccessToken>,
                     mcp: map<string, McpToken>, origin: map<string, string>, live: map<string, string>,
                     spent: seq<string>, code: AuthCode)
    requires TokenSide(w, n, codes, tokens, mcp, origin, live, spent)
    requires code.consumedAt.None? && Minted(w, n, code.hash) && code.hash !in codes
    ensures TokenSide(w, n, codes[code.hash := code], tokens, mcp, origin, live, spent)
  {
    hide TokensOk, McpApart, RefreshUnique, SpentOk, Valid;
    LineageAdded(codes, tokens.data, origin, live, code);
  }

  lemma LineageAdded(codes: map<string, AuthCode>, tokens: map<string, AccessToken>,
                     origin: map<string, string>, live: map<string, string>, code: AuthCode)
    requires Lineage(codes, tokens, origin, live) && code.consumedAt.None? && code.hash !in codes
    ensures Lineage(codes[code.hash := code], tokens, origin, live)
  {
  }

  lemma ResolveKeepsRest(s: Store, clientId: string, fetch: Option<string -> ClientDoc>)
    requires ClientsOk(s.clients)
    ensures var (s', r) := ResolveClient(s, clientId, fetch);
            && s' == s.(clients := s'.clients) && ClientsOk(s'.clients)
            && (r.Ok? ==> r.value.id == clientId)
  {
  }

  /** The code an authorization adds, if it adds one. */
  function NewCode(w: World, s: Store, grant: Grant, challenge: string, expiresAt: real): AuthCode {
    AuthCode(w.hash(w.newName(s.names)), grant, challenge, expiresAt, None)
  }

  lemma IssueCases(w: World, s: Store, grant: Grant, redirectUri: string, challenge: string,
                   now: real, ttl: real, fetch: Option<string -> ClientDoc>)
    requires ClientsOk(s.clients)
    ensures var (s', r) := IssueAuthCode(w, s, grant, redirectUri, challenge, now, ttl, fetch);
            var code := NewCode(w, s, grant, challenge, now + ttl);
            && ClientsOk(s'.clients)
            && (r.Err? ==> s' == s.(clients := s'.clients))
            && (r.Ok? ==> r.value == w.newName(s.names)
                          && s' == s.(clients := s'.clients, names := s.names + 1, codes := s.codes[code.hash := code]))
  {
    ResolveKeepsRest(s, grant.clientId, fetch);
  }

  lemma IssueKeepsInv(w: World, t: Traced, grant: Grant, redirectUri: string, challenge: string,
                      now: real, ttl: real, fetch: Option<string -> ClientDoc>)
    requires Sound(w) && Inv(w, t)
    ensures Inv(w, t.(store := IssueAuthCode(w, t.store, grant, redirectUri, challenge, now, ttl, fetch).0))
  {
    hide Sound, TokensOk, McpApart, RefreshUnique, Lineage, SpentOk, LinksOk, TxnsOk, LoginsOk, IssueAuthCode, Minted;
    var s := t.store;
    IssueCases(w, s, grant, redirectUri, challenge, now, ttl, fetch);
    if IssueAuthCode(w, s, grant, redirectUri, challenge, now, ttl, fetch).1.Ok? {
      var code, n := NewCode(w, s, grant, challenge, now + ttl), s.names + 1;
      NewIsNew(w, s.names, s.names);
      assert code.hash !in s.codes;
      TokenNames(w, s.names, n, s.codes, s.tokens, s.mcp, t.origin, t.live, t.spent);
      TokenAddCode(w, n, s.codes, s.tokens, s.mcp, t.origin, t.live, t.spent, code);
      LoginNames(w, s.names, n, s, s.codes, t.logins);
      LoginCodes(w, n, s, s.codes, s.codes[code.hash := code], t.logins);
    }
  }

  // ----- transactions -----

  lemma LoginPutTxn(w: World, n: nat, s: Store, codes: map<string, AuthCode>, logins: map<string, Login>, txn: Txn)
    requires LoginSide(w, n, s, codes, logins) && Minted(w, n, txn.hash)
    requires txn.hash in s.txns ==> txn == s.txns[txn.hash].(consumedAt := txn.consumedAt)
    ensures LoginSide(w, n, s.(txns := s.txns[txn.hash := txn]), codes, logins)
  {
    var txns := s.txns[txn.hash := txn];
    forall c | c in logins ensures LoginOk(c, logins[c], codes, txns, s.islands.data, s.links.data) {
      assert LoginOk(c, logins[c], codes, s.txns, s.islands.data, s.links.data);
    }
  }

  /** Starting a login stores one transaction under a new name, or nothing but perhaps a client. */
  lemma StartCases(w: World, s: Store, request: LoginRequest, now: real, ttl: real, fetch: Option<string -> ClientDoc>)
    returns (txn: Option<Txn>)
    requires ClientsOk(s.clients) && IslandsOk(s.islands)
    ensures var (s', r) := StartFederation(w, s, request, now, ttl, fetch);
            && ClientsOk(s'.clients)
            && (r.Ok? <==> txn.Some?)
            && (txn.None? ==> s' == s.(clients := s'.clients))
            && (txn.Some? ==>
                  && txn.value.hash == w.hash(w.newName(s.names)) && txn.value.clientId == request.clientId
                  && s' == s.(clients := s'.clients, names := s.names + 2, txns := s.txns[txn.value.hash := txn.value]))
  {
    ResolveKeepsRest(s, request.clientId, fetch);
    var (s', r) := StartFederation(w, s, request, now, ttl, fetch);
    txn := if r.Ok? then Some(s'.txns[w.hash(w.newName(s.names))]) else None;
  }

  lemma StartKeepsInv(w: World, t: Traced, request: LoginRequest, now: real, ttl: real,
                      fetch: Option<string -> ClientDoc>)
    requires Sound(w) && Inv(w, t)
    ensures Inv(w, t.(store := StartFederation(w, t.store, request, now, ttl, fetch).0))
  {
    var s := t.store;
    var txn := StartCases(w, s, request, now, ttl, fetch);
    var s' := StartFederation(w, s, request, now, ttl, fetch).0;
    if txn.Some? {
      StoreTxn(w, t, s', txn.value);
    }
  }

  lemma StoreTxn(w: World, t: Traced, s': Store, txn: Txn)
    requires Sound(w) && Inv(w, t) && ClientsOk(s'.clients)
    requires txn.hash == w.hash(w.newName(t.store.names))
    requires s' == t.store.(clients := s'.clients, names := t.store.names + 2, txns := t.store.txns[txn.hash := txn])
    ensures Inv(w, t.(store := s'))
  {
    var s, n := t.store, t.store.names + 2;
    NewIsNew(w, s.names, s.names);
    MintedGrows(w, s.names + 1, n, txn.hash);
    TokenNames(w, s.names, n, s.codes, s.tokens, s.mcp, t.origin, t.live, t.spent);
    LoginNames(w, s.names, n, s, s.codes, t.logins);
    assert txn.hash !in s.txns;
    LoginPutTxn(w, n, s, s.codes, t.logins, txn);
  }

  // ----- redeeming -----

  ghost predicate NewRow(w: World, n: nat, row: AccessToken) {
    && row.hash == w.hash(w.newName(n))
    && row.refresh.Some? && row.refresh.value.hash == w.hash(w.newName(n + 1))
  }

  /** A row whose hashes are both new, as a store of n names sees it. */
  ghost predicate Unseen(w: World, n: nat, row: AccessToken) {
    && TokenOk(w, n + 2, row.hash, row) && !Minted(w, n, row.hash) && !Minted(w, n, row.refresh.value.hash)
    && forall r :: Named(w, n, r) ==> !CarriesRefresh(row, w.hash(r))
  }

  lemma NewRowIsUnseen(w: World, n: nat, row: AccessToken, mcp: map<string, McpToken>)
    requires Sound(w) && NewRow(w, n, row) && McpApart(w, n, mcp)
    ensures Unseen(w, n, row) && row.hash !in mcp
  {
    NewIsNew(w, n, n);
    NewIsNew(w, n, n + 1);
    MintedGrows(w, n + 1, n + 2, row.hash);
    forall r | Named(w, n, r) ensures !CarriesRefresh(row, w.hash(r)) {
      assert r != w.newName(n + 1);
    }
  }

  lemma AddRow(w: World, n: nat, tokens: map<string, AccessToken>, mcp: map<string, McpToken>, row: AccessToken)
    requires Unseen(w, n, row) && row.hash !in mcp
    requires TokensOk(w, n, tokens, mcp) && RefreshUnique(tokens)
    ensures TokensOk(w, n + 2, tokens[row.hash := row], mcp) && RefreshUnique(tokens[row.hash := row])
    ensures row.hash !in tokens
  {
    forall h | h in tokens
      ensures TokenOk(w, n + 2, h, tokens[h]) && tokens[h].refresh.value.hash != row.refresh.value.hash && h != row.hash
    {
      assert TokenOk(w, n, h, tokens[h]);
      MintedGrows(w, n, n + 2, h);
      MintedGrows(w, n, n + 2, tokens[h].refresh.value.hash);
    }
  }

  lemma SpentGrows(w: World, n: nat, tokens: map<string, AccessToken>, spent: seq<string>, row: AccessToken)
    requires Unseen(w, n, row) && SpentOk(w, n, tokens, spent)
    ensures SpentOk(w, n + 2, tokens[row.hash := row], spent)
  {
    forall r | r in spent ensures Retired(w, n + 2, tokens[row.hash := row], r) {
      assert Retired(w, n, tokens, r);
      MintedGrows(w, n, n + 2, r);
    }
  }

  lemma CodesRedeemed(w: World, n: nat, m: nat, codes: map<string, AuthCode>, c: string, at: real)
    requires CodesOk(w, n, codes) && c in codes && n <= m
    ensures CodesOk(w, m, codes[c := codes[c].(consumedAt := Some(at))])
  {
    forall x | x in codes ensures Minted(w, m, x) { MintedGrows(w, n, m, x); }
  }

  lemma LineageRedeemed(codes: map<string, AuthCode>, tokens: map<string, AccessToken>,
                        origin: map<string, string>, live: map<string, string>,
                        c: string, at: real, row: AccessToken)
    requires Lineage(codes, tokens, origin, live) && row.hash !in tokens
    requires c in codes && codes[c].consumedAt.None? && row.grant == codes[c].grant
    ensures Lineage(codes[c := codes[c].(consumedAt := Some(at))], tokens[row.hash := row],
                    origin[row.hash := c], live[c := row.hash])
  {
  }

  lemma TokenRedeemed(w: World, n: nat, codes: map<string, AuthCode>, tokens: Dict<string, AccessToken>,
                      mcp: map<string, McpToken>, origin: map<string, string>, live: map<string, string>,
                      spent: seq<string>, c: string, at: real, row: AccessToken)
    requires TokenSide(w, n, codes, tokens, mcp, origin, live, spent)
    requires Unseen(w, n, row) && row.hash !in mcp
    requires c in codes && codes[c].consumedAt.None? && row.grant == codes[c].grant
    ensures TokenSide(w, n + 2, codes[c := codes[c].(consumedAt := Some(at))], Put(tokens, row.hash, row), mcp,
                      origin[row.hash := c], live[c := row.hash], spent)
  {
    PutValid(tokens, row.hash, row);
    AddRow(w, n, tokens.data, mcp, row);
    SpentGrows(w, n, tokens.data, spent, row);
    CodesRedeemed(w, n, n + 2, codes, c, at);
    LineageRedeemed(codes, tokens.data, origin, live, c, at, row);
  }

  lemma RedeemCases(w: World, s: Store, code: string, verifier: string, audience: Option<string>, now: real,
                    accessTtl: real, refreshTtl: Option<real>) returns (row: Option<AccessToken>)
    ensures var (s', r) := RedeemCode(w, s, code, verifier, audience, now, accessTtl, refreshTtl);
            var c := w.hash(code);
            && (r.Ok? <==> row.Some?)
            && (row.None? ==> s' == s)
            && (row.Some? ==>
                  && c in s.codes && s.codes[c].consumedAt.None?
                  && NewRow(w, s.names, row.value) && row.value.grant == s.codes[c].grant
                  && row.value.hash == w.hash(r.value.accessToken)
                  && s' == s.(names := s.names + 2, codes := s.codes[c := s.codes[c].(consumedAt := Some(now))],
                              tokens := Put(s.tokens, row.value.hash, row.value)))
  {
    var (s', r) := RedeemCode(w, s, code, verifier, audience, now, accessTtl, refreshTtl);
    row := if r.Ok? then Some(s'.tokens.data[w.hash(r.value.accessToken)]) else None;
  }

  lemma Redeemed(w: World, t: Traced, t': Traced, c: string, at: real, row: AccessToken)
    requires Sound(w) && Inv(w, t)
    requires c in t.store.codes && t.store.codes[c].consumedAt.None?
    requires NewRow(w, t.store.names, row) && row.grant == t.store.codes[c].grant
    requires t'.store == t.store.(names := t.store.names + 2, codes := t'.store.codes,
                                  tokens := Put(t.store.tokens, row.hash, row))
    requires t'.store.codes == t.store.codes[c := t.store.codes[c].(consumedAt := Some(at))]
    requires t' == t.(store := t'.store, origin := t.origin[row.hash := c], live := t.live[c := row.hash])
    ensures Inv(w, t')
  {
    hide Sound, NewRow, Valid, CodesOk, TokensOk, McpApart, RefreshUnique, Lineage, SpentOk, LinksOk, TxnsOk, LoginsOk;
    var s, n := t.store, t.store.names;
    NewRowIsUnseen(w, n, row, s.mcp);
    TokenRedeemed(w, n, s.codes, s.tokens, s.mcp, t.origin, t.live, t.spent, c, at, row);
    LoginNames(w, n, n + 2, s, s.codes, t.logins);
    LoginCodes(w, n + 2, s, s.codes, t'.store.codes, t.logins);
  }

  lemma RedeemKeepsInv(w: World, t: Traced, code: string, verifier: string, audience: Option<string>, now: real,
                       accessTtl: real, refreshTtl: Option<real>)
    requires Sound(w) && Inv(w, t)
    ensures Inv(w, Apply(w, t, DoRedeem(code, verifier, audience, now, accessTtl, refreshTtl)))
  {
    var row := RedeemCases(w, t.store, code, verifier, audience, now, accessTtl, refreshTtl);
    if row.Some? {
      Redeemed(w, t, Apply(w, t, DoRedeem(code, verifier, audience, now, accessTtl, refreshTtl)), w.hash(code), now,
               row.value);
    }
  }

  lemma McpStaysApart(w: World, n: nat, m: nat, mcp: map<string, McpToken>)
    requires McpApart(w, n, mcp) && n <= m
    ensures McpApart(w, m, mcp)
  {
  }

  // ----- refreshing -----

  function Rotated(tokens: Dict<string, AccessToken>, o: string, row: AccessToken): Dict<string, AccessToken> {
    Put(Remove(Put(tokens, row.hash, row), o), row.hash, row)
  }

  lemma RefreshFound(w: World, s: Store, h: string) returns (o: string)
    requires Valid(s.tokens) && TokensOk(w, s.names, s.tokens.data, s.mcp) && FindRefresh(s, h).Some?
    ensures o in s.tokens.data && s.tokens.data[o] == FindRefresh(s, h).value
    ensures s.tokens.data[o].hash == o && CarriesRefresh(s.tokens.data[o], h)
  {
    FirstNone(s.tokens, (t: AccessToken) => CarriesRefresh(t, h));
    o :| o in s.tokens.data && s.tokens.data[o] == FindRefresh(s, h).value && CarriesRefresh(s.tokens.data[o], h);
  }

  /** An accepted refresh replaces the row at one key, which carries the token presented. */
  lemma RefreshCases(w: World, s: Store, refreshToken: string, now: real, accessTtl: real, refreshTtl: Option<real>)
    returns (row: Option<AccessToken>, o: string)
    requires Valid(s.tokens) && TokensOk(w, s.names, s.tokens.data, s.mcp)
    ensures var (s', r) := Refresh(w, s, refreshToken, now, accessTtl, refreshTtl);
            && (r.Ok? <==> row.Some?)
            && (row.None? ==> s' == s)
            && (row.Some? ==>
                  && o in s.tokens.data && FindRefresh(s, w.hash(refreshToken)) == Some(s.tokens.data[o])
                  && s.tokens.data[o].hash == o && CarriesRefresh(s.tokens.data[o], w.hash(refreshToken))
                  && NewRow(w, s.names, row.value) && row.value.grant == s.tokens.data[o].grant
                  && row.value.hash == w.hash(r.value.accessToken)
                  && s' == s.(names := s.names + 2, tokens := Rotated(s.tokens, o, row.value)))
  {
    hide Valid, TokensOk, FindRefresh, ResolveRefreshTtl, CarriesRefresh;
    var found := FindRefresh(s, w.hash(refreshToken));
    row, o := None, "";
    if found.Some? {
      o := RefreshFound(w, s, w.hash(refreshToken));
      var (s', r) := Refresh(w, s, refreshToken, now, accessTtl, refreshTtl);
      if r.Ok? {
        var (s1, pair) := IssuePair(w, s, found.value.grant, now, accessTtl,
                                    ResolveRefreshTtl(s, found.value.grant.audience, refreshTtl));
        row := Some(s1.tokens.data[w.hash(pair.accessToken)]);
      }
    }
  }

  lemma RotatedRows(tokens: Dict<string, AccessToken>, o: string, row: AccessToken)
    requires Valid(tokens) && row.hash !in tokens.data && o in tokens.data
    ensures Valid(Rotated(tokens, o, row))
    ensures Rotated(tokens, o, row).data == (tokens.data - {o})[row.hash := row]
  {
    PutValid(tokens, row.hash, row);
    RemoveValid(Put(tokens, row.hash, row), o);
    PutValid(Remove(Put(tokens, row.hash, row), o), row.hash, row);
  }

  /** The code the old row descended from is now at the new one. */
  lemma LineageRotated(codes: map<string, AuthCode>, tokens: map<string, AccessToken>,
                       origin: map<string, string>, live: map<string, string>, o: string, row: AccessToken)
    requires Lineage(codes, tokens, origin, live) && row.hash !in tokens
    requires o in tokens && row.grant == tokens[o].grant
    ensures Lineage(codes, (tokens - {o})[row.hash := row], origin[row.hash := origin[o]], live[origin[o] := row.hash])
  {
    var c, h := origin[o], row.hash;
    var tokens', origin', live' := (tokens - {o})[h := row], origin[h := c], live[c := h];
    forall d | d in live' ensures live'[d] in tokens' && live'[d] in origin' && origin'[live'[d]] == d {
      if d != c { assert live[d] in tokens && live[d] != o && live[d] != h; }
    }
    forall k | k in tokens'
      ensures k in origin' && origin'[k] in live' && live'[origin'[k]] == k
              && tokens'[k].grant == codes[origin'[k]].grant
    {
      if k != h { assert k in tokens && k != o && origin[k] != c; }
    }
  }

  lemma SpentRotated(w: World, n: nat, tokens: map<string, AccessToken>, spent: seq<string>, o: string,
                     row: AccessToken, r: string)
    requires Unseen(w, n, row) && SpentOk(w, n, tokens, spent) && RefreshUnique(tokens)
    requires o in tokens && CarriesRefresh(tokens[o], w.hash(r)) && Named(w, n, r)
    ensures SpentOk(w, n + 2, (tokens - {o})[row.hash := row], spent + [r])
  {
    assert !Retired(w, n, tokens, r);
    var tokens' := (tokens - {o})[row.hash := row];
    forall q | q in spent + [r] ensures Retired(w, n + 2, tokens', q) {
      MintedGrows(w, n, n + 2, q);
      if q in spent { assert Retired(w, n, tokens, q); }
    }
  }

  lemma CodesNamed(w: World, n: nat, m: nat, codes: map<string, AuthCode>)
    requires CodesOk(w, n, codes) && n <= m
    ensures CodesOk(w, m, codes)
  {
    forall c | c in codes ensures Minted(w, m, c) { MintedGrows(w, n, m, c); }
  }

  /** What holds of every row and every two rows holds when one is gone. */
  lemma RowsRemain(w: World, n: nat, more: map<string, AccessToken>, fewer: map<string, AccessToken>,
                   mcp: map<string, McpToken>)
    requires TokensOk(w, n, more, mcp) && RefreshUnique(more)
    requires forall h :: h in fewer ==> h in more && fewer[h] == more[h]
    ensures TokensOk(w, n, fewer, mcp) && RefreshUnique(fewer)
  {
  }

  lemma TokenRotated(w: World, n: nat, codes: map<string, AuthCode>, tokens: Dict<string, AccessToken>,
                     tokens': Dict<string, AccessToken>, mcp: map<string, McpToken>, origin: map<string, string>,
                     live: map<string, string>, spent: seq<string>, o: string, row: AccessToken, r: string)
    requires TokenSide(w, n, codes, tokens, mcp, origin, live, spent)
    requires Unseen(w, n, row) && row.hash !in mcp
    requires o in tokens.data && row.grant == tokens.data[o].grant
    requires CarriesRefresh(tokens.data[o], w.hash(r)) && Named(w, n, r)
    requires Valid(tokens') && tokens'.data == (tokens.data - {o})[row.hash := row]
    ensures TokenSide(w, n + 2, codes, tokens', mcp,
                      origin[row.hash := origin[o]], live[origin[o] := row.hash], spent + [r])
  {
    hide Unseen, Valid, Named, CodesOk, TokensOk, McpApart, RefreshUnique, Lineage, SpentOk;
    AddRow(w, n, tokens.data, mcp, row);
    SpentRotated(w, n, tokens.data, spent, o, row, r);
    LineageRotated(codes, tokens.data, origin, live, o, row);
    CodesNamed(w, n, n + 2, codes);
    McpStaysApart(w, n, n + 2, mcp);
    RowsRemain(w, n + 2, tokens.data[row.hash := row], tokens'.data, mcp);
  }

  lemma CarriedIsNamed(w: World, n: nat, tokens: map<string, AccessToken>, mcp: map<string, McpToken>, o: string,
                       r: string)
    requires Sound(w) && TokensOk(w, n, tokens, mcp)
    requires o in tokens && CarriesRefresh(tokens[o], w.hash(r))
    ensures Named(w, n, r)
  {
    assert TokenOk(w, n, o, tokens[o]);
  }

  lemma RowHasOrigin(codes: map<string, AuthCode>, tokens: map<string, AccessToken>,
                     origin: map<string, string>, live: map<string, string>, h: string)
    requires Lineage(codes, tokens, origin, live) && h in tokens
    ensures h in origin && origin[h] in codes && origin[h] in live && live[origin[h]] == h
    ensures tokens[h].grant == codes[origin[h]].grant
  {
  }

  lemma Refreshed(w: World, t: Traced, t': Traced, o: string, row: AccessToken, r: string)
    requires Sound(w) && Inv(w, t)
    requires o in t.store.tokens.data && o in t.origin && CarriesRefresh(t.store.tokens.data[o], w.hash(r))
    requires NewRow(w, t.store.names, row) && row.grant == t.store.tokens.data[o].grant
    requires t'.store == t.store.(names := t.store.names + 2, tokens := t'.store.tokens)
    requires t'.store.tokens == Rotated(t.store.tokens, o, row)
    requires t' == t.(store := t'.store, origin := t.origin[row.hash := t.origin[o]],
                      live := t.live[t.origin[o] := row.hash], spent := t.spent + [r])
    ensures Inv(w, t')
  {
    var s, n := t.store, t.store.names;
    hide Sound, NewRow, Unseen, Valid, Rotated, CodesOk, TokensOk, McpApart, RefreshUnique, Lineage, SpentOk,
         LinksOk, TxnsOk, LoginsOk;
    NewRowIsUnseen(w, n, row, s.mcp);
    CarriedIsNamed(w, n, s.tokens.data, s.mcp, o, r);
    AddRow(w, n, s.tokens.data, s.mcp, row);
    RotatedRows(s.tokens, o, row);
    TokenRotated(w, n, s.codes, s.tokens, t'.store.tokens, s.mcp, t.origin, t.live, t.spent, o, row, r);
    LoginNames(w, n, n + 2, s, s.codes, t.logins);
  }

  lemma RefreshKeepsInv(w: World, t: Traced, refreshToken: string, now: real, accessTtl: real, refreshTtl: Option<real>)
    requires Sound(w) && Inv(w, t)
    ensures Inv(w, Apply(w, t, DoRefresh(refreshToken, now, accessTtl, refreshTtl)))
  {
    hide Sound, NewRow, Rotated, CodesOk, TokensOk, McpApart, RefreshUnique, Lineage, SpentOk, LoginSide, FindRefresh;
    var row, o := RefreshCases(w, t.store, refreshToken, now, accessTtl, refreshTtl);
    if row.Some? {
      RowHasOrigin(t.store.codes, t.store.tokens.data, t.origin, t.live, o);
      Refreshed(w, t, Apply(w, t, DoRefresh(refreshToken, now, accessTtl, refreshTtl)), o, row.value, refreshToken);
    } else {
      assert Apply(w, t, DoRefresh(refreshToken, now, accessTtl, refreshTtl)) == t;
    }
  }

  // ----- completing a login -----

  function ConsumedTxn(s: Store, h: string, at: real): Store
    requires h in s.txns
  {
    s.(txns := s.txns[h := s.txns[h].(consumedAt := Some(at))])
  }

  lemma ConsumeKeepsInv(w: World, t: Traced, h: string, at: real)
    requires Inv(w, t) && h in t.store.txns
    ensures Inv(w, t.(store := ConsumedTxn(t.store, h, at)))
  {
    hide CodesOk, TokensOk, McpApart, RefreshUnique, Lineage, SpentOk, IslandsOk, LinksOk, ClientsOk, LoginsOk;
    var s := t.store;
    assert s.txns[h].hash == h && Minted(w, s.names, h);
    LoginPutTxn(w, s.names, s, s.codes, t.logins, s.txns[h].(consumedAt := Some(at)));
  }

  /** A first login adds a principal, its membership and its link under a new name; a later one changes nothing. */
  ghost predicate Linked(w: World, s: Store, s': Store, island: Island, user: string, pid: string) {
    var k := (island.id, user);
    && k in s'.links.data && s'.links.data[k].principalId == pid
    && if k in s.links.data then s' == s
       else
         && pid == w.newName(s.names)
         && s' == s.(names := s.names + 1, principals := s'.principals, memberships := s'.memberships,
                     links := s'.links)
         && (exists p: Principal :: p.kind == "human" && s'.principals == s.principals[pid := p])
         && (exists m: Membership :: m.roles == ["member"] && m.active
                                     && s'.memberships == s.memberships[(pid, island.orgId) := m])
         && (exists l: Link :: l.islandId == island.id && l.islandUserId == user && l.principalId == pid
                               && s'.links == Put(s.links, k, l))
  }

  lemma FindOrCreateLinks(w: World, s: Store, island: Island, user: string, email: Option<string>, now: real)
    ensures var (s', pid) := FindOrCreate(w, s, island, user, email, now);
            Linked(w, s, s', island, user, pid)
  {
    var (s', pid) := FindOrCreate(w, s, island, user, email, now);
    if (island.id, user) !in s.links.data {
      var p, m := Principal(pid, "human", email, now), Membership(pid, island.orgId, ["member"], true, now);
      var l := Link(island.id, user, pid, now);
      assert s'.principals == s.principals[pid := p];
      assert s'.memberships == s.memberships[(pid, island.orgId) := m];
      assert s'.links == Put(s.links, (island.id, user), l);
    }
  }

  lemma LinksGrow(w: World, n: nat, links: Dict<(string, string), Link>, islands: map<string, Island>,
                  principals: map<string, Principal>, memberships: map<(string, string), Membership>,
                  island: Island, l: Link, p: Principal, m: Membership)
    requires LinksOk(w, n, links, islands, principals, memberships)
    requires Named(w, n + 1, l.principalId) && !Named(w, n, l.principalId)
    requires l.islandId in islands && islands[l.islandId] == island
    requires p.kind == "human" && m.roles == ["member"] && m.active
    ensures LinksOk(w, n + 1, Put(links, (l.islandId, l.islandUserId), l), islands, principals[l.principalId := p],
                    memberships[(l.principalId, island.orgId) := m])
  {
    var key := (l.islandId, l.islandUserId);
    var principals', memberships' := principals[l.principalId := p], memberships[(l.principalId, island.orgId) := m];
    PutValid(links, key, l);
    assert LinkOk(w, n + 1, key, l, islands, principals', memberships');
    forall k | k in links.data
      ensures LinkOk(w, n + 1, k, links.data[k], islands, principals', memberships')
      ensures links.data[k].principalId != l.principalId
    {
      assert LinkOk(w, n, k, links.data[k], islands, principals, memberships);
      MintedGrows(w, n, n + 1, links.data[k].principalId);
    }
  }

  lemma LoginsOutliveLinks(logins: map<string, Login>, codes: map<string, AuthCode>, txns: map<string, Txn>,
                           islands: map<string, Island>, links: map<(string, string), Link>,
                           links': map<(string, string), Link>)
    requires LoginsOk(logins, codes, txns, islands, links)
    requires forall k :: k in links ==> k in links' && links'[k] == links[k]
    ensures LoginsOk(logins, codes, txns, islands, links')
  {
    forall c | c in logins ensures LoginOk(c, logins[c], codes, txns, islands, links') {
      assert LoginOk(c, logins[c], codes, txns, islands, links);
    }
  }

  lemma LinkKeepsInv(w: World, t: Traced, s': Store, island: Island, user: string, pid: string)
    requires Sound(w) && Inv(w, t)
    requires island.id in t.store.islands.data && t.store.islands.data[island.id] == island
    requires Linked(w, t.store, s', island, user, pid)
    ensures Inv(w, t.(store := s'))
  {
    hide CodesOk, TokensOk, McpApart, RefreshUnique, Lineage, SpentOk;
    hide IslandsOk, LinksOk, TxnsOk, ClientsOk, LoginsOk, Sound;
    var s, k := t.store, (island.id, user);
    if k !in s.links.data {
      var n := s.names + 1;
      var p: Principal :| p.kind == "human" && s'.principals == s.principals[pid := p];
      var m: Membership :| m.roles == ["member"] && m.active
        && s'.memberships == s.memberships[(pid, island.orgId) := m];
      var l: Link :| l.islandId == island.id && l.islandUserId == user && l.principalId == pid
                     && s'.links == Put(s.links, k, l);
      NewIsNew(w, s.names, s.names);
      TokenNames(w, s.names, n, s.codes, s.tokens, s.mcp, t.origin, t.live, t.spent);
      LoginNames(w, s.names, n, s, s.codes, t.logins);
      LinksGrow(w, s.names, s.links, s.islands.data, s.principals, s.memberships, island, l, p, m);
      LoginsOutliveLinks(t.logins, s.codes, s.txns, s.islands.data, s.links.data, s'.links.data);
    } else {
      assert t.(store := s') == t;
    }
  }

  /** A login whose code carries what it established joins the others. */
  lemma LoginRecorded(w: World, t: Traced, c: string, login: Login)
    requires Inv(w, t)
    requires LoginOk(c, login, t.store.codes, t.store.txns, t.store.islands.data, t.store.links.data)
    ensures Inv(w, t.(logins := t.logins[c := login]))
  {
    hide CodesOk, TokensOk, McpApart, RefreshUnique, Lineage, SpentOk, IslandsOk, LinksOk, TxnsOk, ClientsOk;
  }

  lemma LinkedRegistry(w: World, s: Store, s': Store, island: Island, user: string, pid: string)
    requires Linked(w, s, s', island, user, pid)
    ensures s'.islands == s.islands && s'.txns == s.txns
  {
  }

  lemma LoginAdmitted(s: Store, s1: Store, s2: Store, w: World, h: string, txn: Txn, island: Island, user: string,
                      pid: string, code: AuthCode)
    requires h in s.txns && txn == s.txns[h].(consumedAt := txn.consumedAt)
    requires txn.islandId in s.islands.data && island == s.islands.data[txn.islandId] && island.id == txn.islandId
    requires Linked(w, s, s1, island, user, pid) && code.grant == TxnGrant(txn, pid, island)
    requires s2 == s1.(clients := s2.clients, names := s2.names, codes := s1.codes[code.hash := code])
    ensures LoginOk(code.hash, Login(h, user), s2.codes, s2.txns, s2.islands.data, s2.links.data)
  {
  }

  lemma RegistryKept(w: World, t: Traced, islandId: string)
    requires Inv(w, t) && islandId in t.store.islands.data
    ensures ClientsOk(t.store.clients) && t.store.islands.data[islandId].id == islandId
  {
  }

  lemma AdmitKeepsInv(w: World, t: Traced, h: string, txn: Txn, island: Island, claims: Claims, now: real)
    requires Sound(w) && Inv(w, t)
    requires h in t.store.txns && txn == t.store.txns[h].(consumedAt := txn.consumedAt)
    requires txn.islandId in t.store.islands.data && island == t.store.islands.data[txn.islandId]
    ensures var (s', r) := Admit(w, t.store, txn, island, claims, now);
            Inv(w, if r.Err? then t.(store := s')
                   else t.(store := s', logins := t.logins[w.hash(r.value) := Login(h, claims.sub)]))
  {
    hide Inv, Sound, Linked, LoginOk, FindOrCreate, IssueAuthCode;
    var s := t.store;
    RegistryKept(w, t, txn.islandId);
    var (s1, pid) := FindOrCreate(w, s, island, claims.sub, claims.email, now);
    FindOrCreateLinks(w, s, island, claims.sub, claims.email, now);
    assert s1.islands == s.islands by { LinkedRegistry(w, s, s1, island, claims.sub, pid); }
    LinkKeepsInv(w, t, s1, island, claims.sub, pid);
    var t1, grant := t.(store := s1), TxnGrant(txn, pid, island);
    IssueKeepsInv(w, t1, grant, txn.redirectUri, txn.challenge, now, CODE_TTL, None);
    RegistryKept(w, t1, txn.islandId);
    IssueCases(w, s1, grant, txn.redirectUri, txn.challenge, now, CODE_TTL, None);
    var (s2, r) := IssueAuthCode(w, s1, grant, txn.redirectUri, txn.challenge, now, CODE_TTL, None);
    if !r.Err? {
      assert r.Ok?;
      LoginAdmitted(s, s1, s2, w, h, txn, island, claims.sub, pid,
                    NewCode(w, s1, grant, txn.challenge, now + CODE_TTL));
      LoginRecorded(w, t1.(store := s2), w.hash(r.value), Login(h, claims.sub));
    }
  }

  lemma CompleteKeepsInv(w: World, t: Traced, txnId: string, answer: IslandAnswer, now: real, kernelIssuer: string)
    requires Sound(w) && Inv(w, t)
    ensures Inv(w, Apply(w, t, DoComplete(txnId, answer, now, kernelIssuer)))
  {
    hide Sound, TokenSide, LoginSide, Admit;
    var s, h := t.store, w.hash(txnId);
    if h in s.txns && now < s.txns[h].expiresAt && s.txns[h].consumedAt.None? {
      var txn, s1 := s.txns[h], ConsumedTxn(s, h, now);
      ConsumeKeepsInv(w, t, h, now);
      if txn.islandId in s.islands.data && !s.islands.data[txn.islandId].disabledAt.Some? && !answer.FetchFailed? {
        var island := s.islands.data[txn.islandId];
        var claims := VerifyAssertion(answer.claims, island.issuer, kernelIssuer, txn.nonce, now);
        if claims.Some? {
          AdmitKeepsInv(w, t.(store := s1), h, txn, island, claims.value, now);
        }
      }
    }
  }

  // ----- every run -----

  lemma InitialInv(w: World, s: Store)
    requires Initial(w, s)
    ensures Inv(w, Traced(s, map[], map[], map[], []))
  {
  }

  lemma ApplyKeepsInv(w: World, t: Traced, op: Op)
    requires Sound(w) && Inv(w, t)
    ensures Inv(w, Apply(w, t, op))
  {
    match op
    case DoIssue(grant, redirectUri, challenge, now, ttl, fetch) =>
      IssueKeepsInv(w, t, grant, redirectUri, challenge, now, ttl, fetch);
    case DoRedeem(code, verifier, audience, now, accessTtl, refreshTtl) =>
      RedeemKeepsInv(w, t, code, verifier, audience, now, accessTtl, refreshTtl);
    case DoRefresh(refreshToken, now, accessTtl, refreshTtl) =>
      RefreshKeepsInv(w, t, refreshToken, now, accessTtl, refreshTtl);
    case DoStart(request, now, ttl, fetch) =>
      StartKeepsInv(w, t, request, now, ttl, fetch);
    case DoComplete(txnId, answer, now, kernelIssuer) =>
      CompleteKeepsInv(w, t, txnId, answer, now, kernelIssuer);
  }

  lemma {:induction false} ExecKeepsInv(w: World, s: Store, ops: seq<Op>)
    requires Sound(w) && Initial(w, s)
    ensures Inv(w, Exec(w, s, ops))
  {
    hide Sound, Inv, Initial, Apply;
    if ops == [] {
      InitialInv(w, s);
    } else {
      ExecKeepsInv(w, s, ops[..|ops| - 1]);
      ApplyKeepsInv(w, Exec(w, s, ops[..|ops| - 1]), ops[|ops| - 1]);
    }
  }
}
