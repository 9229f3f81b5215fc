/** The identity kernel's operations, updating a store in place as the program does. */
module IdentityService {
  import opened Wrappers
  import opened Dict
  import opened IdentitySpec
  import IdentityRuns
  import Names

  class Kernel {
    const w: World
    var names: nat
    var clients: map<string, Client>
    var codes: map<string, AuthCode>
    var tokens: Dict<string, AccessToken>
    var mcp: map<string, McpToken>
    var islands: Dict<string, Island>
    var links: Dict<(string, string), Link>
    var principals: map<string, Principal>
    var memberships: map<(string, string), Membership>
    var txns: map<string, Txn>

    constructor (w: World, s: Store)
      ensures this.w == w && State() == s
    {
      this.w := w;
      names, clients, codes, tokens, mcp := s.names, s.clients, s.codes, s.tokens, s.mcp;
      islands, links, principals, memberships, txns := s.islands, s.links, s.principals, s.memberships, s.txns;
    }

    function State(): Store
      reads this
    {
      Store(names, clients, codes, tokens, mcp, islands, links, principals, memberships, txns)
    }

    /** A raw token drawn from the supply. */
    method GenerateRawToken() returns (raw: string)
      modifies this`names
      ensures raw == w.newName(old(names)) && names == old(names) + 1
    {
      raw := w.newName(names);
      names := names + 1;
    }

    method ResolveClient(clientId: string, fetch: Option<string -> ClientDoc>) returns (r: Result<Client, Error>)
      modifies this`clients
      ensures (State(), r) == IdentitySpec.ResolveClient(old(State()), clientId, fetch)
    {
      if clientId in clients {
        return Ok(clients[clientId]);
      }
      if IsHttps(clientId) && fetch.Some? {
        var doc := fetch.value(clientId);
        if doc.redirectUris == [] {
          return Err(NoRedirectUris);
        }
        var c := Client(clientId, if doc.name.Some? then doc.name.value else clientId, doc.redirectUris);
        clients := clients[clientId := c];
        return Ok(c);
      }
      return Err(UnknownClient);
    }

    method IssueAuthCode(grant: Grant, redirectUri: string, challenge: string, now: real, ttl: real,
                         fetch: Option<string -> ClientDoc>) returns (r: Result<string, Error>)
      modifies this`clients, this`names, this`codes
      ensures (State(), r) == IdentitySpec.IssueAuthCode(w, old(State()), grant, redirectUri, challenge, now, ttl,
                                                         fetch)
    {
      var client := ResolveClient(grant.clientId, fetch);
      if client.Err? {
        return Err(client.error);
      }
      if redirectUri !in client.value.redirectUris {
        return Err(UnregisteredRedirect);
      }
      var raw := GenerateRawToken();
      var h := w.hash(raw);
      codes := codes[h := AuthCode(h, grant.(clientId := client.value.id), challenge, now + ttl, None)];
      return Ok(raw);
    }

    method ConsumeAuthCode(h: string, at: real) returns (ok: bool)
      modifies this`codes
      ensures ok <==> h in old(codes) && old(codes)[h].consumedAt.None?
      ensures codes == if ok then old(codes)[h := old(codes)[h].(consumedAt := Some(at))] else old(codes)
    {
      if h !in codes || codes[h].consumedAt.Some? {
        return false;
      }
      codes := codes[h := codes[h].(consumedAt := Some(at))];
      return true;
    }

    method IssuePair(grant: Grant, now: real, accessTtl: real, refreshTtl: real) returns (pair: Pair)
      modifies this`names, this`tokens
      ensures (State(), pair) == IdentitySpec.IssuePair(w, old(State()), grant, now, accessTtl, refreshTtl)
    {
      var access := GenerateRawToken();
      var refresh := GenerateRawToken();
      var row := AccessToken(w.hash(access), grant, now + accessTtl,
                             Some(RefreshPart(w.hash(refresh), now + refreshTtl)));
      tokens := Put(tokens, row.hash, row);
      return Pair(access, refresh, accessTtl);
    }

    method RedeemCode(code: string, verifier: string, audience: Option<string>, now: real, accessTtl: real,
                      refreshTtl: Option<real>) returns (r: Result<Pair, Error>)
      modifies this`names, this`tokens, this`codes
      ensures (State(), r) == IdentitySpec.RedeemCode(w, old(State()), code, verifier, audience, now, accessTtl,
                                                      refreshTtl)
    {
      var h := w.hash(code);
      if h !in codes {
        return Err(UnknownCode);
      }
      var row := codes[h];
      if now >= row.expiresAt {
        return Err(CodeExpired);
      }
      if audience.Some? && row.grant.audience != audience.value {
        return Err(AudienceMismatch);
      }
      if w.s256(verifier) != row.challenge {
        return Err(PkceFailed);
      }
      var unused := ConsumeAuthCode(h, now);
      if !unused {
        return Err(CodeUsed);
      }
      var ttl := ResolveRefreshTtl(State(), row.grant.audience, refreshTtl);
      var pair := IssuePair(row.grant, now, accessTtl, ttl);
      return Ok(pair);
    }

    /** The scan for the row that carries a refresh hash, stopping at the first. */
    method ScanForRefresh(h: string) returns (current: Option<AccessToken>)
      ensures current == FindRefresh(State(), h)
    {
      ghost var test := (t: AccessToken) => CarriesRefresh(t, h);
      var hashes := tokens.order;
      for i := 0 to |hashes|
        invariant Pick(tokens, hashes, test) == Pick(tokens, hashes[i..], test)
      {
        if hashes[i] in tokens.data && CarriesRefresh(tokens.data[hashes[i]], h) {
          return Some(tokens.data[hashes[i]]);
        }
      }
      return None;
    }

    method Refresh(refreshToken: string, now: real, accessTtl: real,
                   refreshTtl: Option<real>) returns (r: Result<Pair, Error>)
      modifies this`names, this`tokens
      ensures (State(), r) == IdentitySpec.Refresh(w, old(State()), refreshToken, now, accessTtl, refreshTtl)
    {
      var current := ScanForRefresh(w.hash(refreshToken));
      if current.None? {
        return Err(UnknownRefresh);
      }
      if current.value.refresh.None? || now >= current.value.refresh.value.expiresAt {
        return Err(RefreshExpired);
      }
      var ttl := ResolveRefreshTtl(State(), current.value.grant.audience, refreshTtl);
      var pair := IssuePair(current.value.grant, now, accessTtl, ttl);
      var row := tokens.data[w.hash(pair.accessToken)];
      tokens := Put(Remove(tokens, current.value.hash), row.hash, row);
      return Ok(pair);
    }

    method StartFederation(request: LoginRequest, now: real, ttl: real, fetch: Option<string -> ClientDoc>)
      returns (r: Result<Started, Error>)
      modifies this`clients, this`names, this`txns
      ensures (State(), r) == IdentitySpec.StartFederation(w, old(State()), request, now, ttl, fetch)
    {
      var client := ResolveClient(request.clientId, fetch);
      if client.Err? {
        return Err(client.error);
      }
      if request.redirectUri !in client.value.redirectUris {
        return Err(UnregisteredRedirect);
      }
      var island := IslandForAudience(State(), request.audience);
      if island.None? {
        return Err(NoIsland);
      }
      if island.value.disabledAt.Some? {
        return Err(IslandDisabled);
      }
      var id := GenerateRawToken();
      var nonce := GenerateRawToken();
      var h := w.hash(id);
      txns := txns[h := Txn(h, client.value.id, request.redirectUri, request.challenge, request.audience, request.scope,
                            request.clientState, island.value.id, nonce, now + ttl, None)];
      return Ok(Started(id, nonce));
    }

    method ConsumeTxn(h: string, at: real) returns (ok: bool)
      modifies this`txns
      ensures ok <==> h in old(txns) && old(txns)[h].consumedAt.None?
      ensures txns == if ok then old(txns)[h := old(txns)[h].(consumedAt := Some(at))] else old(txns)
    {
      if h !in txns || txns[h].consumedAt.Some? {
        return false;
      }
      txns := txns[h := txns[h].(consumedAt := Some(at))];
      return true;
    }

    method FindOrCreate(island: Island, user: string, email: Option<string>, now: real) returns (pid: string)
      modifies this`names, this`principals, this`memberships, this`links
      ensures (State(), pid) == IdentitySpec.FindOrCreate(w, old(State()), island, user, email, now)
    {
      if (island.id, user) in links.data {
        return links.data[(island.id, user)].principalId;
      }
      pid := GenerateRawToken();
      principals := principals[pid := Principal(pid, "human", email, now)];
      memberships := memberships[(pid, island.orgId) := Membership(pid, island.orgId, ["member"], true, now)];
      links := Put(links, (island.id, user), Link(island.id, user, pid, now));
    }

    method CompleteFederation(txnId: string, answer: IslandAnswer, now: real, kernelIssuer: string)
      returns (r: Result<string, Error>)
      modifies this`names, this`clients, this`principals, this`memberships, this`links, this`codes, this`txns
      ensures (State(), r) == IdentitySpec.CompleteFederation(w, old(State()), txnId, answer, now, kernelIssuer)
    {
      var h := w.hash(txnId);
      if h !in txns {
        return Err(UnknownTxn);
      }
      var txn := txns[h];
      if now >= txn.expiresAt {
        return Err(TxnExpired);
      }
      var unused := ConsumeTxn(h, now);
      if !unused {
        return Err(TxnUsed);
      }
      if txn.islandId !in islands.data || islands.data[txn.islandId].disabledAt.Some? {
        return Err(IslandUnavailable);
      }
      if answer.FetchFailed? {
        return Err(ExchangeFailed);
      }
      var island := islands.data[txn.islandId];
      var claims := VerifyAssertion(answer.claims, island.issuer, kernelIssuer, txn.nonce, now);
      if claims.None? {
        return Err(BadAssertion);
      }
      var pid := FindOrCreate(island, claims.value.sub, claims.value.email, now);
      r := IssueAuthCode(TxnGrant(txn, pid, island), txn.redirectUri, txn.challenge, now, CODE_TTL, None);
    }

    /** One operation, its answer dropped; `t` is the store with the history a run keeps of it. */
    method Perform(ghost t: IdentityRuns.Traced, op: IdentityRuns.Op)
      requires t.store == State()
      modifies this
      ensures State() == IdentityRuns.Apply(w, t, op).store
    {
      match op
      case DoIssue(grant, redirectUri, challenge, now, ttl, fetch) =>
        var _ := IssueAuthCode(grant, redirectUri, challenge, now, ttl, fetch);
      case DoRedeem(code, verifier, audience, now, accessTtl, refreshTtl) =>
        var _ := RedeemCode(code, verifier, audience, now, accessTtl, refreshTtl);
      case DoRefresh(refreshToken, now, accessTtl, refreshTtl) =>
        var _ := Refresh(refreshToken, now, accessTtl, refreshTtl);
      case DoStart(request, now, ttl, fetch) =>
        var _ := StartFederation(request, now, ttl, fetch);
      case DoComplete(txnId, answer, now, kernelIssuer) =>
        var _ := CompleteFederation(txnId, answer, now, kernelIssuer);
    }

    /** A whole run from a store with nothing issued keeps what every run keeps. */
    method RunAll(ops: seq<IdentityRuns.Op>)
      modifies this
      ensures State() == IdentityRuns.Exec(w, old(State()), ops).store
      ensures Names.Sound(w) && IdentityRuns.Initial(w, old(State())) ==>
                IdentityRuns.Inv(w, IdentityRuns.Exec(w, old(State()), ops))
    {
      ghost var s := State();
      for i := 0 to |ops|
        invariant State() == IdentityRuns.Exec(w, s, ops[..i]).store
      {
        assert ops[..i + 1][..i] == ops[..i];
        Perform(IdentityRuns.Exec(w, s, ops[..i]), ops[i]);
      }
      assert ops[..|ops|] == ops;
      if Names.Sound(w) && IdentityRuns.Initial(w, s) { IdentityRuns.ExecKeepsInv(w, s, ops); }
    }
  }
}
