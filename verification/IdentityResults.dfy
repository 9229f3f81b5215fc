/** Whole-run guarantees of the identity kernel: one-use codes, one-use refresh tokens, federated identity. */
module IdentityResults {
  import opened Wrappers
  import opened Dict
  import opened IdentitySpec
  import opened IdentityRuns
  import opened Names

  // ----- what later operations never undo -----

  ghost predicate CodesKept(codes: map<string, AuthCode>, codes': map<string, AuthCode>) {
    forall c :: c in codes ==>
      && c in codes' && codes'[c] == codes[c].(consumedAt := codes'[c].consumedAt)
      && (codes[c].consumedAt.Some? ==> codes'[c] == codes[c])
  }

  ghost predicate TxnsKept(txns: map<string, Txn>, txns': map<string, Txn>) {
    forall x :: x in txns ==>
      && x in txns' && txns'[x] == txns[x].(consumedAt := txns'[x].consumedAt)
      && (txns[x].consumedAt.Some? ==> txns'[x] == txns[x])
  }

  ghost predicate LinksKept(links: map<(string, string), Link>, links': map<(string, string), Link>) {
    forall k :: k in links ==> k in links' && links'[k] == links[k]
  }

  ghost predicate StoreKept(s: Store, s': Store) {
    CodesKept(s.codes, s'.codes) && TxnsKept(s.txns, s'.txns) && LinksKept(s.links.data, s'.links.data)
  }

  /** Issued codes and transactions change only by being consumed once; links and accepted tokens are forever. */
  ghost predicate Kept(t: Traced, t': Traced) {
    StoreKept(t.store, t'.store) && t.spent <= t'.spent
  }

  lemma KeptTrans(t: Traced, u: Traced, v: Traced)
    requires Kept(t, u) && Kept(u, v)
    ensures Kept(t, v)
  {
  }

  lemma CodeIsNew(w: World, t: Traced)
    requires Sound(w) && Inv(w, t)
    ensures w.hash(w.newName(t.store.names)) !in t.store.codes
    ensures w.hash(w.newName(t.store.names)) !in t.store.txns
  {
    hide TokensOk, McpApart, RefreshUnique, Lineage, SpentOk, IslandsOk, LinksOk, ClientsOk, LoginsOk;
    NewIsNew(w, t.store.names, t.store.names);
  }

  lemma IssueKeeps(w: World, t: Traced, grant: Grant, redirectUri: string, challenge: string,
                   now: real, ttl: real, fetch: Option<string -> ClientDoc>)
    requires Sound(w) && Inv(w, t)
    ensures StoreKept(t.store, IssueAuthCode(w, t.store, grant, redirectUri, challenge, now, ttl, fetch).0)
  {
    hide Sound, TokenSide, LinksOk, TxnsOk, LoginsOk, IssueAuthCode;
    CodeIsNew(w, t);
    IssueCases(w, t.store, grant, redirectUri, challenge, now, ttl, fetch);
  }

  lemma StartKeeps(w: World, t: Traced, request: LoginRequest, now: real, ttl: real, fetch: Option<string -> ClientDoc>)
    requires Sound(w) && Inv(w, t)
    ensures StoreKept(t.store, StartFederation(w, t.store, request, now, ttl, fetch).0)
  {
    hide Sound, TokenSide, LinksOk, TxnsOk, LoginsOk, StartFederation;
    CodeIsNew(w, t);
    var txn := StartCases(w, t.store, request, now, ttl, fetch);
  }

  lemma AdmitKeeps(w: World, t: Traced, txn: Txn, island: Island, claims: Claims, now: real)
    requires Sound(w) && Inv(w, t)
    requires island.id in t.store.islands.data && t.store.islands.data[island.id] == island
    ensures StoreKept(t.store, Admit(w, t.store, txn, island, claims, now).0)
  {
    hide Sound, Inv, FindOrCreate, IssueAuthCode;
    var s := t.store;
    var (s1, pid) := FindOrCreate(w, s, island, claims.sub, claims.email, now);
    FindOrCreateLinks(w, s, island, claims.sub, claims.email, now);
    LinkKeepsInv(w, t, s1, island, claims.sub, pid);
    assert StoreKept(s, s1);
    IssueKeeps(w, t.(store := s1), TxnGrant(txn, pid, island), txn.redirectUri, txn.challenge, now, CODE_TTL, None);
  }

  lemma CompleteKeeps(w: World, t: Traced, txnId: string, answer: IslandAnswer, now: real, kernelIssuer: string)
    requires Sound(w) && Inv(w, t)
    ensures StoreKept(t.store, CompleteFederation(w, t.store, txnId, answer, now, kernelIssuer).0)
  {
    hide Sound, TokenSide, LoginSide, Admit;
    var s, h := t.store, w.hash(txnId);
    if h in s.txns && now < s.txns[h].expiresAt && s.txns[h].consumedAt.None? {
      var txn, s1 := s.txns[h], ConsumedTxn(s, h, now);
      ConsumeKeepsInv(w, t, h, now);
      assert StoreKept(s, s1);
      if txn.islandId in s.islands.data && !s.islands.data[txn.islandId].disabledAt.Some? && !answer.FetchFailed? {
        var island := s.islands.data[txn.islandId];
        var claims := VerifyAssertion(answer.claims, island.issuer, kernelIssuer, txn.nonce, now);
        if claims.Some? {
          RegistryKept(w, t, txn.islandId);
          AdmitKeeps(w, t.(store := s1), txn, island, claims.value, now);
        }
      }
    }
  }

  lemma RedeemKeeps(w: World, s: Store, code: string, verifier: string, audience: Option<string>, now: real,
                    accessTtl: real, refreshTtl: Option<real>)
    ensures StoreKept(s, RedeemCode(w, s, code, verifier, audience, now, accessTtl, refreshTtl).0)
  {
    hide RedeemCode;
    var row := RedeemCases(w, s, code, verifier, audience, now, accessTtl, refreshTtl);
  }

  lemma RefreshKeeps(w: World, t: Traced, refreshToken: string, now: real, accessTtl: real, refreshTtl: Option<real>)
    requires Inv(w, t)
    ensures StoreKept(t.store, Refresh(w, t.store, refreshToken, now, accessTtl, refreshTtl).0)
  {
    hide Valid, CodesOk, TokensOk, McpApart, RefreshUnique, Lineage, SpentOk, LoginSide, Refresh, FindRefresh;
    var row, o := RefreshCases(w, t.store, refreshToken, now, accessTtl, refreshTtl);
  }

  lemma ApplyKeeps(w: World, t: Traced, op: Op)
    requires Sound(w) && Inv(w, t)
    ensures Kept(t, Apply(w, t, op))
  {
    hide Sound, Inv, StoreKept;
    match op
    case DoIssue(grant, redirectUri, challenge, now, ttl, fetch) =>
      IssueKeeps(w, t, grant, redirectUri, challenge, now, ttl, fetch);
    case DoRedeem(code, verifier, audience, now, accessTtl, refreshTtl) =>
      RedeemKeeps(w, t.store, code, verifier, audience, now, accessTtl, refreshTtl);
    case DoRefresh(refreshToken, now, accessTtl, refreshTtl) =>
      RefreshKeeps(w, t, refreshToken, now, accessTtl, refreshTtl);
    case DoStart(request, now, ttl, fetch) =>
      StartKeeps(w, t, request, now, ttl, fetch);
    case DoComplete(txnId, answer, now, kernelIssuer) =>
      CompleteKeeps(w, t, txnId, answer, now, kernelIssuer);
  }

  /** Nothing a run has established is undone by going on. */
  lemma {:induction false} RunsKeep(w: World, s: Store, ops: seq<Op>, more: seq<Op>)
    requires Sound(w) && Initial(w, s)
    ensures Kept(Exec(w, s, ops), Exec(w, s, ops + more))
    decreases |more|
  {
    hide Sound, Initial, Apply, Inv;
    if more == [] {
      assert ops + more == ops;
    } else {
      hide Kept;
      var all, most := ops + more, more[..|more| - 1];
      assert all[..|all| - 1] == ops + most;
      RunsKeep(w, s, ops, most);
      ExecKeepsInv(w, s, ops + most);
      ApplyKeeps(w, Exec(w, s, ops + most), more[|more| - 1]);
      KeptTrans(Exec(w, s, ops), Exec(w, s, ops + most), Exec(w, s, all));
    }
  }

  // ----- codes and token families -----

  /** Each redeemed code has exactly one live row, every row descends from one, and refresh hashes never repeat. */
  lemma OneRowPerRedeemedCode(w: World, s: Store, ops: seq<Op>)
    requires Sound(w) && Initial(w, s)
    ensures var t := Exec(w, s, ops);
            var codes, rows := t.store.codes, t.store.tokens.data;
            && (forall h :: h in rows ==>
                  h in t.origin && t.origin[h] in codes && codes[t.origin[h]].consumedAt.Some?
                  && rows[h].grant == codes[t.origin[h]].grant)
            && (forall c :: c in codes && codes[c].consumedAt.Some? ==>
                  c in t.live && t.live[c] in rows && forall h :: h in rows && t.origin[h] == c ==> h == t.live[c])
            && RefreshUnique(rows)
  {
    hide Sound, CodesOk, TokensOk, McpApart, RefreshUnique, SpentOk, LoginSide;
    ExecKeepsInv(w, s, ops);
  }

  /** What an issued code carries is settled when it is issued, whatever is done later. */
  lemma GrantOutlivesRun(w: World, s: Store, ops: seq<Op>, more: seq<Op>, c: string)
    requires Sound(w) && Initial(w, s) && c in Exec(w, s, ops).store.codes
    ensures c in Exec(w, s, ops + more).store.codes
    ensures Exec(w, s, ops + more).store.codes[c].grant == Exec(w, s, ops).store.codes[c].grant
  {
    RunsKeep(w, s, ops, more);
  }

  /** A code redeemed once is refused ever after, and each refusal leaves the store as it is. */
  lemma CodeRedeemedOnce(w: World, s: Store, ops: seq<Op>, more: seq<Op>, first: Op, again: Op)
    requires Sound(w) && Initial(w, s) && first.DoRedeem? && again.DoRedeem? && first.code == again.code
    requires RedeemCode(w, Exec(w, s, ops).store, first.code, first.verifier, first.audience, first.now,
                        first.accessTtl, first.refreshTtl).1.Ok?
    ensures var later := Exec(w, s, ops + [first] + more).store;
            var (s', r) := RedeemCode(w, later, again.code, again.verifier, again.audience, again.now,
                                      again.accessTtl, again.refreshTtl);
            r.Err? && s' == later
  {
    hide Sound, Initial;
    var was := Exec(w, s, ops);
    var row := RedeemCases(w, was.store, first.code, first.verifier, first.audience, first.now,
                           first.accessTtl, first.refreshTtl);
    var all := ops + [first];
    assert all[..|all| - 1] == ops && all[|all| - 1] == first;
    assert Exec(w, s, all) == Apply(w, was, first);
    RunsKeep(w, s, all, more);
  }

  /** An accepted refresh token is remembered as spent. */
  lemma AcceptedIsSpent(w: World, t: Traced, op: Op)
    requires Sound(w) && Inv(w, t) && op.DoRefresh?
    requires Refresh(w, t.store, op.refreshToken, op.now, op.accessTtl, op.refreshTtl).1.Ok?
    ensures Apply(w, t, op).spent == t.spent + [op.refreshToken]
  {
    hide Sound, CodesOk, McpApart, TokensOk, Valid, RefreshUnique, Lineage, SpentOk, LoginSide, FindRefresh;
    var row, o := RefreshCases(w, t.store, op.refreshToken, op.now, op.accessTtl, op.refreshTtl);
    RowHasOrigin(t.store.codes, t.store.tokens.data, t.origin, t.live, o);
  }

  lemma SpentIsUnknown(w: World, t: Traced, r: string)
    requires Inv(w, t) && r in t.spent
    ensures FindRefresh(t.store, w.hash(r)).None?
  {
    hide CodesOk, McpApart, RefreshUnique, Lineage, LoginSide;
    assert Retired(w, t.store.names, t.store.tokens.data, r);
    if FindRefresh(t.store, w.hash(r)).Some? {
      var o := RefreshFound(w, t.store, w.hash(r));
    }
  }

  /** A refresh token accepted once is unknown ever after: no refresh token is accepted twice. */
  lemma RefreshAcceptedOnce(w: World, s: Store, ops: seq<Op>, more: seq<Op>, first: Op, again: Op)
    requires Sound(w) && Initial(w, s) && first.DoRefresh? && again.DoRefresh?
             && first.refreshToken == again.refreshToken
    requires Refresh(w, Exec(w, s, ops).store, first.refreshToken, first.now, first.accessTtl, first.refreshTtl).1.Ok?
    ensures var later := Exec(w, s, ops + [first] + more).store;
            Refresh(w, later, again.refreshToken, again.now, again.accessTtl, again.refreshTtl)
              == (later, Err(UnknownRefresh))
  {
    hide Sound, Initial, Inv, StoreKept, FindRefresh;
    ExecKeepsInv(w, s, ops);
    AcceptedIsSpent(w, Exec(w, s, ops), first);
    var all := ops + [first];
    assert all[..|all| - 1] == ops && all[|all| - 1] == first;
    assert first.refreshToken in Exec(w, s, all).spent;
    RunsKeep(w, s, all, more);
    ExecKeepsInv(w, s, all + more);
    SpentIsUnknown(w, Exec(w, s, all + more), first.refreshToken);
  }

  /** A login transaction completed once never yields a second code. */
  lemma LoginCompletedOnce(w: World, s: Store, ops: seq<Op>, more: seq<Op>, first: Op, again: Op)
    requires Sound(w) && Initial(w, s) && first.DoComplete? && again.DoComplete? && first.txnId == again.txnId
    requires CompleteFederation(w, Exec(w, s, ops).store, first.txnId, first.answer, first.now,
                                first.kernelIssuer).1.Ok?
    ensures var later := Exec(w, s, ops + [first] + more).store;
            var (s', r) := CompleteFederation(w, later, again.txnId, again.answer, again.now, again.kernelIssuer);
            r.Err? && s' == later
  {
    hide Sound, Initial;
    var was := Exec(w, s, ops);
    CompletedIsConsumed(w, was.store, first.txnId, first.answer, first.now, first.kernelIssuer);
    var all := ops + [first];
    assert all[..|all| - 1] == ops && all[|all| - 1] == first;
    assert Exec(w, s, all) == Apply(w, was, first);
    RunsKeep(w, s, all, more);
  }

  lemma CompletedIsConsumed(w: World, s: Store, txnId: string, answer: IslandAnswer, now: real, kernelIssuer: string)
    ensures var (s', r) := CompleteFederation(w, s, txnId, answer, now, kernelIssuer);
            r.Ok? ==> w.hash(txnId) in s'.txns && s'.txns[w.hash(txnId)].consumedAt.Some?
  {
  }

  // ----- exactly when calls succeed, and what they leave -----

  /**
   A redemption succeeds exactly when the code is known, in time, for this audience, proved by
   PKCE and unused; it then uses the code and no other, and otherwise it changes nothing.
   */
  lemma RedeemSucceedsExactly(w: World, s: Store, code: string, verifier: string, audience: Option<string>, now: real,
                              accessTtl: real, refreshTtl: Option<real>)
    ensures var c := w.hash(code);
            var (s', r) := RedeemCode(w, s, code, verifier, audience, now, accessTtl, refreshTtl);
            && (r.Ok? <==>
                  && c in s.codes && s.codes[c].consumedAt.None? && now < s.codes[c].expiresAt
                  && w.s256(verifier) == s.codes[c].challenge
                  && (audience.Some? ==> audience.value == s.codes[c].grant.audience))
            && (r.Err? ==> s' == s)
            && (r.Ok? ==> s'.codes == s.codes[c := s.codes[c].(consumedAt := Some(now))])
  {
    var row := RedeemCases(w, s, code, verifier, audience, now, accessTtl, refreshTtl);
  }

  /** How long a refresh token lives: as asked, as an island of its audience says, or thirty days. */
  ghost predicate Lifetime(s: Store, audience: string, asked: Option<real>, ttl: real) {
    match asked
    case Some(given) => ttl == given
    case None =>
      if exists i :: i in s.islands.data && s.islands.data[i].audience == audience
      then exists i :: i in s.islands.data && s.islands.data[i].audience == audience
                       && ttl == s.islands.data[i].sessionTtlDays * 86400.0
      else ttl == 2592000.0
  }

  lemma TtlIsLifetime(s: Store, audience: string, asked: Option<real>)
    requires Valid(s.islands)
    ensures Lifetime(s, audience, asked, ResolveRefreshTtl(s, audience, asked))
  {
    FirstNone(s.islands, (i: Island) => i.audience == audience);
  }

  /** The row a pair stands for: the grant, and both lifetimes counted from now. */
  ghost predicate RowOf(w: World, s: Store, pair: Pair, row: AccessToken, grant: Grant, now: real, accessTtl: real,
                        asked: Option<real>)
  {
    && row.hash == w.hash(pair.accessToken) && row.grant == grant
    && row.expiresAt == now + accessTtl && pair.expiresIn == accessTtl
    && row.refresh.Some? && row.refresh.value.hash == w.hash(pair.refreshToken)
    && Lifetime(s, grant.audience, asked, row.refresh.value.expiresAt - now)
  }

  lemma IssuedRow(w: World, s: Store, grant: Grant, now: real, accessTtl: real, asked: Option<real>)
    requires Valid(s.islands)
    ensures var (s', pair) := IssuePair(w, s, grant, now, accessTtl, ResolveRefreshTtl(s, grant.audience, asked));
            var h := w.hash(pair.accessToken);
            h in s'.tokens.data && RowOf(w, s, pair, s'.tokens.data[h], grant, now, accessTtl, asked)
            && s'.tokens.data == s.tokens.data[h := s'.tokens.data[h]]
  {
    TtlIsLifetime(s, grant.audience, asked);
    hide ResolveRefreshTtl, Lifetime;
  }

  /** A redemption adds the row of its pair under a hash no row had, and changes no other. */
  lemma RedemptionAdds(w: World, t: Traced, code: string, verifier: string, audience: Option<string>, now: real,
                       accessTtl: real, refreshTtl: Option<real>)
    requires Sound(w) && Inv(w, t)
    requires RedeemCode(w, t.store, code, verifier, audience, now, accessTtl, refreshTtl).1.Ok?
    ensures var s := t.store;
            var (s', r) := RedeemCode(w, s, code, verifier, audience, now, accessTtl, refreshTtl);
            var h := w.hash(r.value.accessToken);
            && w.hash(code) in s.codes && h !in s.tokens.data && h in s'.tokens.data
            && RowOf(w, s, r.value, s'.tokens.data[h], s.codes[w.hash(code)].grant, now, accessTtl, refreshTtl)
            && s'.tokens.data == s.tokens.data[h := s'.tokens.data[h]]
  {
    hide Sound, Inv, ResolveRefreshTtl, Lifetime;
    var s, c := t.store, w.hash(code);
    NewHashes(w, t);
    IslandsValid(w, t);
    var s1 := s.(codes := s.codes[c := s.codes[c].(consumedAt := Some(now))]);
    IssuedRow(w, s1, s.codes[c].grant, now, accessTtl, refreshTtl);
    TtlIgnoresCodes(s, s1, s.codes[c].grant.audience, refreshTtl);
  }

  lemma TtlIgnoresCodes(s: Store, s1: Store, audience: string, asked: Option<real>)
    requires s1.islands == s.islands
    ensures forall ttl :: Lifetime(s1, audience, asked, ttl) <==> Lifetime(s, audience, asked, ttl)
  {
  }

  lemma NewHashes(w: World, t: Traced)
    requires Sound(w) && Inv(w, t)
    ensures w.hash(w.newName(t.store.names)) !in t.store.tokens.data
  {
    hide CodesOk, McpApart, RefreshUnique, Lineage, SpentOk, LoginSide;
    NewIsNew(w, t.store.names, t.store.names);
  }

  lemma IslandsValid(w: World, t: Traced)
    requires Inv(w, t)
    ensures Valid(t.store.islands)
  {
  }

  /** The row, if any, that a refresh token would renew. */
  ghost predicate Renewable(w: World, s: Store, o: string, refreshToken: string, now: real) {
    && o in s.tokens.data && CarriesRefresh(s.tokens.data[o], w.hash(refreshToken))
    && now < s.tokens.data[o].refresh.value.expiresAt
  }

  /** The row the scan finds is the one renewable, if it is in time, and there is no other. */
  lemma FoundIsRenewable(w: World, t: Traced, refreshToken: string, now: real)
    requires Inv(w, t)
    ensures var found := FindRefresh(t.store, w.hash(refreshToken));
            (exists o :: Renewable(w, t.store, o, refreshToken, now))
            <==> found.Some? && found.value.refresh.Some? && now < found.value.refresh.value.expiresAt
  {
    hide CodesOk, McpApart, Lineage, SpentOk, LoginSide;
    var s, h := t.store, w.hash(refreshToken);
    FirstNone(s.tokens, (r: AccessToken) => CarriesRefresh(r, h));
    if FindRefresh(s, h).Some? {
      var o := RefreshFound(w, s, h);
      hide Valid, TokensOk, FindRefresh;
      assert now < s.tokens.data[o].refresh.value.expiresAt ==> Renewable(w, s, o, refreshToken, now);
      forall p | Renewable(w, s, p, refreshToken, now) ensures p == o {}
    }
  }

  /** In every reachable state a refresh succeeds exactly when some live row carries the token, in time. */
  lemma RefreshSucceedsExactly(w: World, t: Traced, refreshToken: string, now: real, accessTtl: real,
                               refreshTtl: Option<real>)
    requires Inv(w, t)
    ensures Refresh(w, t.store, refreshToken, now, accessTtl, refreshTtl).1.Ok?
            <==> exists o :: Renewable(w, t.store, o, refreshToken, now)
  {
    FoundIsRenewable(w, t, refreshToken, now);
    hide Inv, FindRefresh, Renewable, ResolveRefreshTtl, IssuePair, RotateRefresh;
  }

  /** An accepted refresh is a pair issued for the row's grant, then a rotation. */
  lemma RefreshIs(w: World, t: Traced, refreshToken: string, now: real, accessTtl: real, refreshTtl: Option<real>)
    returns (o: string)
    requires Inv(w, t)
    requires Refresh(w, t.store, refreshToken, now, accessTtl, refreshTtl).1.Ok?
    ensures Renewable(w, t.store, o, refreshToken, now)
    ensures var grant := t.store.tokens.data[o].grant;
            var (s1, pair) := IssuePair(w, t.store, grant, now, accessTtl,
                                        ResolveRefreshTtl(t.store, grant.audience, refreshTtl));
            && w.hash(pair.accessToken) in s1.tokens.data
            && Refresh(w, t.store, refreshToken, now, accessTtl, refreshTtl)
               == (RotateRefresh(s1, o, s1.tokens.data[w.hash(pair.accessToken)]), Ok(pair))
  {
    o := RefreshFound(w, t.store, w.hash(refreshToken));
    hide Inv, ResolveRefreshTtl, FindRefresh, RotateRefresh;
  }

  lemma RotatedData(s: Store, o: string, row: AccessToken, before: map<string, AccessToken>)
    requires s.tokens.data == before[row.hash := row]
    ensures RotateRefresh(s, o, row).tokens.data == (before - {o})[row.hash := row]
  {
  }

  /**
   An accepted refresh puts the row of its pair in place of the one renewed, with the same grant, and
   changes no other.
   */
  lemma RotationReplaces(w: World, t: Traced, refreshToken: string, now: real, accessTtl: real,
                         refreshTtl: Option<real>)
    returns (o: string)
    requires Sound(w) && Inv(w, t)
    requires Refresh(w, t.store, refreshToken, now, accessTtl, refreshTtl).1.Ok?
    ensures var s := t.store;
            var (s', r) := Refresh(w, s, refreshToken, now, accessTtl, refreshTtl);
            var h := w.hash(r.value.accessToken);
            && Renewable(w, s, o, refreshToken, now) && h !in s.tokens.data && h in s'.tokens.data
            && RowOf(w, s, r.value, s'.tokens.data[h], s.tokens.data[o].grant, now, accessTtl, refreshTtl)
            && s'.tokens.data == (s.tokens.data - {o})[h := s'.tokens.data[h]]
  {
    hide Sound, Inv, Refresh, RotateRefresh, ResolveRefreshTtl, Lifetime;
    var s := t.store;
    NewHashes(w, t);
    IslandsValid(w, t);
    o := RefreshIs(w, t, refreshToken, now, accessTtl, refreshTtl);
    var grant := s.tokens.data[o].grant;
    IssuedRow(w, s, grant, now, accessTtl, refreshTtl);
    var (s1, pair) := IssuePair(w, s, grant, now, accessTtl, ResolveRefreshTtl(s, grant.audience, refreshTtl));
    hide Renewable;
    RotatedData(s1, o, s1.tokens.data[w.hash(pair.accessToken)], s.tokens.data);
  }

  /** A login is used up by any completion that finds it in time, whatever the island answers. */
  lemma CompletionUsesTxn(w: World, s: Store, txnId: string, answer: IslandAnswer, now: real, kernelIssuer: string)
    requires w.hash(txnId) in s.txns
    ensures var s', h := CompleteFederation(w, s, txnId, answer, now, kernelIssuer).0, w.hash(txnId);
            && h in s'.txns
            && (s'.txns[h].consumedAt.Some? <==> s.txns[h].consumedAt.Some? || now < s.txns[h].expiresAt)
            && (now >= s.txns[h].expiresAt || s.txns[h].consumedAt.Some? ==> s' == s)
  {
    var s1 := s.(txns := s.txns[w.hash(txnId) := s.txns[w.hash(txnId)].(consumedAt := Some(now))]);
    forall txn, island, claims ensures Admit(w, s1, txn, island, claims, now).0.txns == s1.txns {
      AdmitKeepsTxns(w, s1, txn, island, claims, now);
    }
    hide Admit, VerifyAssertion;
  }

  lemma AdmitKeepsTxns(w: World, s: Store, txn: Txn, island: Island, claims: Claims, now: real)
    ensures Admit(w, s, txn, island, claims, now).0.txns == s.txns
    ensures Admit(w, s, txn, island, claims, now).0.islands == s.islands
  {
  }

  // ----- federated identity -----

  /** The island-user to principal map and its reverse lookup are inverses of each other. */
  lemma LookupsAreInverse(w: World, s: Store, ops: seq<Op>, islandId: string, user: string, pid: string)
    requires Sound(w) && Initial(w, s)
    ensures var s' := Exec(w, s, ops).store;
            PrincipalByIsland(s', islandId, user) == Some(pid)
            <==> LinkByPrincipal(s', pid).Some? && LinkByPrincipal(s', pid).value.islandId == islandId
                 && LinkByPrincipal(s', pid).value.islandUserId == user
  {
    hide Sound, TokenSide, LoginsOk, TxnsOk, ClientsOk, IslandsOk;
    ExecKeepsInv(w, s, ops);
    var t := Exec(w, s, ops);
    if PrincipalByIsland(t.store, islandId, user) == Some(pid) { LinkOfPrincipal(w, t, (islandId, user)); }
    if LinkByPrincipal(t.store, pid).Some? {
      FirstNone(t.store.links, (l: Link) => l.principalId == pid);
      var k :| k in t.store.links.data && t.store.links.data[k] == LinkByPrincipal(t.store, pid).value
               && t.store.links.data[k].principalId == pid;
      assert LinkOk(w, t.store.names, k, t.store.links.data[k], t.store.islands.data, t.store.principals,
                    t.store.memberships);
    }
  }

  lemma LinkOfPrincipal(w: World, t: Traced, k: (string, string))
    requires Inv(w, t) && k in t.store.links.data
    ensures LinkByPrincipal(t.store, t.store.links.data[k].principalId) == Some(t.store.links.data[k])
    ensures LinkOk(w, t.store.names, k, t.store.links.data[k], t.store.islands.data, t.store.principals,
                   t.store.memberships)
  {
    hide TokenSide, LoginsOk, TxnsOk, ClientsOk, IslandsOk, LinkOk;
    var pid := t.store.links.data[k].principalId;
    FirstIsOnly(t.store.links, (l: Link) => l.principalId == pid, k);
  }

  /** Whoever logs in as the same user of the same island is the same principal for ever. */
  lemma PrincipalIsStable(w: World, s: Store, ops: seq<Op>, more: seq<Op>, islandId: string, user: string)
    requires Sound(w) && Initial(w, s) && PrincipalByIsland(Exec(w, s, ops).store, islandId, user).Some?
    ensures PrincipalByIsland(Exec(w, s, ops + more).store, islandId, user)
            == PrincipalByIsland(Exec(w, s, ops).store, islandId, user)
  {
    RunsKeep(w, s, ops, more);
  }

  /** What a federated login must resolve to: the island of its transaction and the user it asserted. */
  function Federated(pid: string, island: Island, user: string): Resolved {
    Resolved(pid, Some(island.orgId), if island.orgId == "" then [] else ["member"],
             "human", Some(island.id), Some(user))
  }

  /** The token is live and descends from the code of a completed login. */
  ghost predicate FromLogin(t: Traced, h: string) {
    h in t.store.tokens.data && h in t.origin && t.origin[h] in t.logins
  }

  ghost predicate ResolvesTo(w: World, t: Traced, token: string, audience: string, now: real, txn: Txn, island: Island,
                             user: string)
    requires w.hash(token) in t.store.tokens.data
  {
    var pid := PrincipalByIsland(t.store, island.id, user);
    && pid.Some?
    && Exchange(w, t.store, token, audience, now) ==
       if audience != txn.audience then Err(AudienceMismatch)
       else if now >= t.store.tokens.data[w.hash(token)].expiresAt then Err(TokenExpired)
       else Ok(Federated(pid.value, island, user))
  }

  /**
   Exchanging a token descended from a completed login gives the transaction's island, the
   asserted user, the island's org and, unless that org's id is empty, the member role.
   */
  lemma FederatedExchange(w: World, s: Store, ops: seq<Op>, token: string, audience: string, now: real)
    requires Sound(w) && Initial(w, s) && FromLogin(Exec(w, s, ops), w.hash(token))
    ensures var t := Exec(w, s, ops);
            var login := t.logins[t.origin[w.hash(token)]];
            && login.txn in t.store.txns && t.store.txns[login.txn].islandId in t.store.islands.data
            && var txn := t.store.txns[login.txn];
               var island := t.store.islands.data[txn.islandId];
               island.id == txn.islandId && ResolvesTo(w, t, token, audience, now, txn, island, login.user)
  {
    hide Sound, Initial, Exec, ResolvesTo;
    ExecKeepsInv(w, s, ops);
    FederatedRow(w, Exec(w, s, ops), token, audience, now);
  }

  lemma FederatedRow(w: World, t: Traced, token: string, audience: string, now: real)
    requires Inv(w, t) && FromLogin(t, w.hash(token))
    ensures var login := t.logins[t.origin[w.hash(token)]];
            && login.txn in t.store.txns && t.store.txns[login.txn].islandId in t.store.islands.data
            && var txn := t.store.txns[login.txn];
               var island := t.store.islands.data[txn.islandId];
               island.id == txn.islandId && ResolvesTo(w, t, token, audience, now, txn, island, login.user)
  {
    hide Valid, CodesOk, McpApart, RefreshUnique, Lineage, SpentOk, TxnsOk, ClientsOk, LinksOk, LinkByPrincipal;
    var s, h := t.store, w.hash(token);
    var c := t.origin[h];
    RowHasOrigin(s.codes, s.tokens.data, t.origin, t.live, h);
    assert LoginOk(c, t.logins[c], s.codes, s.txns, s.islands.data, s.links.data);
    var txn := s.txns[t.logins[c].txn];
    var k := (txn.islandId, t.logins[c].user);
    LinkOfPrincipal(w, t, k);
    assert s.islands.data[k.0].id == k.0;
    assert h !in s.mcp;
  }

  // ----- a login from end to end -----

  lemma StartWorks(w: World, s: Store, r: LoginRequest, now: real, ttl: real, island: Island)
    requires r.clientId in s.clients && s.clients[r.clientId].id == r.clientId
    requires r.redirectUri in s.clients[r.clientId].redirectUris
    requires IslandForAudience(s, r.audience) == Some(island) && island.disabledAt.None?
    ensures var (s', started) := StartFederation(w, s, r, now, ttl, None);
            && started.Ok? && w.hash(started.value.txnId) in s'.txns
            && s'.txns[w.hash(started.value.txnId)]
               == Txn(w.hash(started.value.txnId), r.clientId, r.redirectUri, r.challenge, r.audience, r.scope,
                      r.clientState,
                      island.id, started.value.nonce, now + ttl, None)
            && s'.islands == s.islands && s'.clients == s.clients
  {
  }

  lemma IssueWorks(w: World, s: Store, grant: Grant, redirectUri: string, challenge: string, now: real, ttl: real)
    requires grant.clientId in s.clients && s.clients[grant.clientId].id == grant.clientId
    requires redirectUri in s.clients[grant.clientId].redirectUris
    ensures var (s', code) := IssueAuthCode(w, s, grant, redirectUri, challenge, now, ttl, None);
            && code.Ok? && w.hash(code.value) in s'.codes
            && s'.codes[w.hash(code.value)] == AuthCode(w.hash(code.value), grant, challenge, now + ttl, None)
  {
  }

  lemma LinkKeepsClients(w: World, s: Store, island: Island, user: string, email: Option<string>, now: real)
    ensures FindOrCreate(w, s, island, user, email, now).0.clients == s.clients
  {
  }

  lemma AdmitWorks(w: World, s: Store, txn: Txn, island: Island, claims: Claims, now: real)
    requires txn.clientId in s.clients && s.clients[txn.clientId].id == txn.clientId
    requires txn.redirectUri in s.clients[txn.clientId].redirectUris
    ensures var (s', code) := Admit(w, s, txn, island, claims, now);
            && code.Ok? && w.hash(code.value) in s'.codes
            && s'.codes[w.hash(code.value)].consumedAt.None? && s'.codes[w.hash(code.value)].challenge == txn.challenge
            && s'.codes[w.hash(code.value)].expiresAt == now + CODE_TTL
            && s'.codes[w.hash(code.value)].grant.audience == txn.audience
  {
    hide FindOrCreate, IssueAuthCode;
    var (s1, pid) := FindOrCreate(w, s, island, claims.sub, claims.email, now);
    LinkKeepsClients(w, s, island, claims.sub, claims.email, now);
    IssueWorks(w, s1, TxnGrant(txn, pid, island), txn.redirectUri, txn.challenge, now, CODE_TTL);
  }

  lemma CompleteWorks(w: World, s: Store, txnId: string, claims: Claims, now: real, kernelIssuer: string)
    requires w.hash(txnId) in s.txns && s.txns[w.hash(txnId)].consumedAt.None? && now < s.txns[w.hash(txnId)].expiresAt
    requires var txn := s.txns[w.hash(txnId)];
             && txn.clientId in s.clients && s.clients[txn.clientId].id == txn.clientId
             && txn.redirectUri in s.clients[txn.clientId].redirectUris
             && txn.islandId in s.islands.data && s.islands.data[txn.islandId].disabledAt.None?
             && claims.iss == s.islands.data[txn.islandId].issuer && claims.aud == kernelIssuer
             && claims.nonce == Some(txn.nonce) && now < claims.exp
    ensures var (s', code) := CompleteFederation(w, s, txnId, Assertion(Some(claims)), now, kernelIssuer);
            var txn := s.txns[w.hash(txnId)];
            && code.Ok? && w.hash(code.value) in s'.codes
            && s'.codes[w.hash(code.value)].consumedAt.None? && s'.codes[w.hash(code.value)].challenge == txn.challenge
            && s'.codes[w.hash(code.value)].expiresAt == now + CODE_TTL
            && s'.codes[w.hash(code.value)].grant.audience == txn.audience
            && w.hash(txnId) in s'.txns && s'.txns[w.hash(txnId)] == txn.(consumedAt := Some(now))
            && s'.islands == s.islands
  {
    hide Admit;
    var txn := s.txns[w.hash(txnId)];
    var s1 := s.(txns := s.txns[w.hash(txnId) := txn.(consumedAt := Some(now))]);
    AdmitWorks(w, s1, txn, s.islands.data[txn.islandId], claims, now);
    AdmitKeepsTxns(w, s1, txn, s.islands.data[txn.islandId], claims, now);
  }

  lemma RedeemWorks(w: World, s: Store, code: string, verifier: string, audience: Option<string>, now: real,
                    accessTtl: real, refreshTtl: Option<real>)
    requires w.hash(code) in s.codes && CodeProblem(w, s.codes[w.hash(code)], verifier, audience, now).None?
    requires s.codes[w.hash(code)].consumedAt.None?
    ensures var (s', pair) := RedeemCode(w, s, code, verifier, audience, now, accessTtl, refreshTtl);
            && pair.Ok? && w.hash(pair.value.accessToken) in s'.tokens.data
            && s'.tokens.data[w.hash(pair.value.accessToken)].expiresAt == now + accessTtl
            && s'.txns == s.txns && s'.islands == s.islands
  {
  }

  /** The assertion an island gives for a user who came with this nonce. */
  function Asserts(island: Island, kernelIssuer: string, nonce: string, exp: real, user: string,
                   email: Option<string>): Claims {
    Claims(island.issuer, kernelIssuer, Some(nonce), exp, user, email)
  }

  /**
   From any reachable state, a user who logs in through an enabled island in time ends up with
   a token that resolves to that user of that island.
   */
  lemma LoginWorks(w: World, t: Traced, r: LoginRequest, island: Island, user: string, email: Option<string>, exp: real,
                   kernelIssuer: string, verifier: string, ttl: real, accessTtl: real, refreshTtl: Option<real>,
                   t0: real, t1: real, t2: real, t3: real)
    requires Sound(w) && Inv(w, t)
    requires r.clientId in t.store.clients && r.redirectUri in t.store.clients[r.clientId].redirectUris
    requires IslandForAudience(t.store, r.audience) == Some(island) && island.disabledAt.None?
    requires w.s256(verifier) == r.challenge
    requires t1 < t0 + ttl && t1 < exp && t2 < t1 + CODE_TTL && t3 < t2 + accessTtl
    ensures var (s1, started) := StartFederation(w, t.store, r, t0, ttl, None);
            && started.Ok?
            && var answer := Assertion(Some(Asserts(island, kernelIssuer, started.value.nonce, exp, user, email)));
               var (s2, code) := CompleteFederation(w, s1, started.value.txnId, answer, t1, kernelIssuer);
               && code.Ok?
               && var (s3, pair) := RedeemCode(w, s2, code.value, verifier, Some(r.audience), t2, accessTtl,
                                               refreshTtl);
                  && pair.Ok?
                  && var pid := PrincipalByIsland(s3, island.id, user);
                     && pid.Some?
                     && Exchange(w, s3, pair.value.accessToken, r.audience, t3)
                        == Ok(Federated(pid.value, island, user))
  {
    hide Sound, Inv, IslandForAudience, StartFederation;
    hide CompleteFederation, RedeemCode, Exchange, Federated, PrincipalByIsland;
    AudienceIsland(w, t, r.audience, r.clientId);
    StartWorks(w, t.store, r, t0, ttl, island);
    var started := StartFederation(w, t.store, r, t0, ttl, None).1.value;
    var u1 := Apply(w, t, DoStart(r, t0, ttl, None));
    ApplyKeepsInv(w, t, DoStart(r, t0, ttl, None));
    var answer := Assertion(Some(Asserts(island, kernelIssuer, started.nonce, exp, user, email)));
    CompleteWorks(w, u1.store, started.txnId, answer.claims.value, t1, kernelIssuer);
    var u2 := Apply(w, u1, DoComplete(started.txnId, answer, t1, kernelIssuer));
    ApplyKeepsInv(w, u1, DoComplete(started.txnId, answer, t1, kernelIssuer));
    var code := CompleteFederation(w, u1.store, started.txnId, answer, t1, kernelIssuer).1.value;
    RedeemWorks(w, u2.store, code, verifier, Some(r.audience), t2, accessTtl, refreshTtl);
    var u3 := Apply(w, u2, DoRedeem(code, verifier, Some(r.audience), t2, accessTtl, refreshTtl));
    ApplyKeepsInv(w, u2, DoRedeem(code, verifier, Some(r.audience), t2, accessTtl, refreshTtl));
    var pair := RedeemCode(w, u2.store, code, verifier, Some(r.audience), t2, accessTtl, refreshTtl).1.value;
    FederatedRow(w, u3, pair.accessToken, r.audience, t3);
  }

  lemma AudienceIsland(w: World, t: Traced, audience: string, clientId: string)
    requires Inv(w, t) && IslandForAudience(t.store, audience).Some? && clientId in t.store.clients
    ensures var island := IslandForAudience(t.store, audience).value;
            island.id in t.store.islands.data && t.store.islands.data[island.id] == island
    ensures t.store.clients[clientId].id == clientId
  {
    hide TokenSide, LinksOk, LoginsOk, TxnsOk;
    FirstNone(t.store.islands, (i: Island) => i.audience == audience);
  }
}
