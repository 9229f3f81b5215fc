/** A call whose steps nobody comes between does to the store what the kernel's operation does. */
module Undisturbed {
  import opened Wrappers
  import opened Dict
  import opened IdentitySpec
  import opened OneUse
  import IdentityRuns
  import Names

  /** The run goes over what this store holds. */
  ghost predicate Shows(su: Setup, s: State, store: Store) {
    && s.codes == store.codes && s.tokens == store.tokens && s.txns == store.txns && s.names == store.names
    && s.principals == store.principals.Keys && s.members == store.memberships.Keys
    && s.links.Keys == store.links.data.Keys
    && (forall k :: k in s.links ==> s.links[k] == store.links.data[k].principalId)
    && su.clients == store.clients && su.islands == store.islands.data
  }

  /** Rows stand under their own names. */
  ghost predicate Keyed(store: Store) {
    && (forall c :: c in store.codes ==> store.codes[c].hash == c)
    && (forall x :: x in store.txns ==> store.txns[x].hash == x)
    && (forall c :: c in store.clients ==> store.clients[c].id == c)
    && (forall i :: i in store.islands.data ==> store.islands.data[i].id == i)
  }

  /** The store, and where call i is. */
  ghost predicate Stands(su: Setup, s: State, i: nat, store: Store, stage: Stage) {
    Shows(su, s, store) && StageOf(s, i) == stage
  }

  /** n steps of one call. */
  function Turns(i: nat, n: nat): (run: seq<nat>)
    ensures |run| == n
  {
    if n == 0 then [] else Turns(i, n - 1) + [i]
  }

  lemma OneMoreTurn(su: Setup, s: State, i: nat, n: nat)
    ensures Exec(su, s, Turns(i, n + 1)) == Step(su, Exec(su, s, Turns(i, n)), i)
  {
    hide Step;
    assert Turns(i, n + 1)[..n] == Turns(i, n);
  }

  lemma NoTurn(su: Setup, s: State, i: nat)
    ensures Exec(su, s, Turns(i, 0)) == s
  {
    hide Step;
  }

  predicate Over(stage: Stage) {
    stage.Failed? || stage.Redeemed? || stage.Renewed? || stage.Coded?
  }

  lemma OverIsOver(su: Setup, s: State, i: nat)
    requires Over(StageOf(s, i))
    ensures Step(su, s, i) == s
  {
    hide NotYetReturned, ScanStep, PutStep, RotateStep, UseCode, StorePair, CodeStep, UseTxn, Verify, NewToken;
    hide FindUser, PutPrincipal, PutMembership, PutLink, At;
  }

  /** A call that is over stays so, and its store with it. */
  lemma {:induction false} StaysOver(su: Setup, s: State, i: nat, n: nat, m: nat, store: Store, stage: Stage)
    requires n <= m && Over(stage) && Stands(su, Exec(su, s, Turns(i, n)), i, store, stage)
    ensures Stands(su, Exec(su, s, Turns(i, m)), i, store, stage)
  {
    hide Exec, Step, Shows;
    if n < m {
      StaysOver(su, s, i, n, m - 1, store, stage);
      OneMoreTurn(su, s, i, m - 1);
      OverIsOver(su, Exec(su, s, Turns(i, m - 1)), i);
    }
  }

  lemma AtStands(su: Setup, s: State, i: nat, store: Store, stage: Stage)
    requires Shows(su, s, store)
    ensures Stands(su, At(s, i, stage), i, store, stage)
  {
  }

  // ----- redeeming a code -----

  lemma UseStands(su: Setup, s: State, i: nat, store: Store, row: AuthCode, at: real)
    requires Shows(su, s, store) && row.hash in s.codes
    ensures Stands(su, UseCode(s, i, row, at), i,
                   store.(codes := store.codes[row.hash := store.codes[row.hash].(consumedAt := Some(at))]),
                   Holding(row))
  {
  }

  lemma PairStands(su: Setup, s: State, i: nat, store: Store, row: AuthCode, now: real, accessTtl: real,
                   refreshTtl: real)
    requires Shows(su, s, store)
    ensures Stands(su, StorePair(s, i, row, NewToken(su.w, s.names, row.grant, now, accessTtl, refreshTtl)), i,
                   IssuePair(su.w, store, row.grant, now, accessTtl, refreshTtl).0, Redeemed(row.hash))
  {
    hide Put;
  }

  /** What presenting a code comes to before any store call that changes it. */
  function Presented(su: Setup, store: Store, c: Call): Stage
    requires c.RedeemCall?
  {
    var h := su.w.hash(c.code);
    if h !in store.codes then Failed(UnknownCode)
    else
      var problem := CodeProblem(su.w, store.codes[h], c.verifier, c.audience, c.now);
      if problem.Some? then Failed(problem.value) else Passed(store.codes[h])
  }

  function WithUsed(store: Store, c: string, at: real): Store
    requires c in store.codes
  {
    store.(codes := store.codes[c := store.codes[c].(consumedAt := Some(at))])
  }

  lemma PresentTurn(su: Setup, s: State, i: nat, store: Store)
    requires Stands(su, s, i, store, Begun) && su.calls(i).RedeemCall?
    ensures Stands(su, Step(su, s, i), i, store, Presented(su, store, su.calls(i)))
  {
    AtStands(su, s, i, store, Presented(su, store, su.calls(i)));
    hide CodeProblem, At;
  }

  lemma UseTurn(su: Setup, s: State, i: nat, store: Store, row: AuthCode)
    requires Stands(su, s, i, store, Passed(row)) && su.calls(i).RedeemCall? && row.hash in store.codes
    ensures if store.codes[row.hash].consumedAt.Some? then Stands(su, Step(su, s, i), i, store, Failed(CodeUsed))
            else Stands(su, Step(su, s, i), i, WithUsed(store, row.hash, su.calls(i).now), Holding(row))
  {
    AtStands(su, s, i, store, Failed(CodeUsed));
    UseStands(su, s, i, store, row, su.calls(i).now);
    hide At, UseCode;
  }

  lemma PairTurn(su: Setup, s: State, i: nat, store: Store, row: AuthCode)
    requires Stands(su, s, i, store, Holding(row)) && su.calls(i).RedeemCall?
    ensures var c := su.calls(i);
            Stands(su, Step(su, s, i), i, IssuePair(su.w, store, row.grant, c.now, c.accessTtl, c.refreshTtl).0,
                   Redeemed(row.hash))
  {
    var c := su.calls(i);
    PairStands(su, s, i, store, row, c.now, c.accessTtl, c.refreshTtl);
    hide StorePair, NewToken, IssuePair;
  }

  /** The kernel's redemption, by what presenting the code comes to. */
  lemma RedemptionIs(su: Setup, i: nat, store: Store, refreshTtl: Option<real>)
    requires Keyed(store) && su.calls(i).RedeemCall?
    requires var c := su.calls(i);
             su.w.hash(c.code) in store.codes ==>
               c.refreshTtl == ResolveRefreshTtl(store, store.codes[su.w.hash(c.code)].grant.audience, refreshTtl)
    ensures var c := su.calls(i);
            var (store', r) := RedeemCode(su.w, store, c.code, c.verifier, c.audience, c.now, c.accessTtl, refreshTtl);
            match Presented(su, store, c)
            case Failed(error) => store' == store && r == Err(error)
            case Passed(row) =>
              && row.hash in store.codes
              && if store.codes[row.hash].consumedAt.Some? then store' == store && r == Err(CodeUsed)
                 else
                   && r.Ok?
                   && store' == IssuePair(su.w, WithUsed(store, row.hash, c.now), row.grant, c.now, c.accessTtl,
                                          c.refreshTtl).0
            case _ => false
  {
    hide CodeProblem, IssuePair;
  }

  /** Three undisturbed steps redeem a code as the kernel does: the same store, the same answer. */
  lemma RedeemsAlone(su: Setup, s: State, i: nat, store: Store, refreshTtl: Option<real>, n: nat)
    requires Stands(su, s, i, store, Begun) && Keyed(store) && su.calls(i).RedeemCall? && n >= 3
    requires var c := su.calls(i);
             su.w.hash(c.code) in store.codes ==>
               c.refreshTtl == ResolveRefreshTtl(store, store.codes[su.w.hash(c.code)].grant.audience, refreshTtl)
    ensures var c, t := su.calls(i), Exec(su, s, Turns(i, n));
            var (store', r) := RedeemCode(su.w, store, c.code, c.verifier, c.audience, c.now, c.accessTtl, refreshTtl);
            && Shows(su, t, store')
            && (r.Ok? <==> StageOf(t, i).Redeemed?) && (r.Err? ==> StageOf(t, i) == Failed(r.error))
  {
    var c := su.calls(i);
    RedemptionIs(su, i, store, refreshTtl);
    NoTurn(su, s, i);
    OneMoreTurn(su, s, i, 0);
    OneMoreTurn(su, s, i, 1);
    OneMoreTurn(su, s, i, 2);
    PresentTurn(su, s, i, store);
    var end := Presented(su, store, c);
    hide Exec, Step, Shows, Keyed, RedeemCode, ResolveRefreshTtl, IssuePair, Presented, WithUsed, StageOf;
    if end.Passed? {
      UseTurn(su, Exec(su, s, Turns(i, 1)), i, store, end.row);
      if store.codes[end.row.hash].consumedAt.Some? {
        StaysOver(su, s, i, 2, n, store, Failed(CodeUsed));
      } else {
        var used := WithUsed(store, end.row.hash, c.now);
        PairTurn(su, Exec(su, s, Turns(i, 2)), i, used, end.row);
        StaysOver(su, s, i, 3, n, IssuePair(su.w, used, end.row.grant, c.now, c.accessTtl, c.refreshTtl).0,
                  Redeemed(end.row.hash));
      }
    } else {
      StaysOver(su, s, i, 1, n, store, end);
    }
  }

  // ----- refreshing -----

  /** What a scan of these rows for a refresh hash comes to. */
  function ScanEnds(tokens: Dict<string, AccessToken>, todo: seq<string>, h: string, now: real): Stage {
    var found := Pick(tokens, todo, (t: AccessToken) => CarriesRefresh(t, h));
    if found == [] then Failed(UnknownRefresh)
    else if found[0].refresh.None? || now >= found[0].refresh.value.expiresAt then Failed(RefreshExpired)
    else Read(found[0])
  }

  /** There is a row to look at, and it is not the one. */
  predicate Misses(tokens: Dict<string, AccessToken>, todo: seq<string>, h: string) {
    todo != [] && (todo[0] in tokens.data ==> !CarriesRefresh(tokens.data[todo[0]], h))
  }

  lemma ScanTurn(su: Setup, s: State, i: nat, store: Store, todo: seq<string>)
    requires Stands(su, s, i, store, Scanning(todo)) && su.calls(i).RefreshCall?
    ensures var c, t := su.calls(i), Step(su, s, i);
            var h := su.w.hash(c.refreshToken);
            if Misses(store.tokens, todo, h)
            then
              && Stands(su, t, i, store, Scanning(todo[1..]))
              && ScanEnds(store.tokens, todo, h, c.now) == ScanEnds(store.tokens, todo[1..], h, c.now)
            else Stands(su, t, i, store, ScanEnds(store.tokens, todo, h, c.now))
  {
    var c := su.calls(i);
    var h := su.w.hash(c.refreshToken);
    AtStands(su, s, i, store, ScanEnds(store.tokens, todo, h, c.now));
    if todo != [] { AtStands(su, s, i, store, Scanning(todo[1..])); }
    hide At;
  }

  /** From turn n on the scan takes at most one turn a row and one more. */
  lemma {:induction false} ScanTurns(su: Setup, s: State, i: nat, n: nat, store: Store, todo: seq<string>)
    returns (m: nat)
    requires Stands(su, Exec(su, s, Turns(i, n)), i, store, Scanning(todo)) && su.calls(i).RefreshCall?
    ensures n < m <= n + |todo| + 1
    ensures Stands(su, Exec(su, s, Turns(i, m)), i, store,
                   ScanEnds(store.tokens, todo, su.w.hash(su.calls(i).refreshToken), su.calls(i).now))
    decreases |todo|
  {
    hide Exec, Step, Stands, ScanEnds;
    OneMoreTurn(su, s, i, n);
    ScanTurn(su, Exec(su, s, Turns(i, n)), i, store, todo);
    if Misses(store.tokens, todo, su.w.hash(su.calls(i).refreshToken)) {
      m := ScanTurns(su, s, i, n + 1, store, todo[1..]);
    } else {
      m := n + 1;
    }
  }

  /** The store with the next pair in it. */
  function WithPair(store: Store, token: AccessToken): Store {
    store.(names := store.names + 2, tokens := Put(store.tokens, token.hash, token))
  }

  lemma RotationStands(su: Setup, s: State, i: nat, store: Store, presented: string, row: AccessToken,
                       token: AccessToken)
    requires Shows(su, s, store)
    ensures Stands(su, PutStep(s, i, presented, row, token), i, WithPair(store, token), Stored(row, token))
    ensures Stands(su, RotateStep(s, i, row, token), i, RotateRefresh(store, row.hash, token), Renewed(row.hash))
  {
    hide Put, Remove, OriginAfter;
  }

  lemma PairIs(w: World, store: Store, grant: Grant, now: real, accessTtl: real, refreshTtl: real)
    ensures var token := NewToken(w, store.names, grant, now, accessTtl, refreshTtl);
            var (store', pair) := IssuePair(w, store, grant, now, accessTtl, refreshTtl);
            && store' == WithPair(store, token) && token.hash == w.hash(pair.accessToken)
            && token.hash in store'.tokens.data && store'.tokens.data[token.hash] == token
  {
  }

  /** What the steps of a refresh do once its row is read. */
  lemma RenewSteps(su: Setup, s: State, i: nat, row: AccessToken, token: AccessToken)
    requires su.calls(i).RefreshCall?
    ensures var c := su.calls(i);
            StageOf(s, i) == Read(row) ==>
              Step(su, s, i) == PutStep(s, i, c.refreshToken, row,
                                        NewToken(su.w, s.names, row.grant, c.now, c.accessTtl, c.refreshTtl))
    ensures StageOf(s, i) == Stored(row, token) ==> Step(su, s, i) == RotateStep(s, i, row, token)
  {
    hide PutStep, RotateStep, NewToken;
  }

  /** The store after a row has been renewed for call i. */
  function Renewal(su: Setup, i: nat, store: Store, row: AccessToken): Store
    requires su.calls(i).RefreshCall?
  {
    var c := su.calls(i);
    var token := NewToken(su.w, store.names, row.grant, c.now, c.accessTtl, c.refreshTtl);
    RotateRefresh(WithPair(store, token), row.hash, token)
  }

  lemma RenewTurns(su: Setup, s: State, i: nat, n: nat, store: Store, row: AccessToken)
    requires Stands(su, Exec(su, s, Turns(i, n)), i, store, Read(row)) && su.calls(i).RefreshCall?
    ensures Stands(su, Exec(su, s, Turns(i, n + 2)), i, Renewal(su, i, store, row), Renewed(row.hash))
  {
    var c, t, t1 := su.calls(i), Exec(su, s, Turns(i, n)), Exec(su, s, Turns(i, n + 1));
    var token := NewToken(su.w, store.names, row.grant, c.now, c.accessTtl, c.refreshTtl);
    OneMoreTurn(su, s, i, n);
    OneMoreTurn(su, s, i, n + 1);
    RenewSteps(su, t, i, row, token);
    RotationStands(su, t, i, store, c.refreshToken, row, token);
    RenewSteps(su, t1, i, row, token);
    RotationStands(su, t1, i, WithPair(store, token), c.refreshToken, row, token);
    hide Exec, Step, Turns, Shows, PutStep, RotateStep, NewToken, RotateRefresh, WithPair;
  }

  /** The kernel's refresh, by what the scan comes to. */
  lemma RefreshIsScan(su: Setup, i: nat, store: Store, refreshTtl: Option<real>)
    requires su.calls(i).RefreshCall?
    requires var c := su.calls(i);
             var found := FindRefresh(store, su.w.hash(c.refreshToken));
             found.Some? ==> c.refreshTtl == ResolveRefreshTtl(store, found.value.grant.audience, refreshTtl)
    ensures var c := su.calls(i);
            var (store', r) := Refresh(su.w, store, c.refreshToken, c.now, c.accessTtl, refreshTtl);
            var end := ScanEnds(store.tokens, store.tokens.order, su.w.hash(c.refreshToken), c.now);
            if end.Read? then r.Ok? && store' == Renewal(su, i, store, end.found)
            else r.Err? && store' == store && end == Failed(r.error)
  {
    var c := su.calls(i);
    var found := FindRefresh(store, su.w.hash(c.refreshToken));
    if found.Some? { PairIs(su.w, store, found.value.grant, c.now, c.accessTtl, c.refreshTtl); }
    hide IssuePair, NewToken, RotateRefresh, ResolveRefreshTtl, WithPair, Pick;
  }

  /** Where a refresh ends, by what the scan comes to. */
  lemma RefreshTurns(su: Setup, s: State, i: nat, store: Store, n: nat)
    requires Stands(su, Exec(su, s, Turns(i, 1)), i, store, Scanning(store.tokens.order)) && su.calls(i).RefreshCall?
    requires n >= |store.tokens.order| + 4
    ensures var c, t := su.calls(i), Exec(su, s, Turns(i, n));
            var end := ScanEnds(store.tokens, store.tokens.order, su.w.hash(c.refreshToken), c.now);
            if end.Read? then Stands(su, t, i, Renewal(su, i, store, end.found), Renewed(end.found.hash))
            else Stands(su, t, i, store, end)
  {
    hide Exec, Step, Shows, Renewal, Turns, StageOf, Stands;
    var end := ScanEnds(store.tokens, store.tokens.order, su.w.hash(su.calls(i).refreshToken), su.calls(i).now);
    var m := ScanTurns(su, s, i, 1, store, store.tokens.order);
    if end.Read? {
      RenewTurns(su, s, i, m, store, end.found);
      StaysOver(su, s, i, m + 2, n, Renewal(su, i, store, end.found), Renewed(end.found.hash));
    } else {
      StaysOver(su, s, i, m, n, store, end);
    }
  }

  /** A refresh does as the kernel's once it has had a turn for every row and four more. */
  lemma RefreshesAlone(su: Setup, s: State, i: nat, store: Store, refreshTtl: Option<real>, n: nat)
    requires Stands(su, s, i, store, Begun) && su.calls(i).RefreshCall? && n >= |store.tokens.order| + 4
    requires !NotYetReturned(s, su.w.hash(su.calls(i).refreshToken))
    requires var c := su.calls(i);
             var found := FindRefresh(store, su.w.hash(c.refreshToken));
             found.Some? ==> c.refreshTtl == ResolveRefreshTtl(store, found.value.grant.audience, refreshTtl)
    ensures var c, t := su.calls(i), Exec(su, s, Turns(i, n));
            var (store', r) := Refresh(su.w, store, c.refreshToken, c.now, c.accessTtl, refreshTtl);
            && Shows(su, t, store')
            && (r.Ok? <==> StageOf(t, i).Renewed?) && (r.Err? ==> StageOf(t, i) == Failed(r.error))
  {
    RefreshIsScan(su, i, store, refreshTtl);
    FirstTurn(su, s, i, store);
    hide Exec, Step, Shows, Refresh, FindRefresh, ResolveRefreshTtl, ScanEnds, Renewal, NotYetReturned, Turns, StageOf;
    RefreshTurns(su, s, i, store, n);
  }

  lemma FirstTurn(su: Setup, s: State, i: nat, store: Store)
    requires Stands(su, s, i, store, Begun) && su.calls(i).RefreshCall?
    requires !NotYetReturned(s, su.w.hash(su.calls(i).refreshToken))
    ensures Stands(su, Exec(su, s, Turns(i, 1)), i, store, Scanning(store.tokens.order))
  {
    NoTurn(su, s, i);
    OneMoreTurn(su, s, i, 0);
    AtStands(su, s, i, store, Scanning(s.tokens.order));
    hide Exec, At;
  }

  // ----- completing a login -----

  /** What presenting a login comes to before any store call that changes it. */
  function LoginPresented(su: Setup, store: Store, c: Call): Stage
    requires c.CompleteCall?
  {
    var x := su.w.hash(c.txnId);
    if x !in store.txns then Failed(UnknownTxn)
    else if c.now >= store.txns[x].expiresAt then Failed(TxnExpired) else TxnPassed(store.txns[x])
  }

  function TxnUsedIn(store: Store, x: string, at: real): Store
    requires x in store.txns
  {
    store.(txns := store.txns[x := store.txns[x].(consumedAt := Some(at))])
  }

  lemma LoginTurn(su: Setup, s: State, i: nat, store: Store)
    requires Stands(su, s, i, store, Begun) && su.calls(i).CompleteCall?
    ensures Stands(su, Step(su, s, i), i, store, LoginPresented(su, store, su.calls(i)))
  {
    AtStands(su, s, i, store, LoginPresented(su, store, su.calls(i)));
    hide At;
  }

  lemma UseTxnStands(su: Setup, s: State, i: nat, store: Store, txn: Txn, at: real)
    requires Shows(su, s, store) && txn.hash in s.txns
    ensures Stands(su, UseTxn(s, i, txn, at), i, TxnUsedIn(store, txn.hash, at), TxnHolding(txn))
  {
  }

  lemma UseTxnTurn(su: Setup, s: State, i: nat, store: Store, txn: Txn)
    requires Stands(su, s, i, store, TxnPassed(txn)) && su.calls(i).CompleteCall? && txn.hash in store.txns
    ensures if store.txns[txn.hash].consumedAt.Some? then Stands(su, Step(su, s, i), i, store, Failed(TxnUsed))
            else Stands(su, Step(su, s, i), i, TxnUsedIn(store, txn.hash, su.calls(i).now), TxnHolding(txn))
  {
    AtStands(su, s, i, store, Failed(TxnUsed));
    UseTxnStands(su, s, i, store, txn, su.calls(i).now);
    hide At, UseTxn;
  }

  lemma VerifyTurn(su: Setup, s: State, i: nat, store: Store, txn: Txn)
    requires Stands(su, s, i, store, TxnHolding(txn)) && su.calls(i).CompleteCall?
    ensures Stands(su, Step(su, s, i), i, store, Verify(su, txn, su.calls(i)))
  {
    AtStands(su, s, i, store, Verify(su, txn, su.calls(i)));
    hide At, Verify;
  }

  lemma LookTurn(su: Setup, s: State, i: nat, store: Store, txn: Txn, user: string)
    requires Stands(su, s, i, store, Verified(txn, user)) && su.calls(i).CompleteCall?
    ensures var k := (txn.islandId, user);
            Stands(su, Step(su, s, i), i, store,
                   if k in store.links.data then Linked(txn, store.links.data[k].principalId) else Naming(txn, user))
  {
    AtStands(su, s, i, store, Naming(txn, user));
    hide At;
  }

  /** The store after each of the three store calls for a new user. */
  function WithPrincipal(store: Store, pid: string, email: Option<string>, now: real): Store {
    store.(names := store.names + 1, principals := store.principals[pid := Principal(pid, "human", email, now)])
  }

  function WithMember(store: Store, pid: string, org: string, now: real): Store {
    store.(memberships := store.memberships[(pid, org) := Membership(pid, org, ["member"], true, now)])
  }

  function WithLink(store: Store, k: UserKey, pid: string, now: real): Store {
    store.(links := Put(store.links, k, Link(k.0, k.1, pid, now)))
  }

  lemma PrincipalStands(su: Setup, s: State, i: nat, store: Store, txn: Txn, user: string, pid: string,
                        email: Option<string>, now: real)
    requires Shows(su, s, store)
    ensures Stands(su, PutPrincipal(s, i, txn, user, pid), i, WithPrincipal(store, pid, email, now),
                   Joining(txn, user, pid))
  {
  }

  lemma MemberStands(su: Setup, s: State, i: nat, store: Store, txn: Txn, user: string, pid: string, now: real)
    requires Shows(su, s, store) && txn.islandId in store.islands.data
    ensures Stands(su, PutMembership(su, s, i, txn, user, pid), i,
                   WithMember(store, pid, store.islands.data[txn.islandId].orgId, now), Linking(txn, user, pid))
  {
  }

  lemma LinkStands(su: Setup, s: State, i: nat, store: Store, txn: Txn, k: UserKey, pid: string, now: real)
    requires Shows(su, s, store)
    ensures Stands(su, PutLink(s, i, txn, k, pid), i, WithLink(store, k, pid, now), Linked(txn, pid))
  {
  }

  lemma NewUserSteps(su: Setup, s: State, i: nat, txn: Txn, user: string, pid: string)
    requires su.calls(i).CompleteCall?
    ensures StageOf(s, i) == Naming(txn, user) ==>
              Step(su, s, i) == PutPrincipal(s, i, txn, user, su.w.newName(s.names))
    ensures StageOf(s, i) == Joining(txn, user, pid) ==> Step(su, s, i) == PutMembership(su, s, i, txn, user, pid)
    ensures StageOf(s, i) == Linking(txn, user, pid) ==>
              Step(su, s, i) == PutLink(s, i, txn, (txn.islandId, user), pid)
  {
    hide PutPrincipal, PutMembership, PutLink;
  }

  /** The store after a new user's principal, membership and link are stored. */
  function WithUser(w: World, store: Store, k: UserKey, org: string, email: Option<string>, now: real): Store {
    var pid := w.newName(store.names);
    WithLink(WithMember(WithPrincipal(store, pid, email, now), pid, org, now), k, pid, now)
  }

  lemma NewUserTurns(su: Setup, s: State, i: nat, n: nat, store: Store, txn: Txn, user: string,
                     email: Option<string>, now: real)
    requires Stands(su, Exec(su, s, Turns(i, n)), i, store, Naming(txn, user)) && su.calls(i).CompleteCall?
    requires txn.islandId in store.islands.data
    ensures Stands(su, Exec(su, s, Turns(i, n + 3)), i,
                   WithUser(su.w, store, (txn.islandId, user), store.islands.data[txn.islandId].orgId, email, now),
                   Linked(txn, su.w.newName(store.names)))
  {
    var t0, t1, t2 := Exec(su, s, Turns(i, n)), Exec(su, s, Turns(i, n + 1)), Exec(su, s, Turns(i, n + 2));
    var pid, org := su.w.newName(store.names), store.islands.data[txn.islandId].orgId;
    var store1 := WithPrincipal(store, pid, email, now);
    var store2 := WithMember(store1, pid, org, now);
    OneMoreTurn(su, s, i, n);
    OneMoreTurn(su, s, i, n + 1);
    OneMoreTurn(su, s, i, n + 2);
    hide Exec, Step, Turns, PutPrincipal, PutMembership, PutLink;
    NewUserSteps(su, t0, i, txn, user, pid);
    PrincipalStands(su, t0, i, store, txn, user, pid, email, now);
    hide Shows, StageOf;
    NewUserSteps(su, t1, i, txn, user, pid);
    MemberStands(su, t1, i, store1, txn, user, pid, now);
    NewUserSteps(su, t2, i, txn, user, pid);
    LinkStands(su, t2, i, store2, txn, (txn.islandId, user), pid, now);
  }

  lemma FindOrCreateIs(w: World, store: Store, island: Island, user: string, email: Option<string>, now: real)
    ensures var (store', pid) := FindOrCreate(w, store, island, user, email, now);
            var k := (island.id, user);
            if k in store.links.data then store' == store && pid == store.links.data[k].principalId
            else pid == w.newName(store.names) && store' == WithUser(w, store, k, island.orgId, email, now)
  {
    hide Put;
  }

  /** The user's principal is found or made, in one turn or four. */
  lemma UserTurns(su: Setup, s: State, i: nat, n: nat, store: Store, txn: Txn, user: string, email: Option<string>,
                  now: real) returns (m: nat)
    requires Stands(su, Exec(su, s, Turns(i, n)), i, store, Verified(txn, user)) && su.calls(i).CompleteCall?
    requires txn.islandId in store.islands.data && store.islands.data[txn.islandId].id == txn.islandId
    ensures n < m <= n + 4
    ensures var (store', pid) := FindOrCreate(su.w, store, store.islands.data[txn.islandId], user, email, now);
            Stands(su, Exec(su, s, Turns(i, m)), i, store', Linked(txn, pid))
  {
    var island := store.islands.data[txn.islandId];
    OneMoreTurn(su, s, i, n);
    LookTurn(su, Exec(su, s, Turns(i, n)), i, store, txn, user);
    FindOrCreateIs(su.w, store, island, user, email, now);
    hide Exec, Step, Shows, StageOf, Turns, FindOrCreate, WithUser;
    m := n + 1;
    if (txn.islandId, user) !in store.links.data {
      NewUserTurns(su, s, i, n + 1, store, txn, user, email, now);
      m := n + 4;
    }
  }

  lemma StoreCodeStands(su: Setup, s: State, i: nat, store: Store, txn: Txn, code: AuthCode)
    requires Shows(su, s, store)
    ensures Stands(su, StoreCode(s, i, txn, code), i,
                   store.(names := store.names + 1, codes := store.codes[code.hash := code]), Coded(txn.hash))
  {
  }

  lemma IssueIs(su: Setup, store: Store, txn: Txn, pid: string, now: real)
    requires Keyed(store) && txn.islandId in store.islands.data
    requires su.clients == store.clients && su.islands == store.islands.data
    ensures var island := store.islands.data[txn.islandId];
            var (store', r) := IssueAuthCode(su.w, store, TxnGrant(txn, pid, island), txn.redirectUri, txn.challenge,
                                             now, CODE_TTL, None);
            var code := LoginCode(su, store.names, txn, pid, now);
            if txn.clientId !in store.clients then store' == store && r.Err?
            else if txn.redirectUri !in store.clients[txn.clientId].redirectUris
            then store' == store && r == Err(UnregisteredRedirect)
            else r.Ok? && store' == store.(names := store.names + 1, codes := store.codes[code.hash := code])
  {
  }

  lemma CodeTurn(su: Setup, s: State, i: nat, store: Store, txn: Txn, pid: string, now: real)
    requires Shows(su, s, store) && Keyed(store) && txn.islandId in store.islands.data
    ensures var (store', r) := IssueAuthCode(su.w, store, TxnGrant(txn, pid, store.islands.data[txn.islandId]),
                                             txn.redirectUri, txn.challenge, now, CODE_TTL, None);
            Stands(su, CodeStep(su, s, i, txn, pid, now), i, store',
                   if r.Ok? then Coded(txn.hash) else Failed(r.error))
  {
    IssueIs(su, store, txn, pid, now);
    hide At, StoreCode, LoginCode, IssueAuthCode, Stands, Keyed, TxnGrant;
    AtStands(su, s, i, store, Failed(UnknownClient));
    AtStands(su, s, i, store, Failed(UnregisteredRedirect));
    StoreCodeStands(su, s, i, store, txn, LoginCode(su, store.names, txn, pid, now));
  }

  lemma LastTurn(su: Setup, s: State, i: nat, txn: Txn, pid: string)
    requires StageOf(s, i) == Linked(txn, pid) && su.calls(i).CompleteCall?
    ensures Step(su, s, i) == CodeStep(su, s, i, txn, pid, su.calls(i).now)
  {
    hide CodeStep;
  }

  lemma FindOrCreateKeepsKeyed(w: World, store: Store, island: Island, user: string, email: Option<string>, now: real)
    requires Keyed(store)
    ensures var store' := FindOrCreate(w, store, island, user, email, now).0;
            Keyed(store') && store'.islands == store.islands
  {
    hide Put;
  }

  lemma AdmitIs(w: World, store: Store, txn: Txn, claims: Claims, now: real)
    requires Keyed(store) && txn.islandId in store.islands.data
    ensures var island := store.islands.data[txn.islandId];
            var (store1, pid) := FindOrCreate(w, store, island, claims.sub, claims.email, now);
            && island.id == txn.islandId
            && Admit(w, store, txn, island, claims, now)
               == IssueAuthCode(w, store1, TxnGrant(txn, pid, island), txn.redirectUri, txn.challenge, now, CODE_TTL,
                                None)
  {
    hide FindOrCreate, IssueAuthCode;
  }

  /** The rest of a login once its assertion is verified. */
  lemma AdmitTurns(su: Setup, s: State, i: nat, n: nat, store: Store, txn: Txn, claims: Claims) returns (m: nat)
    requires Stands(su, Exec(su, s, Turns(i, n)), i, store, Verified(txn, claims.sub)) && su.calls(i).CompleteCall?
    requires Keyed(store) && txn.islandId in store.islands.data
    ensures m <= n + 5
    ensures var (store', r) := Admit(su.w, store, txn, store.islands.data[txn.islandId], claims, su.calls(i).now);
            Stands(su, Exec(su, s, Turns(i, m)), i, store', if r.Ok? then Coded(txn.hash) else Failed(r.error))
  {
    hide Exec, Step, Turns, Shows, StageOf, FindOrCreate, IssueAuthCode, CodeStep, Keyed, TxnGrant, Admit;
    hide VerifyAssertion, Put;
    var now, island := su.calls(i).now, store.islands.data[txn.islandId];
    var (store1, pid) := FindOrCreate(su.w, store, island, claims.sub, claims.email, now);
    AdmitIs(su.w, store, txn, claims, now);
    FindOrCreateKeepsKeyed(su.w, store, island, claims.sub, claims.email, now);
    m := UserTurns(su, s, i, n, store, txn, claims.sub, claims.email, now);
    var t := Exec(su, s, Turns(i, m));
    OneMoreTurn(su, s, i, m);
    LastTurn(su, t, i, txn, pid);
    CodeTurn(su, t, i, store1, txn, pid, now);
    m := m + 1;
  }

  /** The kernel's completion, by what presenting and verifying come to. */
  lemma CompletionIs(su: Setup, i: nat, store: Store)
    requires Keyed(store) && su.calls(i).CompleteCall? && su.islands == store.islands.data
    ensures var c := su.calls(i);
            var (store', r) := CompleteFederation(su.w, store, c.txnId, c.answer, c.now, c.kernelIssuer);
            match LoginPresented(su, store, c)
            case Failed(error) => store' == store && r == Err(error)
            case TxnPassed(txn) =>
              && txn.hash in store.txns && txn.hash == su.w.hash(c.txnId)
              && (if store.txns[txn.hash].consumedAt.Some? then store' == store && r == Err(TxnUsed)
                  else
                    var used := TxnUsedIn(store, txn.hash, c.now);
                    match Verify(su, txn, c)
                    case Failed(error) => store' == used && r == Err(error)
                    case Verified(t, user) =>
                      && t == txn && txn.islandId in used.islands.data && c.answer.Assertion? && c.answer.claims.Some?
                      && user == c.answer.claims.value.sub
                      && var island, claims := used.islands.data[txn.islandId], c.answer.claims.value;
                         (store', r) == Admit(su.w, used, txn, island, claims, c.now)
                    case _ => false)
            case _ => false
  {
    hide Admit;
  }

  lemma UsedKeepsKeyed(store: Store, x: string, at: real)
    requires Keyed(store) && x in store.txns
    ensures Keyed(TxnUsedIn(store, x, at))
  {
  }

  /** From the transaction in hand to the end of the call. */
  lemma LoginTurns(su: Setup, s: State, i: nat, n: nat, store: Store, txn: Txn) returns (m: nat)
    requires Stands(su, Exec(su, s, Turns(i, n)), i, store, TxnHolding(txn)) && su.calls(i).CompleteCall?
    requires Keyed(store)
    requires var v, c := Verify(su, txn, su.calls(i)), su.calls(i);
             v.Verified? ==>
               && v.txn == txn && txn.islandId in store.islands.data && c.answer.Assertion? && c.answer.claims.Some?
               && v.user == c.answer.claims.value.sub
    ensures m <= n + 6
    ensures var v, c := Verify(su, txn, su.calls(i)), su.calls(i);
            if v.Verified?
            then
              var island, claims := store.islands.data[txn.islandId], c.answer.claims.value;
              var (store', r) := Admit(su.w, store, txn, island, claims, c.now);
              Stands(su, Exec(su, s, Turns(i, m)), i, store', if r.Ok? then Coded(txn.hash) else Failed(r.error))
            else Stands(su, Exec(su, s, Turns(i, m)), i, store, v)
  {
    hide Exec, Step, Shows, Turns, Keyed, Verify, Admit, StageOf;
    OneMoreTurn(su, s, i, n);
    VerifyTurn(su, Exec(su, s, Turns(i, n)), i, store, txn);
    m := n + 1;
    if Verify(su, txn, su.calls(i)).Verified? {
      m := AdmitTurns(su, s, i, n + 1, store, txn, su.calls(i).answer.claims.value);
    }
  }

  /** Eight undisturbed steps complete a login as the kernel does: the same store, the same answer. */
  lemma CompletesAlone(su: Setup, s: State, i: nat, store: Store, n: nat)
    requires Stands(su, s, i, store, Begun) && Keyed(store) && su.calls(i).CompleteCall? && n >= 8
    ensures var c, t := su.calls(i), Exec(su, s, Turns(i, n));
            var (store', r) := CompleteFederation(su.w, store, c.txnId, c.answer, c.now, c.kernelIssuer);
            && Shows(su, t, store')
            && (r.Ok? <==> StageOf(t, i).Coded?) && (r.Err? ==> StageOf(t, i) == Failed(r.error))
  {
    var c := su.calls(i);
    CompletionIs(su, i, store);
    NoTurn(su, s, i);
    OneMoreTurn(su, s, i, 0);
    OneMoreTurn(su, s, i, 1);
    LoginTurn(su, s, i, store);
    var begun := LoginPresented(su, store, c);
    hide Exec, Step, Shows, Turns, Keyed, CompleteFederation, LoginPresented, Verify, Admit, StageOf, TxnUsedIn;
    if begun.Failed? {
      StaysOver(su, s, i, 1, n, store, begun);
    } else {
      var txn := begun.txn;
      UseTxnTurn(su, Exec(su, s, Turns(i, 1)), i, store, txn);
      if store.txns[txn.hash].consumedAt.Some? {
        StaysOver(su, s, i, 2, n, store, Failed(TxnUsed));
      } else {
        var used := TxnUsedIn(store, txn.hash, c.now);
        UsedKeepsKeyed(store, txn.hash, c.now);
        var m := LoginTurns(su, s, i, 2, used, txn);
        var (store', r) := CompleteFederation(su.w, store, c.txnId, c.answer, c.now, c.kernelIssuer);
        StaysOver(su, s, i, m, n, store', if r.Ok? then Coded(txn.hash) else Failed(r.error));
      }
    }
  }

  /** What any sequential run leaves is a store over which calls can start. */
  lemma EveryRunShows(su: Setup, t: IdentityRuns.Traced, i: nat)
    requires IdentityRuns.Inv(su.w, t) && su.clients == t.store.clients && su.islands == t.store.islands.data
    ensures Stands(su, StartOf(t.store), i, t.store, Begun) && Keyed(t.store)
    ensures forall h :: !NotYetReturned(StartOf(t.store), h)
  {
    hide IdentityRuns.TokensOk, IdentityRuns.Lineage, IdentityRuns.SpentOk, IdentityRuns.RefreshUnique;
    hide IdentityRuns.McpApart, IdentityRuns.LoginsOk, IdentityRuns.LinksOk, Valid;
  }
}
