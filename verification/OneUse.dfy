/**
 Any number of code redemptions, refreshes and login completions at once: each call runs as steps,
 one per store call, interleaved in any order. A call that crashes is one never scheduled again.
 */
module OneUse {
  import opened Wrappers
  import opened Dict
  import opened IdentitySpec
  import opened IdentityRuns
  import opened Names

  datatype Call =
    | RedeemCall(code: string, verifier: string, audience: Option<string>, now: real, accessTtl: real, refreshTtl: real)
    | RefreshCall(refreshToken: string, now: real, accessTtl: real, refreshTtl: real)
    | CompleteCall(txnId: string, answer: IslandAnswer, now: real, kernelIssuer: string)

  /** What the run does not change: the registries, and which call each process makes. */
  datatype Setup = Setup(w: World, islands: map<string, Island>, clients: map<string, Client>, calls: nat -> Call)

  type UserKey = (string, string)

  datatype Stage =
    | Begun
    | Passed(row: AuthCode) | Holding(row: AuthCode) | Redeemed(c: string)
    | Scanning(todo: seq<string>) | Read(found: AccessToken) | Stored(before: AccessToken, after: AccessToken)
    | Renewed(o: string)
    | TxnPassed(txn: Txn) | TxnHolding(txn: Txn) | Verified(txn: Txn, user: string) | Naming(txn: Txn, user: string)
    | Joining(txn: Txn, user: string, pid: string) | Linking(txn: Txn, user: string, pid: string)
    | Linked(txn: Txn, pid: string) | Coded(x: string)
    | Failed(error: Error)

  datatype UserPrincipal = UserPrincipal(key: UserKey, pid: string)

  /**
   The store, where each call stands, and what the run remembers: the code behind each token
   pair redeemed, the row behind each pair refreshed and the refresh token accepted for it, the
   code each row descends from, every row ever stored, the transaction behind each issued code,
   the principal each login resolved its user to.
   */
  datatype State = State(codes: map<string, AuthCode>, tokens: Dict<string, AccessToken>, txns: map<string, Txn>,
                         principals: set<string>, members: set<(string, string)>, links: map<UserKey, string>,
                         names: nat, stages: map<nat, Stage>,
                         pairs: seq<string>, renewed: seq<string>, accepted: seq<string>,
                         origin: map<string, string>, made: map<string, AccessToken>, issued: seq<string>,
                         resolved: map<nat, UserPrincipal>)

  function StageOf(s: State, i: nat): Stage {
    if i in s.stages then s.stages[i] else Begun
  }

  function At(s: State, i: nat, stage: Stage): State {
    s.(stages := s.stages[i := stage])
  }

  /** The row of a pair under the next two names. */
  function NewToken(w: World, n: nat, grant: Grant, now: real, accessTtl: real, refreshTtl: real): AccessToken {
    AccessToken(w.hash(w.newName(n)), grant, now + accessTtl,
                Some(RefreshPart(w.hash(w.newName(n + 1)), now + refreshTtl)))
  }

  function UseCode(s: State, i: nat, row: AuthCode, at: real): State
    requires row.hash in s.codes
  {
    At(s, i, Holding(row)).(codes := s.codes[row.hash := s.codes[row.hash].(consumedAt := Some(at))])
  }

  function StorePair(s: State, i: nat, row: AuthCode, token: AccessToken): State {
    At(s, i, Redeemed(row.hash)).(names := s.names + 2, tokens := Put(s.tokens, token.hash, token),
                                  made := s.made[token.hash := token],
                                  pairs := s.pairs + [row.hash], origin := s.origin[token.hash := row.hash])
  }

  function RedeemStep(su: Setup, s: State, i: nat, call: Call): State
    requires call.RedeemCall?
  {
    match StageOf(s, i)
    case Begun =>
      var h := su.w.hash(call.code);
      if h !in s.codes then At(s, i, Failed(UnknownCode))
      else
        var problem := CodeProblem(su.w, s.codes[h], call.verifier, call.audience, call.now);
        At(s, i, if problem.Some? then Failed(problem.value) else Passed(s.codes[h]))
    case Passed(row) =>
      if row.hash !in s.codes || s.codes[row.hash].consumedAt.Some? then At(s, i, Failed(CodeUsed))
      else UseCode(s, i, row, call.now)
    case Holding(row) =>
      StorePair(s, i, row, NewToken(su.w, s.names, row.grant, call.now, call.accessTtl, call.refreshTtl))
    case _ => s
  }

  /** The refresh token is one that a call still under way has stored and not yet returned. */
  predicate NotYetReturned(s: State, h: string) {
    exists j :: j in s.stages && s.stages[j].Stored? && CarriesRefresh(s.stages[j].after, h)
  }

  /** One row of the scan. */
  function ScanStep(s: State, i: nat, h: string, todo: seq<string>, now: real): State {
    if todo == [] then At(s, i, Failed(UnknownRefresh))
    else if todo[0] in s.tokens.data && CarriesRefresh(s.tokens.data[todo[0]], h) then
      var row := s.tokens.data[todo[0]];
      At(s, i, if now >= row.refresh.value.expiresAt then Failed(RefreshExpired) else Read(row))
    else At(s, i, Scanning(todo[1..]))
  }

  /** The refresh token presented is accepted: its call stores a new pair. */
  function PutStep(s: State, i: nat, presented: string, row: AccessToken, token: AccessToken): State {
    At(s, i, Stored(row, token)).(names := s.names + 2, tokens := Put(s.tokens, token.hash, token),
                                  made := s.made[token.hash := token],
                                  renewed := s.renewed + [row.hash], accepted := s.accepted + [presented],
                                  origin := OriginAfter(s.origin, row, token))
  }

  function OriginAfter(origin: map<string, string>, row: AccessToken, token: AccessToken): map<string, string> {
    if row.hash in origin then origin[token.hash := origin[row.hash]] else origin
  }

  function RotateStep(s: State, i: nat, row: AccessToken, token: AccessToken): State {
    At(s, i, Renewed(row.hash)).(tokens := Put(Remove(s.tokens, row.hash), token.hash, token))
  }

  /** A caller presents only what has been returned to somebody. */
  function RefreshStep(su: Setup, s: State, i: nat, call: Call): State
    requires call.RefreshCall?
  {
    var h := su.w.hash(call.refreshToken);
    match StageOf(s, i)
    case Begun => if NotYetReturned(s, h) then s else At(s, i, Scanning(s.tokens.order))
    case Scanning(todo) => ScanStep(s, i, h, todo, call.now)
    case Read(row) =>
      PutStep(s, i, call.refreshToken, row,
              NewToken(su.w, s.names, row.grant, call.now, call.accessTtl, call.refreshTtl))
    case Stored(row, token) => RotateStep(s, i, row, token)
    case _ => s
  }

  function Verify(su: Setup, txn: Txn, call: Call): Stage
    requires call.CompleteCall?
  {
    if txn.islandId !in su.islands || su.islands[txn.islandId].disabledAt.Some? then Failed(IslandUnavailable)
    else if call.answer.FetchFailed? then Failed(ExchangeFailed)
    else
      var claims := VerifyAssertion(call.answer.claims, su.islands[txn.islandId].issuer, call.kernelIssuer, txn.nonce,
                                    call.now);
      if claims.None? then Failed(BadAssertion) else Verified(txn, claims.value.sub)
  }

  function LoginCode(su: Setup, n: nat, txn: Txn, pid: string, now: real): AuthCode {
    var org := if txn.islandId in su.islands then Some(su.islands[txn.islandId].orgId) else None;
    AuthCode(su.w.hash(su.w.newName(n)), Grant(txn.clientId, pid, org, txn.audience, txn.scope), txn.challenge,
             now + CODE_TTL, None)
  }

  function StoreCode(s: State, i: nat, txn: Txn, code: AuthCode): State {
    At(s, i, Coded(txn.hash)).(names := s.names + 1, codes := s.codes[code.hash := code],
                               issued := s.issued + [txn.hash])
  }

  /** The last step of a completion: the code is stored when the client and its redirect still stand. */
  function CodeStep(su: Setup, s: State, i: nat, txn: Txn, pid: string, now: real): State {
    if txn.clientId !in su.clients then At(s, i, Failed(UnknownClient))
    else if txn.redirectUri !in su.clients[txn.clientId].redirectUris then At(s, i, Failed(UnregisteredRedirect))
    else StoreCode(s, i, txn, LoginCode(su, s.names, txn, pid, now))
  }

  function UseTxn(s: State, i: nat, txn: Txn, at: real): State
    requires txn.hash in s.txns
  {
    At(s, i, TxnHolding(txn)).(txns := s.txns[txn.hash := s.txns[txn.hash].(consumedAt := Some(at))])
  }

  function FindUser(s: State, i: nat, txn: Txn, k: UserKey): State
    requires k in s.links
  {
    At(s, i, Linked(txn, s.links[k])).(resolved := s.resolved[i := UserPrincipal(k, s.links[k])])
  }

  /** A new user's principal, its membership in the island's org, and only then its link. */
  function PutPrincipal(s: State, i: nat, txn: Txn, user: string, pid: string): State {
    At(s, i, Joining(txn, user, pid)).(names := s.names + 1, principals := s.principals + {pid})
  }

  function PutMembership(su: Setup, s: State, i: nat, txn: Txn, user: string, pid: string): State {
    At(s, i, Linking(txn, user, pid)).(members := s.members + {(pid, OrgOf(su, txn.islandId))})
  }

  function PutLink(s: State, i: nat, txn: Txn, k: UserKey, pid: string): State {
    At(s, i, Linked(txn, pid)).(links := s.links[k := pid], resolved := s.resolved[i := UserPrincipal(k, pid)])
  }

  function OrgOf(su: Setup, islandId: string): string {
    if islandId in su.islands then su.islands[islandId].orgId else ""
  }

  function CompleteStep(su: Setup, s: State, i: nat, call: Call): State
    requires call.CompleteCall?
  {
    match StageOf(s, i)
    case Begun =>
      var h := su.w.hash(call.txnId);
      At(s, i, if h !in s.txns then Failed(UnknownTxn)
               else if call.now >= s.txns[h].expiresAt then Failed(TxnExpired) else TxnPassed(s.txns[h]))
    case TxnPassed(txn) =>
      if txn.hash !in s.txns || s.txns[txn.hash].consumedAt.Some? then At(s, i, Failed(TxnUsed))
      else UseTxn(s, i, txn, call.now)
    case TxnHolding(txn) => At(s, i, Verify(su, txn, call))
    case Verified(txn, user) =>
      var k := (txn.islandId, user);
      if k in s.links then FindUser(s, i, txn, k)
      else At(s, i, Naming(txn, user))
    case Naming(txn, user) => PutPrincipal(s, i, txn, user, su.w.newName(s.names))
    case Joining(txn, user, pid) => PutMembership(su, s, i, txn, user, pid)
    case Linking(txn, user, pid) => PutLink(s, i, txn, (txn.islandId, user), pid)
    case Linked(txn, pid) => CodeStep(su, s, i, txn, pid, call.now)
    case _ => s
  }

  function Step(su: Setup, s: State, i: nat): State {
    var call := su.calls(i);
    match call
    case RedeemCall(_, _, _, _, _, _) => RedeemStep(su, s, i, call)
    case RefreshCall(_, _, _, _) => RefreshStep(su, s, i, call)
    case CompleteCall(_, _, _, _) => CompleteStep(su, s, i, call)
  }

  function Exec(su: Setup, s: State, schedule: seq<nat>): State {
    if schedule == [] then s else Step(su, Exec(su, s, schedule[..|schedule| - 1]), schedule[|schedule| - 1])
  }

  lemma ExecLast(su: Setup, s: State, schedule: seq<nat>)
    requires schedule != []
    ensures Exec(su, s, schedule) == Step(su, Exec(su, s, schedule[..|schedule| - 1]), schedule[|schedule| - 1])
  {
    hide Step;
  }

  /** Token rows stand under their own hashes, which come from names already given out. */
  ghost predicate TokensNamed(w: World, n: nat, tokens: Dict<string, AccessToken>) {
    Valid(tokens) && forall h :: h in tokens.data ==> tokens.data[h].hash == h && Minted(w, n, h)
  }

  /** No two rows, past or present, carry one refresh hash, and all come from names already given out. */
  ghost predicate MadeOk(w: World, n: nat, made: map<string, AccessToken>) {
    && RefreshUnique(made)
    && forall h :: h in made ==> Minted(w, n, h) && (made[h].refresh.Some? ==> Minted(w, n, made[h].refresh.value.hash))
  }

  /** No call has begun; what is stored carries names already given out. */
  ghost predicate Initial(w: World, s: State) {
    && CodesOk(w, s.names, s.codes) && TxnsOk(w, s.names, s.txns) && TokensNamed(w, s.names, s.tokens)
    && s.made == s.tokens.data && MadeOk(w, s.names, s.made)
    && s.stages == map[] && s.pairs == [] && s.renewed == [] && s.accepted == [] && s.issued == []
    && s.resolved == map[]
    && forall k :: k in s.links ==> Named(w, s.names, s.links[k])
  }

  /** The store of a sequential run, as a start. */
  function StartOf(store: Store): State {
    State(store.codes, store.tokens, store.txns, store.principals.Keys, store.memberships.Keys,
          map k | k in store.links.data :: store.links.data[k].principalId,
          store.names, map[], [], [], [], map[], store.tokens.data, [], map[])
  }

  /** Calls may start at once from whatever any sequential run has left. */
  lemma EveryRunLeavesAStart(w: World, t: Traced)
    requires IdentityRuns.Inv(w, t)
    ensures Initial(w, StartOf(t.store))
  {
    hide IdentityRuns.Lineage, IdentityRuns.SpentOk;
    hide IdentityRuns.McpApart, IdentityRuns.LoginsOk, IdentityRuns.IslandsOk;
    hide RefreshUnique, Minted, Named, Valid;
    var s := t.store;
    assert forall h :: h in s.tokens.data ==> IdentityRuns.TokenOk(w, s.names, h, s.tokens.data[h]);
    assert forall k :: k in s.links.data ==>
      IdentityRuns.LinkOk(w, s.names, k, s.links.data[k], s.islands.data, s.principals, s.memberships);
  }

  lemma AtStages(s: State, i: nat)
    ensures forall stage :: At(s, i, stage).stages == s.stages[i := stage]
  {
  }

  /** A step moves no other call. */
  lemma RedeemMovesOne(su: Setup, s: State, i: nat, j: nat, call: Call)
    requires call.RedeemCall? && i != j
    ensures StageOf(RedeemStep(su, s, j, call), i) == StageOf(s, i)
  {
    AtStages(s, j);
    hide CodeProblem, NewToken, At;
  }

  lemma ScanMovesOne(s: State, i: nat, j: nat, h: string, todo: seq<string>, now: real)
    requires i != j
    ensures StageOf(ScanStep(s, j, h, todo, now), i) == StageOf(s, i)
  {
  }

  lemma PairStages(s: State, i: nat, presented: string, row: AccessToken, token: AccessToken)
    ensures PutStep(s, i, presented, row, token).stages == s.stages[i := Stored(row, token)]
    ensures RotateStep(s, i, row, token).stages == s.stages[i := Renewed(row.hash)]
  {
    hide Put, Remove;
  }

  lemma RefreshMovesOne(su: Setup, s: State, i: nat, j: nat, call: Call)
    requires call.RefreshCall? && i != j
    ensures StageOf(RefreshStep(su, s, j, call), i) == StageOf(s, i)
  {
    AtStages(s, j);
    hide NotYetReturned, ScanStep, NewToken, PutStep, RotateStep, At;
    match StageOf(s, j)
    case Scanning(todo) => ScanMovesOne(s, i, j, su.w.hash(call.refreshToken), todo, call.now);
    case Read(row) =>
      PairStages(s, j, call.refreshToken, row,
                 NewToken(su.w, s.names, row.grant, call.now, call.accessTtl, call.refreshTtl));
    case Stored(row, token) => PairStages(s, j, call.refreshToken, row, token);
    case _ =>
  }

  lemma CodeMovesOne(su: Setup, s: State, i: nat, j: nat, txn: Txn, pid: string, now: real)
    requires i != j
    ensures StageOf(CodeStep(su, s, j, txn, pid, now), i) == StageOf(s, i)
  {
    AtStages(s, j);
    hide At, LoginCode;
  }

  lemma CompleteMovesOne(su: Setup, s: State, i: nat, j: nat, call: Call)
    requires call.CompleteCall? && i != j
    ensures StageOf(CompleteStep(su, s, j, call), i) == StageOf(s, i)
  {
    AtStages(s, j);
    hide Verify, CodeStep, At;
    if StageOf(s, j).Linked? { CodeMovesOne(su, s, i, j, StageOf(s, j).txn, StageOf(s, j).pid, call.now); }
  }

  lemma StepMovesOne(su: Setup, s: State, i: nat, j: nat)
    requires i != j
    ensures StageOf(Step(su, s, j), i) == StageOf(s, i)
  {
    hide RedeemStep, RefreshStep, CompleteStep;
    match su.calls(j)
    case RedeemCall(_, _, _, _, _, _) => RedeemMovesOne(su, s, i, j, su.calls(j));
    case RefreshCall(_, _, _, _) => RefreshMovesOne(su, s, i, j, su.calls(j));
    case CompleteCall(_, _, _, _) => CompleteMovesOne(su, s, i, j, su.calls(j));
  }

  // ----- one winner per code and per transaction -----

  /** The call presents this code and passes every check on it. */
  predicate Accepts(su: Setup, i: nat, row: AuthCode) {
    var call := su.calls(i);
    && call.RedeemCall? && su.w.hash(call.code) == row.hash
    && CodeProblem(su.w, row, call.verifier, call.audience, call.now).None?
  }

  /** The code a call has used, or nothing. */
  function CodeWon(stage: Stage): Option<string> {
    if stage.Holding? then Some(stage.row.hash) else if stage.Redeemed? then Some(stage.c) else None
  }

  /** The transaction a call has used, or nothing. */
  function TxnWon(stage: Stage): Option<string> {
    if stage.TxnHolding? || stage.Verified? || stage.Naming? || stage.Joining? || stage.Linking? || stage.Linked?
    then Some(stage.txn.hash)
    else if stage.Coded? then Some(stage.x) else None
  }

  ghost predicate CodeStageOk(su: Setup, codes: map<string, AuthCode>, i: nat, stage: Stage) {
    && (stage.Passed? || stage.Holding? ==>
          && stage.row.hash in codes && codes[stage.row.hash].(consumedAt := stage.row.consumedAt) == stage.row
          && Accepts(su, i, stage.row))
    && (CodeWon(stage).Some? ==> CodeWon(stage).value in codes && codes[CodeWon(stage).value].consumedAt.Some?)
  }

  ghost predicate TxnStageOk(txns: map<string, Txn>, stage: Stage) {
    && (stage.TxnPassed? ==> stage.txn.hash in txns)
    && (TxnWon(stage).Some? ==> TxnWon(stage).value in txns && txns[TxnWon(stage).value].consumedAt.Some?)
  }

  ghost predicate OneWinner(stages: map<nat, Stage>) {
    forall i, j | i in stages && j in stages && i != j ::
      && (CodeWon(stages[i]).Some? ==> CodeWon(stages[i]) != CodeWon(stages[j]))
      && (TxnWon(stages[i]).Some? ==> TxnWon(stages[i]) != TxnWon(stages[j]))
  }

  ghost predicate Logged(stages: map<nat, Stage>, pairs: seq<string>, issued: seq<string>) {
    && NoDuplicates(pairs) && (forall c :: c in pairs ==> exists i :: i in stages && stages[i] == Redeemed(c))
    && NoDuplicates(issued) && (forall x :: x in issued ==> exists i :: i in stages && stages[i] == Coded(x))
  }

  ghost predicate StagesOk(su: Setup, codes: map<string, AuthCode>, txns: map<string, Txn>, stages: map<nat, Stage>) {
    forall i :: i in stages ==> CodeStageOk(su, codes, i, stages[i]) && TxnStageOk(txns, stages[i])
  }

  /** A code used since the start was used by the call that holds it, which presented it and passed every check. */
  ghost predicate UsedProperly(su: Setup, codes0: map<string, AuthCode>, codes: map<string, AuthCode>,
                               stages: map<nat, Stage>) {
    forall c :: c in codes && codes[c].consumedAt.Some? ==>
      (c in codes0 && codes0[c].consumedAt.Some?) || exists i :: WinsProperly(su, codes, stages, i, c)
  }

  ghost predicate WinsProperly(su: Setup, codes: map<string, AuthCode>, stages: map<nat, Stage>, i: nat, c: string) {
    i in stages && CodeWon(stages[i]) == Some(c) && c in codes && Accepts(su, i, codes[c])
  }

  ghost predicate Inv(su: Setup, codes0: map<string, AuthCode>, s: State) {
    && CodesOk(su.w, s.names, s.codes) && TxnsOk(su.w, s.names, s.txns)
    && StagesOk(su, s.codes, s.txns, s.stages) && OneWinner(s.stages) && Logged(s.stages, s.pairs, s.issued)
    && UsedProperly(su, codes0, s.codes, s.stages)
  }

  // ----- each step keeps it -----

  /** What codes and transactions may go through while others are under way. */
  ghost predicate Grow(codes: map<string, AuthCode>, codes': map<string, AuthCode>, txns: map<string, Txn>,
                       txns': map<string, Txn>) {
    && (forall c :: c in codes ==> c in codes' && codes'[c] == codes[c].(consumedAt := codes'[c].consumedAt)
                                   && (codes[c].consumedAt.Some? ==> codes'[c] == codes[c]))
    && (forall x :: x in txns ==> x in txns' && (txns[x].consumedAt.Some? ==> txns'[x].consumedAt.Some?))
  }

  lemma StagesOutlive(su: Setup, codes: map<string, AuthCode>, codes': map<string, AuthCode>, txns: map<string, Txn>,
                      txns': map<string, Txn>, stages: map<nat, Stage>, i: nat, stage: Stage)
    requires StagesOk(su, codes, txns, stages) && Grow(codes, codes', txns, txns')
    requires CodeStageOk(su, codes', i, stage) && TxnStageOk(txns', stage)
    ensures StagesOk(su, codes', txns', stages[i := stage])
  {
    hide Accepts;
    forall j | j in stages ensures CodeStageOk(su, codes', j, stages[j]) && TxnStageOk(txns', stages[j]) {
      assert CodeStageOk(su, codes, j, stages[j]) && TxnStageOk(txns, stages[j]);
    }
  }

  /** A stage that wins nothing the call had not already won makes no second winner. */
  lemma WinnersStay(stages: map<nat, Stage>, i: nat, stage: Stage)
    requires OneWinner(stages) && AddsNothing(stages, i, stage)
    ensures OneWinner(stages[i := stage])
  {
  }

  ghost predicate AddsNothing(stages: map<nat, Stage>, i: nat, stage: Stage) {
    && (CodeWon(stage).Some? ==> i in stages && CodeWon(stages[i]) == CodeWon(stage))
    && (TxnWon(stage).Some? ==> i in stages && TxnWon(stages[i]) == TxnWon(stage))
  }

  /** Nor does winning what is not yet used. */
  lemma WinnerIsFirst(su: Setup, codes: map<string, AuthCode>, txns: map<string, Txn>, stages: map<nat, Stage>,
                      i: nat, stage: Stage)
    requires StagesOk(su, codes, txns, stages) && OneWinner(stages)
    requires CodeWon(stage).Some? ==> CodeWon(stage).value in codes && codes[CodeWon(stage).value].consumedAt.None?
    requires TxnWon(stage).Some? ==> TxnWon(stage).value in txns && txns[TxnWon(stage).value].consumedAt.None?
    ensures OneWinner(stages[i := stage])
  {
    hide Accepts;
    forall j | j in stages
      ensures CodeWon(stage).Some? ==> CodeWon(stages[j]) != CodeWon(stage)
      ensures TxnWon(stage).Some? ==> TxnWon(stages[j]) != TxnWon(stage)
    {
      StageIs(su, codes, txns, stages, j);
    }
  }

  lemma StageIs(su: Setup, codes: map<string, AuthCode>, txns: map<string, Txn>, stages: map<nat, Stage>, i: nat)
    requires StagesOk(su, codes, txns, stages) && i in stages
    ensures CodeStageOk(su, codes, i, stages[i]) && TxnStageOk(txns, stages[i])
  {
  }

  lemma LogStays(stages: map<nat, Stage>, pairs: seq<string>, issued: seq<string>, i: nat, stage: Stage)
    requires Logged(stages, pairs, issued)
    requires i in stages ==> !stages[i].Redeemed? && !stages[i].Coded?
    ensures Logged(stages[i := stage], pairs, issued)
  {
    var stages' := stages[i := stage];
    forall c | c in pairs ensures exists j :: j in stages' && stages'[j] == Redeemed(c) {
      var j :| j in stages && stages[j] == Redeemed(c);
      assert stages'[j] == Redeemed(c);
    }
    forall x | x in issued ensures exists j :: j in stages' && stages'[j] == Coded(x) {
      var j :| j in stages && stages[j] == Coded(x);
      assert stages'[j] == Coded(x);
    }
  }

  lemma LogPair(stages: map<nat, Stage>, pairs: seq<string>, issued: seq<string>, i: nat, c: string)
    requires Logged(stages, pairs, issued) && OneWinner(stages)
    requires i in stages && stages[i].Holding? && stages[i].row.hash == c
    ensures Logged(stages[i := Redeemed(c)], pairs + [c], issued)
  {
    LogStays(stages, pairs, issued, i, Redeemed(c));
    assert c !in pairs;
    assert stages[i := Redeemed(c)][i] == Redeemed(c);
  }

  lemma LogIssue(stages: map<nat, Stage>, pairs: seq<string>, issued: seq<string>, i: nat, x: string)
    requires Logged(stages, pairs, issued) && OneWinner(stages)
    requires i in stages && stages[i].Linked? && stages[i].txn.hash == x
    ensures Logged(stages[i := Coded(x)], pairs, issued + [x])
  {
    LogStays(stages, pairs, issued, i, Coded(x));
    assert x !in issued;
    assert stages[i := Coded(x)][i] == Coded(x);
  }

  lemma NamesUsed(w: World, n: nat, m: nat, codes: map<string, AuthCode>, txns: map<string, Txn>)
    requires CodesOk(w, n, codes) && TxnsOk(w, n, txns) && n <= m
    ensures CodesOk(w, m, codes) && TxnsOk(w, m, txns)
  {
    forall h: string ensures Minted(w, n, h) ==> Minted(w, m, h) { MintedGrows(w, n, m, h); }
  }

  /** A code won stays won, and by the same call. */
  lemma UseStays(su: Setup, codes0: map<string, AuthCode>, codes: map<string, AuthCode>, stages: map<nat, Stage>,
                 i: nat, stage: Stage)
    requires UsedProperly(su, codes0, codes, stages)
    requires i in stages && CodeWon(stages[i]).Some? ==> CodeWon(stage) == CodeWon(stages[i])
    ensures UsedProperly(su, codes0, codes, stages[i := stage])
  {
    hide Accepts;
    var stages' := stages[i := stage];
    forall c | c in codes && codes[c].consumedAt.Some? && !(c in codes0 && codes0[c].consumedAt.Some?)
      ensures exists j :: WinsProperly(su, codes, stages', j, c)
    {
      var j :| WinsProperly(su, codes, stages, j, c);
      assert WinsProperly(su, codes, stages', j, c);
    }
  }

  lemma LoserMoves(su: Setup, codes0: map<string, AuthCode>, s: State, i: nat, stage: Stage)
    requires UsedProperly(su, codes0, s.codes, s.stages) && CodeWon(StageOf(s, i)).None?
    ensures UsedProperly(su, codes0, s.codes, s.stages[i := stage])
  {
    hide UsedProperly, CodeWon;
    UseStays(su, codes0, s.codes, s.stages, i, stage);
  }

  /** A step that only moves its own call along, winning nothing. */
  lemma MoveKeepsInv(su: Setup, codes0: map<string, AuthCode>, s: State, i: nat, stage: Stage)
    requires Inv(su, codes0, s) && CodeStageOk(su, s.codes, i, stage) && TxnStageOk(s.txns, stage)
    requires !StageOf(s, i).Redeemed? && !StageOf(s, i).Coded?
    requires AddsNothing(s.stages, i, stage) && CodeWon(StageOf(s, i)).None?
    ensures Inv(su, codes0, At(s, i, stage))
  {
    hide CodesOk, TxnsOk, UsedProperly, OneWinner, Logged, StagesOk, CodeStageOk, TxnStageOk, AddsNothing, TxnWon, Grow;
    LoserMoves(su, codes0, s, i, stage);
    SameGrow(s.codes, s.txns);
    NotLogged(s, i);
    hide CodeWon, StageOf;
    StagesOutlive(su, s.codes, s.codes, s.txns, s.txns, s.stages, i, stage);
    WinnersStay(s.stages, i, stage);
    LogStays(s.stages, s.pairs, s.issued, i, stage);
  }

  lemma SameGrow(codes: map<string, AuthCode>, txns: map<string, Txn>)
    ensures Grow(codes, codes, txns, txns)
  {
  }

  lemma NotLogged(s: State, i: nat)
    requires CodeWon(StageOf(s, i)).None? && !StageOf(s, i).Coded?
    ensures i in s.stages ==> !s.stages[i].Redeemed? && !s.stages[i].Coded?
  {
  }

  lemma FailKeepsInv(su: Setup, codes0: map<string, AuthCode>, s: State, i: nat, error: Error)
    requires Inv(su, codes0, s) && !StageOf(s, i).Coded? && CodeWon(StageOf(s, i)).None?
    ensures Inv(su, codes0, At(s, i, Failed(error)))
  {
    hide Inv;
    MoveKeepsInv(su, codes0, s, i, Failed(error));
  }

  lemma ConsumeCode(su: Setup, codes0: map<string, AuthCode>, n: nat, codes: map<string, AuthCode>,
                    stages: map<nat, Stage>,
                    i: nat, row: AuthCode, at: real)
    requires CodesOk(su.w, n, codes) && UsedProperly(su, codes0, codes, stages)
    requires i in stages && stages[i] == Passed(row) && CodeStageOk(su, codes, i, Passed(row))
    requires row.hash in codes && codes[row.hash].consumedAt.None?
    ensures var codes' := codes[row.hash := codes[row.hash].(consumedAt := Some(at))];
            && CodesOk(su.w, n, codes') && CodeStageOk(su, codes', i, Holding(row))
            && UsedProperly(su, codes0, codes', stages[i := Holding(row)])
  {
    hide Minted;
    var codes', stages' := codes[row.hash := codes[row.hash].(consumedAt := Some(at))], stages[i := Holding(row)];
    assert WinsProperly(su, codes', stages', i, row.hash);
    forall c | c in codes && c != row.hash && codes[c].consumedAt.Some? && !(c in codes0 && codes0[c].consumedAt.Some?)
      ensures exists j :: WinsProperly(su, codes', stages', j, c)
    {
      var j :| WinsProperly(su, codes, stages, j, c);
      assert WinsProperly(su, codes', stages', j, c);
    }
  }

  lemma ConsumeCodeKeepsInv(su: Setup, codes0: map<string, AuthCode>, s: State, i: nat, row: AuthCode, at: real)
    requires Inv(su, codes0, s) && i in s.stages && s.stages[i] == Passed(row)
    requires row.hash in s.codes && s.codes[row.hash].consumedAt.None?
    ensures Inv(su, codes0, UseCode(s, i, row, at))
  {
    hide CodesOk, TxnsOk, UsedProperly, OneWinner, Logged, StagesOk, CodeStageOk;
    var codes := s.codes[row.hash := s.codes[row.hash].(consumedAt := Some(at))];
    StageIs(su, s.codes, s.txns, s.stages, i);
    ConsumeCode(su, codes0, s.names, s.codes, s.stages, i, row, at);
    StagesOutlive(su, s.codes, codes, s.txns, s.txns, s.stages, i, Holding(row));
    WinnerIsFirst(su, s.codes, s.txns, s.stages, i, Holding(row));
    LogStays(s.stages, s.pairs, s.issued, i, Holding(row));
  }

  lemma ConsumeTxnKeepsInv(su: Setup, codes0: map<string, AuthCode>, s: State, i: nat, txn: Txn, at: real)
    requires Inv(su, codes0, s) && i in s.stages && s.stages[i] == TxnPassed(txn)
    requires txn.hash in s.txns && s.txns[txn.hash].consumedAt.None?
    ensures Inv(su, codes0, UseTxn(s, i, txn, at))
  {
    hide CodesOk, UsedProperly, OneWinner, Logged, StagesOk, Accepts, Minted;
    UseStays(su, codes0, s.codes, s.stages, i, TxnHolding(txn));
    var txns := s.txns[txn.hash := s.txns[txn.hash].(consumedAt := Some(at))];
    assert TxnsOk(su.w, s.names, txns);
    StagesOutlive(su, s.codes, s.codes, s.txns, txns, s.stages, i, TxnHolding(txn));
    WinnerIsFirst(su, s.codes, s.txns, s.stages, i, TxnHolding(txn));
    LogStays(s.stages, s.pairs, s.issued, i, TxnHolding(txn));
  }

  lemma RedeemedStage(su: Setup, codes: map<string, AuthCode>, txns: map<string, Txn>, i: nat, row: AuthCode)
    requires CodeStageOk(su, codes, i, Holding(row))
    ensures CodeStageOk(su, codes, i, Redeemed(row.hash)) && TxnStageOk(txns, Redeemed(row.hash))
  {
  }

  lemma PairKeepsInv(su: Setup, codes0: map<string, AuthCode>, s: State, i: nat, row: AuthCode)
    requires Inv(su, codes0, s) && i in s.stages && s.stages[i] == Holding(row)
    ensures Inv(su, codes0, At(s, i, Redeemed(row.hash)).(names := s.names + 2, pairs := s.pairs + [row.hash]))
  {
    hide CodesOk, TxnsOk, UsedProperly, OneWinner, Logged, StagesOk, CodeStageOk, TxnStageOk;
    UseStays(su, codes0, s.codes, s.stages, i, Redeemed(row.hash));
    var c := row.hash;
    StageIs(su, s.codes, s.txns, s.stages, i);
    RedeemedStage(su, s.codes, s.txns, i, row);
    StagesOutlive(su, s.codes, s.codes, s.txns, s.txns, s.stages, i, Redeemed(c));
    WinnersStay(s.stages, i, Redeemed(c));
    LogPair(s.stages, s.pairs, s.issued, i, c);
    NamesUsed(su.w, s.names, s.names + 2, s.codes, s.txns);
  }

  /** Storing a code under a new name, with nothing consumed. */
  lemma AddCodeKeeps(su: Setup, codes0: map<string, AuthCode>, n: nat, codes: map<string, AuthCode>,
                     txns: map<string, Txn>,
                     stages: map<nat, Stage>, code: AuthCode)
    requires Sound(su.w) && CodesOk(su.w, n, codes) && TxnsOk(su.w, n, txns) && UsedProperly(su, codes0, codes, stages)
    requires code.hash == su.w.hash(su.w.newName(n)) && code.consumedAt.None?
    ensures CodesOk(su.w, n + 1, codes[code.hash := code]) && TxnsOk(su.w, n + 1, txns)
    ensures UsedProperly(su, codes0, codes[code.hash := code], stages)
            && Grow(codes, codes[code.hash := code], txns, txns)
  {
    hide Accepts, Sound;
    NewIsNew(su.w, n, n);
    NamesUsed(su.w, n, n + 1, codes, txns);
    var codes' := codes[code.hash := code];
    forall c | c in codes && codes[c].consumedAt.Some? && !(c in codes0 && codes0[c].consumedAt.Some?)
      ensures exists j :: WinsProperly(su, codes', stages, j, c)
    {
      var j :| WinsProperly(su, codes, stages, j, c);
      assert WinsProperly(su, codes', stages, j, c);
    }
  }

  lemma CodedStage(su: Setup, codes: map<string, AuthCode>, txns: map<string, Txn>, i: nat, txn: Txn, pid: string)
    requires TxnStageOk(txns, Linked(txn, pid))
    ensures CodeStageOk(su, codes, i, Coded(txn.hash)) && TxnStageOk(txns, Coded(txn.hash))
  {
  }

  lemma StoreCodeKeepsInv(su: Setup, codes0: map<string, AuthCode>, s: State, i: nat, txn: Txn, pid: string,
                          code: AuthCode)
    requires Sound(su.w) && Inv(su, codes0, s) && i in s.stages && s.stages[i] == Linked(txn, pid)
    requires code.hash == su.w.hash(su.w.newName(s.names)) && code.consumedAt.None?
    ensures Inv(su, codes0, At(s, i, Coded(txn.hash)).(names := s.names + 1, codes := s.codes[code.hash := code],
                                                       issued := s.issued + [txn.hash]))
  {
    hide Sound, CodesOk, TxnsOk, UsedProperly, OneWinner, Logged, StagesOk, CodeStageOk, TxnStageOk, Grow;
    StageIs(su, s.codes, s.txns, s.stages, i);
    CodedStage(su, s.codes[code.hash := code], s.txns, i, txn, pid);
    AddCodeKeeps(su, codes0, s.names, s.codes, s.txns, s.stages, code);
    UseStays(su, codes0, s.codes[code.hash := code], s.stages, i, Coded(txn.hash));
    StagesOutlive(su, s.codes, s.codes[code.hash := code], s.txns, s.txns, s.stages, i, Coded(txn.hash));
    WinnersStay(s.stages, i, Coded(txn.hash));
    LogIssue(s.stages, s.pairs, s.issued, i, txn.hash);
  }

  lemma CodeStepKeepsInv(su: Setup, codes0: map<string, AuthCode>, s: State, i: nat, txn: Txn, pid: string, now: real)
    requires Sound(su.w) && Inv(su, codes0, s) && i in s.stages && s.stages[i] == Linked(txn, pid)
    ensures Inv(su, codes0, CodeStep(su, s, i, txn, pid, now))
  {
    hide Inv, Sound;
    if txn.clientId in su.clients && txn.redirectUri in su.clients[txn.clientId].redirectUris {
      var h := su.w.hash(su.w.newName(s.names));
      StoreCodeKeepsInv(su, codes0, s, i, txn, pid, CodeStep(su, s, i, txn, pid, now).codes[h]);
    } else {
      FailKeepsInv(su, codes0, s, i, CodeStep(su, s, i, txn, pid, now).stages[i].error);
    }
  }

  lemma KeysAreHashes(su: Setup, codes0: map<string, AuthCode>, s: State, h: string)
    requires Inv(su, codes0, s)
    ensures h in s.codes ==> s.codes[h].hash == h
    ensures h in s.txns ==> s.txns[h].hash == h
  {
  }

  lemma BeginRedeem(su: Setup, codes0: map<string, AuthCode>, s: State, i: nat, call: Call)
    requires Inv(su, codes0, s) && call == su.calls(i) && call.RedeemCall? && StageOf(s, i).Begun?
    ensures Inv(su, codes0, RedeemStep(su, s, i, call))
  {
    hide Inv, CodeProblem;
    var h := su.w.hash(call.code);
    KeysAreHashes(su, codes0, s, h);
    if h in s.codes && CodeProblem(su.w, s.codes[h], call.verifier, call.audience, call.now).None? {
      MoveKeepsInv(su, codes0, s, i, Passed(s.codes[h]));
    } else {
      FailKeepsInv(su, codes0, s, i, RedeemStep(su, s, i, call).stages[i].error);
    }
  }

  lemma RedeemStepKeepsInv(su: Setup, codes0: map<string, AuthCode>, s: State, i: nat, call: Call)
    requires Inv(su, codes0, s) && call == su.calls(i) && call.RedeemCall?
    ensures Inv(su, codes0, RedeemStep(su, s, i, call))
  {
    hide Inv, CodeProblem;
    match StageOf(s, i)
    case Begun => BeginRedeem(su, codes0, s, i, call);
    case Passed(row) =>
      if row.hash !in s.codes || s.codes[row.hash].consumedAt.Some? { FailKeepsInv(su, codes0, s, i, CodeUsed); }
      else { ConsumeCodeKeepsInv(su, codes0, s, i, row, call.now); }
    case Holding(row) =>
      PairKeepsInv(su, codes0, s, i, row);
      var s' := RedeemStep(su, s, i, call);
      RestKeepsInv(su, codes0, s'.(tokens := s.tokens, made := s.made, origin := s.origin), s');
    case _ =>
  }

  predicate Refreshing(stage: Stage) {
    stage.Scanning? || stage.Read? || stage.Stored? || stage.Renewed? || stage.Failed?
  }

  /** A refresh wins no code and no transaction, whatever it stores. */
  lemma RefreshKeepsInv(su: Setup, codes0: map<string, AuthCode>, s: State, s': State, i: nat, stage: Stage)
    requires Inv(su, codes0, s) && Refreshing(stage) && (StageOf(s, i).Begun? || Refreshing(StageOf(s, i)))
    requires s' == At(s, i, stage).(names := s'.names, tokens := s'.tokens, origin := s'.origin, made := s'.made,
                                    renewed := s'.renewed, accepted := s'.accepted)
    requires s.names <= s'.names
    ensures Inv(su, codes0, s')
  {
    hide Inv;
    MoveKeepsInv(su, codes0, s, i, stage);
    RestKeepsInv(su, codes0, At(s, i, stage), s');
  }

  lemma ScanStage(s: State, i: nat, h: string, todo: seq<string>, now: real)
    ensures var s' := ScanStep(s, i, h, todo, now);
            i in s'.stages && Refreshing(s'.stages[i]) && s' == At(s, i, s'.stages[i])
  {
    AtStages(s, i);
    hide At, CarriesRefresh;
  }

  lemma ScanKeepsInv(su: Setup, codes0: map<string, AuthCode>, s: State, i: nat, h: string, todo: seq<string>,
                     now: real)
    requires Inv(su, codes0, s) && StageOf(s, i) == Scanning(todo)
    ensures Inv(su, codes0, ScanStep(s, i, h, todo, now))
  {
    ScanStage(s, i, h, todo, now);
    hide Inv, ScanStep, At;
    var s' := ScanStep(s, i, h, todo, now);
    AtIsRefreshing(s, i, s'.stages[i]);
    RefreshKeepsInv(su, codes0, s, s', i, s'.stages[i]);
  }

  lemma AtIsRefreshing(s: State, i: nat, stage: Stage)
    ensures var s' := At(s, i, stage);
            s' == s'.(names := s'.names, tokens := s'.tokens, origin := s'.origin, made := s'.made,
                      renewed := s'.renewed, accepted := s'.accepted)
            && s'.names == s.names
  {
  }

  lemma PutKeepsInv(su: Setup, codes0: map<string, AuthCode>, s: State, i: nat, presented: string,
                    row: AccessToken, token: AccessToken)
    requires Inv(su, codes0, s) && StageOf(s, i) == Read(row)
    ensures Inv(su, codes0, PutStep(s, i, presented, row, token))
  {
    hide Inv, Put;
    RefreshKeepsInv(su, codes0, s, PutStep(s, i, presented, row, token), i, Stored(row, token));
  }

  lemma RefreshStepKeepsInv(su: Setup, codes0: map<string, AuthCode>, s: State, i: nat, call: Call)
    requires Inv(su, codes0, s) && call.RefreshCall?
    ensures Inv(su, codes0, RefreshStep(su, s, i, call))
  {
    hide Inv, NotYetReturned, NewToken, ScanStep, PutStep, Put, Remove;
    match StageOf(s, i)
    case Begun => RefreshKeepsInv(su, codes0, s, At(s, i, Scanning(s.tokens.order)), i, Scanning(s.tokens.order));
    case Scanning(todo) => ScanKeepsInv(su, codes0, s, i, su.w.hash(call.refreshToken), todo, call.now);
    case Read(row) =>
      PutKeepsInv(su, codes0, s, i, call.refreshToken, row,
                  NewToken(su.w, s.names, row.grant, call.now, call.accessTtl, call.refreshTtl));
    case Stored(row, token) => RefreshKeepsInv(su, codes0, s, RotateStep(s, i, row, token), i, Renewed(row.hash));
    case _ =>
  }

  /** The fields this invariant does not speak of may change, and names may be used up. */
  lemma RestKeepsInv(su: Setup, codes0: map<string, AuthCode>, s: State, s': State)
    requires Inv(su, codes0, s) && s.names <= s'.names
    requires s' == s.(names := s'.names, links := s'.links, resolved := s'.resolved, tokens := s'.tokens,
                      principals := s'.principals, members := s'.members,
                      origin := s'.origin, made := s'.made, renewed := s'.renewed, accepted := s'.accepted)
    ensures Inv(su, codes0, s')
  {
    hide CodesOk, TxnsOk, UsedProperly, OneWinner, Logged, StagesOk;
    NamesUsed(su.w, s.names, s'.names, s.codes, s.txns);
  }

  /** Once a call has used its transaction it may go on, or fail, without using anything more. */
  lemma OnwardKeepsInv(su: Setup, codes0: map<string, AuthCode>, s: State, i: nat, stage: Stage)
    requires Inv(su, codes0, s) && i in s.stages && !s.stages[i].Coded? && TxnWon(s.stages[i]).Some?
    requires stage.Verified? || stage.Naming? || stage.Joining? || stage.Linking? || stage.Linked? || stage.Failed?
    requires !stage.Failed? ==> TxnWon(stage) == TxnWon(s.stages[i])
    ensures Inv(su, codes0, At(s, i, stage))
  {
    assert StagesOk(su, s.codes, s.txns, s.stages);
    hide Inv, Accepts, StagesOk;
    StageIs(su, s.codes, s.txns, s.stages, i);
    MoveKeepsInv(su, codes0, s, i, stage);
  }

  lemma BeginComplete(su: Setup, codes0: map<string, AuthCode>, s: State, i: nat, call: Call)
    requires Inv(su, codes0, s) && call.CompleteCall? && StageOf(s, i).Begun?
    ensures Inv(su, codes0, CompleteStep(su, s, i, call))
  {
    hide Inv;
    var h := su.w.hash(call.txnId);
    KeysAreHashes(su, codes0, s, h);
    if h in s.txns && call.now < s.txns[h].expiresAt {
      MoveKeepsInv(su, codes0, s, i, TxnPassed(s.txns[h]));
    } else {
      FailKeepsInv(su, codes0, s, i, CompleteStep(su, s, i, call).stages[i].error);
    }
  }

  /** The way to the user's principal uses no code and no transaction. */
  ghost predicate Onward(s: State, s': State, i: nat) {
    var stage := StageOf(s', i);
    && (stage.Naming? || stage.Joining? || stage.Linking? || stage.Linked?)
    && TxnWon(stage) == TxnWon(StageOf(s, i)) && s.names <= s'.names
    && s' == At(s, i, stage).(names := s'.names, links := s'.links, resolved := s'.resolved,
                              principals := s'.principals, members := s'.members)
  }

  lemma LooksOnward(s: State, i: nat, txn: Txn, user: string, k: UserKey)
    requires StageOf(s, i) == Verified(txn, user)
    ensures Onward(s, At(s, i, Naming(txn, user)), i)
    ensures k in s.links ==> Onward(s, FindUser(s, i, txn, k), i)
  {
  }

  lemma PrincipalOnward(s: State, i: nat, txn: Txn, user: string, pid: string)
    requires StageOf(s, i) == Naming(txn, user)
    ensures Onward(s, PutPrincipal(s, i, txn, user, pid), i)
  {
  }

  lemma MembershipOnward(su: Setup, s: State, i: nat, txn: Txn, user: string, pid: string)
    requires StageOf(s, i) == Joining(txn, user, pid)
    ensures Onward(s, PutMembership(su, s, i, txn, user, pid), i)
  {
  }

  lemma LinkOnward(s: State, i: nat, txn: Txn, user: string, pid: string, k: UserKey)
    requires StageOf(s, i) == Linking(txn, user, pid)
    ensures Onward(s, PutLink(s, i, txn, k, pid), i)
  {
  }

  lemma ResolvesOnward(su: Setup, s: State, i: nat, call: Call)
    requires call.CompleteCall?
    requires StageOf(s, i).Verified? || StageOf(s, i).Naming? || StageOf(s, i).Joining? || StageOf(s, i).Linking?
    ensures Onward(s, CompleteStep(su, s, i, call), i)
  {
    hide Onward, CodeStep, Verify, At, FindUser, PutPrincipal, PutMembership, PutLink, OrgOf;
    match StageOf(s, i)
    case Verified(txn, user) => LooksOnward(s, i, txn, user, (txn.islandId, user));
    case Naming(txn, user) => PrincipalOnward(s, i, txn, user, su.w.newName(s.names));
    case Joining(txn, user, pid) => MembershipOnward(su, s, i, txn, user, pid);
    case Linking(txn, user, pid) => LinkOnward(s, i, txn, user, pid, (txn.islandId, user));
    case _ =>
  }

  lemma ResolveKeepsInv(su: Setup, codes0: map<string, AuthCode>, s: State, i: nat, call: Call)
    requires Inv(su, codes0, s) && call.CompleteCall?
    requires StageOf(s, i).Verified? || StageOf(s, i).Naming? || StageOf(s, i).Joining? || StageOf(s, i).Linking?
    ensures Inv(su, codes0, CompleteStep(su, s, i, call))
  {
    ResolvesOnward(su, s, i, call);
    hide Inv, CompleteStep;
    var s' := CompleteStep(su, s, i, call);
    OnwardKeepsInv(su, codes0, s, i, StageOf(s', i));
    RestKeepsInv(su, codes0, At(s, i, StageOf(s', i)), s');
  }

  lemma CompleteStepKeepsInv(su: Setup, codes0: map<string, AuthCode>, s: State, i: nat, call: Call)
    requires Sound(su.w) && Inv(su, codes0, s) && call == su.calls(i) && call.CompleteCall?
    ensures Inv(su, codes0, CompleteStep(su, s, i, call))
  {
    hide Inv, Sound, CodeStep, VerifyAssertion;
    match StageOf(s, i)
    case Begun => BeginComplete(su, codes0, s, i, call);
    case TxnPassed(txn) =>
      if txn.hash !in s.txns || s.txns[txn.hash].consumedAt.Some? { FailKeepsInv(su, codes0, s, i, TxnUsed); }
      else { ConsumeTxnKeepsInv(su, codes0, s, i, txn, call.now); }
    case TxnHolding(txn) => OnwardKeepsInv(su, codes0, s, i, Verify(su, txn, call));
    case Verified(txn, user) => ResolveKeepsInv(su, codes0, s, i, call);
    case Naming(txn, user) => ResolveKeepsInv(su, codes0, s, i, call);
    case Joining(txn, user, pid) => ResolveKeepsInv(su, codes0, s, i, call);
    case Linking(txn, user, pid) => ResolveKeepsInv(su, codes0, s, i, call);
    case Linked(txn, pid) => CodeStepKeepsInv(su, codes0, s, i, txn, pid, call.now);
    case _ =>
  }

  lemma {:induction false} ExecKeepsInv(su: Setup, s: State, schedule: seq<nat>)
    requires Sound(su.w) && Initial(su.w, s)
    ensures Inv(su, s.codes, Exec(su, s, schedule))
  {
    if schedule != [] {
      hide Sound, Initial, Inv, RedeemStep, RefreshStep, CompleteStep;
      var most, i := schedule[..|schedule| - 1], schedule[|schedule| - 1];
      ExecKeepsInv(su, s, most);
      match su.calls(i)
      case RedeemCall(_, _, _, _, _, _) => RedeemStepKeepsInv(su, s.codes, Exec(su, s, most), i, su.calls(i));
      case RefreshCall(_, _, _, _) => RefreshStepKeepsInv(su, s.codes, Exec(su, s, most), i, su.calls(i));
      case CompleteCall(_, _, _, _) => CompleteStepKeepsInv(su, s.codes, Exec(su, s, most), i, su.calls(i));
    }
  }

  // ----- results -----

  /** However calls interleave, a code yields at most one token pair and a transaction at most one code. */
  lemma EachUsedAtMostOnce(su: Setup, s: State, schedule: seq<nat>)
    requires Sound(su.w) && Initial(su.w, s)
    ensures NoDuplicates(Exec(su, s, schedule).pairs) && NoDuplicates(Exec(su, s, schedule).issued)
  {
    ExecKeepsInv(su, s, schedule);
  }

  /** A code used in the run was used by one of its calls, which presented it, passed every check and holds it. */
  lemma UsedOnlyByItsWinner(su: Setup, s: State, schedule: seq<nat>, c: string)
    requires Sound(su.w) && Initial(su.w, s)
    requires c in s.codes ==> s.codes[c].consumedAt.None?
    ensures var t := Exec(su, s, schedule);
            && (c in t.codes && t.codes[c].consumedAt.Some? ==> exists i :: WinsProperly(su, t.codes, t.stages, i, c))
            && (c in t.pairs ==> c in t.codes && t.codes[c].consumedAt.Some?)
  {
    hide Sound, Initial, Exec, CodesOk, TxnsOk, OneWinner, StagesOk, WinsProperly;
    ExecKeepsInv(su, s, schedule);
    var t := Exec(su, s, schedule);
    if c in t.pairs { PairsAreUsed(su, s.codes, t, c); }
  }

  lemma PairsAreUsed(su: Setup, codes0: map<string, AuthCode>, s: State, c: string)
    requires Inv(su, codes0, s) && c in s.pairs
    ensures c in s.codes && s.codes[c].consumedAt.Some?
  {
    hide CodesOk, TxnsOk, UsedProperly, OneWinner, StagesOk, Accepts;
    var i :| i in s.stages && s.stages[i] == Redeemed(c);
    StageIs(su, s.codes, s.txns, s.stages, i);
  }

  /** A redemption turned down for what it presented, before it came to use the code. */
  predicate TurnedDown(su: Setup, s: State, i: nat) {
    && su.calls(i).RedeemCall?
    && StageOf(s, i) in {Failed(UnknownCode), Failed(CodeExpired), Failed(AudienceMismatch), Failed(PkceFailed)}
  }

  lemma RedeemTurnedDown(su: Setup, s: State, i: nat, call: Call)
    requires call.RedeemCall?
    requires StageOf(RedeemStep(su, s, i, call), i) in {Failed(UnknownCode), Failed(CodeExpired),
                                                        Failed(AudienceMismatch), Failed(PkceFailed)}
    ensures StageOf(s, i).Begun? || StageOf(s, i) == StageOf(RedeemStep(su, s, i, call), i)
    ensures RedeemStep(su, s, i, call) == s.(stages := RedeemStep(su, s, i, call).stages)
  {
    WinnersStage(s, i);
    hide UseCode, StorePair, NewToken;
  }

  lemma WinnersStage(s: State, i: nat)
    ensures forall row: AuthCode, at :: row.hash in s.codes ==> StageOf(UseCode(s, i, row, at), i) == Holding(row)
    ensures forall row: AuthCode, token :: StageOf(StorePair(s, i, row, token), i) == Redeemed(row.hash)
  {
    hide Put;
  }

  lemma TurnedDownAtOnce(su: Setup, s: State, i: nat, j: nat)
    requires TurnedDown(su, Step(su, s, j), i)
    ensures TurnedDown(su, s, i) || (j == i && StageOf(s, i).Begun?)
    ensures j == i ==> Step(su, s, j) == s.(stages := Step(su, s, j).stages)
  {
    hide RedeemStep, RefreshStep, CompleteStep;
    if j == i { RedeemTurnedDown(su, s, i, su.calls(i)); } else { StepMovesOne(su, s, i, j); }
  }

  /** A redemption that fails on expiry, audience or PKCE changes nothing by any of its steps. */
  lemma {:induction false} FailuresChangeNothing(su: Setup, s: State, schedule: seq<nat>, i: nat, k: nat)
    requires Initial(su.w, s) && TurnedDown(su, Exec(su, s, schedule), i)
    requires k < |schedule| && schedule[k] == i
    ensures var u, t := Exec(su, s, schedule[..k]), Exec(su, s, schedule[..k + 1]);
            t == u.(stages := t.stages)
  {
    assert su.calls(i).RedeemCall?;
    var most, j := schedule[..|schedule| - 1], schedule[|schedule| - 1];
    ExecLast(su, s, schedule);
    hide Exec, Step, TurnedDown, Initial;
    TurnedDownAtOnce(su, Exec(su, s, most), i, j);
    if k == |most| {
      assert schedule[..k] == most && schedule[..k + 1] == schedule;
    } else if TurnedDown(su, Exec(su, s, most), i) {
      assert most[..k] == schedule[..k] && most[..k + 1] == schedule[..k + 1];
      FailuresChangeNothing(su, s, most, i, k);
    } else {
      NotBegunTwice(su, s, most, i, k);
    }
  }

  lemma RedeemLeavesBegun(su: Setup, s: State, i: nat, call: Call)
    requires call.RedeemCall?
    ensures !StageOf(RedeemStep(su, s, i, call), i).Begun?
  {
    AtStages(s, i);
    hide NewToken, Put, CodeProblem, At;
  }

  lemma StepLeavesBegun(su: Setup, s: State, i: nat, j: nat)
    requires su.calls(i).RedeemCall?
    ensures StageOf(Step(su, s, j), i).Begun? ==> StageOf(s, i).Begun? && j != i
  {
    hide RedeemStep, RefreshStep, CompleteStep;
    if j == i { RedeemLeavesBegun(su, s, i, su.calls(i)); } else { StepMovesOne(su, s, i, j); }
  }

  /** A redemption that has moved has begun. */
  lemma {:induction false} NotBegunTwice(su: Setup, s: State, schedule: seq<nat>, i: nat, k: nat)
    requires su.calls(i).RedeemCall? && k < |schedule| && schedule[k] == i
    ensures !StageOf(Exec(su, s, schedule), i).Begun?
    decreases |schedule|
  {
    hide *;
    var last := |schedule| - 1;
    ExecLast(su, s, schedule);
    StepLeavesBegun(su, Exec(su, s, schedule[..last]), i, schedule[last]);
    if k < last { NotBegunTwice(su, s, schedule[..last], i, k); }
  }
}
