/** However logins interleave, a code is issued only on an assertion that echoes its own transaction's nonce. */
module LoginEcho {
  import opened Wrappers
  import opened Dict
  import opened IdentitySpec
  import IdentityAnswers
  import opened OneUse

  /** The answer call i got vouches for this login, and its island is enabled. */
  predicate Echoed(su: Setup, i: nat, txn: Txn) {
    var call := su.calls(i);
    && call.CompleteCall? && su.w.hash(call.txnId) == txn.hash && call.now < txn.expiresAt
    && txn.islandId in su.islands && su.islands[txn.islandId].disabledAt.None?
    && IdentityAnswers.Vouches(call.answer, su.islands[txn.islandId].issuer, txn.nonce, call.kernelIssuer, call.now)
  }

  predicate OnLogin(stage: Stage) {
    || stage.TxnPassed? || stage.TxnHolding? || stage.Verified? || stage.Naming? || stage.Joining? || stage.Linking?
    || stage.Linked?
  }

  /** A transaction read is the one stored, but for when it was used. */
  predicate IsStored(txns: map<string, Txn>, txn: Txn) {
    txn.hash in txns && txns[txn.hash].(consumedAt := txn.consumedAt) == txn
  }

  ghost predicate StageEchoes(su: Setup, txns: map<string, Txn>, i: nat, stage: Stage) {
    && (OnLogin(stage) ==>
          && IsStored(txns, stage.txn) && su.calls(i).CompleteCall? && su.w.hash(su.calls(i).txnId) == stage.txn.hash
          && su.calls(i).now < stage.txn.expiresAt)
    && (stage.Verified? || stage.Naming? || stage.Joining? || stage.Linking? ==>
          Echoed(su, i, stage.txn) && su.calls(i).answer.claims.value.sub == stage.user)
    && (stage.Linked? ==> Echoed(su, i, stage.txn))
    && (stage.Coded? ==> stage.x in txns && txns[stage.x].hash == stage.x && Echoed(su, i, txns[stage.x]))
  }

  ghost predicate EchoInv(su: Setup, s: State) {
    && (forall x :: x in s.txns ==> s.txns[x].hash == x)
    && (forall i :: i in s.stages ==> StageEchoes(su, s.txns, i, s.stages[i]))
  }

  /** Transactions change only by being used. */
  ghost predicate OnlyUsed(txns: map<string, Txn>, txns': map<string, Txn>) {
    && txns.Keys == txns'.Keys
    && forall x :: x in txns ==> txns'[x] == txns[x].(consumedAt := txns'[x].consumedAt)
  }

  lemma UseKeepsEcho(su: Setup, txns: map<string, Txn>, txns': map<string, Txn>, i: nat, stage: Stage)
    requires OnlyUsed(txns, txns') && StageEchoes(su, txns, i, stage)
    ensures StageEchoes(su, txns', i, stage)
  {
  }

  lemma EchoMoves(su: Setup, s: State, s': State, i: nat, stage: Stage)
    requires EchoInv(su, s) && OnlyUsed(s.txns, s'.txns)
    requires s'.stages == s.stages || (s'.stages == s.stages[i := stage] && StageEchoes(su, s'.txns, i, stage))
    ensures EchoInv(su, s')
  {
    hide StageEchoes;
    forall j | j in s.stages ensures StageEchoes(su, s'.txns, j, s.stages[j]) {
      UseKeepsEcho(su, s.txns, s'.txns, j, s.stages[j]);
    }
  }

  /** A step of a redemption or a refresh has nothing to do with logins. */
  ghost predicate NoLogin(s: State, s': State, i: nat) {
    && s'.txns == s.txns
    && (s'.stages == s.stages
        || (s'.stages == s.stages[i := StageOf(s', i)] && !OnLogin(StageOf(s', i)) && !StageOf(s', i).Coded?))
  }

  lemma AtIsNoLogin(s: State, i: nat, stage: Stage)
    requires !OnLogin(stage) && !stage.Coded?
    ensures NoLogin(s, At(s, i, stage), i)
  {
  }

  lemma PutsAreNoLogin(s: State, i: nat, presented: string, row: AccessToken, token: AccessToken)
    ensures NoLogin(s, PutStep(s, i, presented, row, token), i)
    ensures NoLogin(s, RotateStep(s, i, row, token), i)
  {
    hide Put, Remove, OriginAfter;
  }

  lemma CodesAreNoLogin(s: State, i: nat, row: AuthCode, token: AccessToken, at: real)
    ensures row.hash in s.codes ==> NoLogin(s, UseCode(s, i, row, at), i)
    ensures NoLogin(s, StorePair(s, i, row, token), i)
  {
    hide Put;
  }

  lemma RedeemIsNoLogin(su: Setup, s: State, i: nat, call: Call)
    requires call.RedeemCall?
    ensures RedeemStep(su, s, i, call) == s || NoLogin(s, RedeemStep(su, s, i, call), i)
  {
    hide CodeProblem, NewToken, At, UseCode, StorePair, NoLogin;
    match StageOf(s, i)
    case Begun =>
      var h := su.w.hash(call.code);
      AtIsNoLogin(s, i, Failed(UnknownCode));
      if h in s.codes {
        var problem := CodeProblem(su.w, s.codes[h], call.verifier, call.audience, call.now);
        AtIsNoLogin(s, i, if problem.Some? then Failed(problem.value) else Passed(s.codes[h]));
      }
    case Passed(row) =>
      AtIsNoLogin(s, i, Failed(CodeUsed));
      var token := NewToken(su.w, s.names, row.grant, call.now, call.accessTtl, call.refreshTtl);
      CodesAreNoLogin(s, i, row, token, call.now);
    case Holding(row) =>
      var token := NewToken(su.w, s.names, row.grant, call.now, call.accessTtl, call.refreshTtl);
      CodesAreNoLogin(s, i, row, token, call.now);
    case _ =>
  }

  lemma ScanIsNoLogin(s: State, i: nat, h: string, todo: seq<string>, now: real)
    ensures NoLogin(s, ScanStep(s, i, h, todo, now), i)
  {
    ScanStage(s, i, h, todo, now);
    hide ScanStep, At, NoLogin;
    AtIsNoLogin(s, i, ScanStep(s, i, h, todo, now).stages[i]);
  }

  lemma RefreshIsNoLogin(su: Setup, s: State, i: nat, call: Call)
    requires call.RefreshCall?
    ensures RefreshStep(su, s, i, call) == s || NoLogin(s, RefreshStep(su, s, i, call), i)
  {
    hide NotYetReturned, NewToken, At, ScanStep, PutStep, RotateStep, NoLogin;
    match StageOf(s, i)
    case Begun => AtIsNoLogin(s, i, Scanning(s.tokens.order));
    case Scanning(todo) => ScanIsNoLogin(s, i, su.w.hash(call.refreshToken), todo, call.now);
    case Read(row) =>
      PutsAreNoLogin(s, i, call.refreshToken, row,
                     NewToken(su.w, s.names, row.grant, call.now, call.accessTtl, call.refreshTtl));
    case Stored(row, token) => PutsAreNoLogin(s, i, call.refreshToken, row, token);
    case _ =>
  }

  lemma NoLoginKeepsEcho(su: Setup, s: State, s': State, i: nat)
    requires EchoInv(su, s) && (s' == s || NoLogin(s, s', i))
    ensures EchoInv(su, s')
  {
    hide EchoInv;
    EchoMoves(su, s, s', i, StageOf(s', i));
  }

  lemma AtKeepsEcho(su: Setup, s: State, i: nat, stage: Stage)
    requires EchoInv(su, s) && StageEchoes(su, s.txns, i, stage)
    ensures EchoInv(su, At(s, i, stage))
  {
    hide EchoInv, StageEchoes;
    EchoMoves(su, s, At(s, i, stage), i, stage);
  }

  lemma BeginEchoes(su: Setup, s: State, i: nat, call: Call)
    requires EchoInv(su, s) && call == su.calls(i) && call.CompleteCall? && StageOf(s, i).Begun?
    ensures EchoInv(su, CompleteStep(su, s, i, call))
  {
    var h := su.w.hash(call.txnId);
    AtKeepsEcho(su, s, i, if h !in s.txns then Failed(UnknownTxn)
                          else if call.now >= s.txns[h].expiresAt then Failed(TxnExpired) else TxnPassed(s.txns[h]));
    hide EchoInv;
  }

  lemma UseEchoes(su: Setup, s: State, i: nat, txn: Txn, at: real)
    requires EchoInv(su, s) && StageOf(s, i) == TxnPassed(txn) && txn.hash in s.txns
    ensures EchoInv(su, UseTxn(s, i, txn, at))
  {
    var s' := UseTxn(s, i, txn, at);
    assert StageEchoes(su, s.txns, i, s.stages[i]);
    assert OnlyUsed(s.txns, s'.txns);
    UseKeepsEcho(su, s.txns, s'.txns, i, s.stages[i]);
    EchoMoves(su, s, s', i, TxnHolding(txn));
  }

  lemma VerifyEchoes(su: Setup, s: State, i: nat, txn: Txn, call: Call)
    requires EchoInv(su, s) && call == su.calls(i) && call.CompleteCall? && StageOf(s, i) == TxnHolding(txn)
    ensures EchoInv(su, At(s, i, Verify(su, txn, call)))
  {
    assert StageEchoes(su, s.txns, i, s.stages[i]);
    AtKeepsEcho(su, s, i, Verify(su, txn, call));
  }

  /** Call i has been vouched for and goes on. */
  lemma OnwardEchoes(su: Setup, s: State, s': State, i: nat)
    requires EchoInv(su, s) && Onward(s, s', i) && i in s.stages
    requires SameUser(s.stages[i], StageOf(s', i))
    ensures EchoInv(su, s')
  {
    assert StageEchoes(su, s.txns, i, s.stages[i]);
    EchoMoves(su, s, s', i, StageOf(s', i));
  }

  lemma ResolveEchoes(su: Setup, s: State, i: nat, call: Call)
    requires EchoInv(su, s) && call.CompleteCall?
    requires StageOf(s, i).Verified? || StageOf(s, i).Naming? || StageOf(s, i).Joining? || StageOf(s, i).Linking?
    ensures EchoInv(su, CompleteStep(su, s, i, call))
  {
    ResolvesOnward(su, s, i, call);
    SameLogin(su, s, i, call);
    hide EchoInv, CompleteStep, Onward, SameUser;
    OnwardEchoes(su, s, CompleteStep(su, s, i, call), i);
  }

  /** Call i is still on the way to the principal of the same user. */
  ghost predicate SameUser(stage: Stage, next: Stage) {
    && OnLogin(stage) && OnLogin(next) && next.txn == stage.txn
    && !stage.TxnPassed? && !stage.TxnHolding? && !stage.Linked?
    && (next.Naming? || next.Joining? || next.Linking? || next.Linked?)
    && (!next.Linked? ==> next.user == stage.user)
  }

  lemma LookLands(s: State, i: nat, txn: Txn, user: string, k: UserKey)
    ensures SameUser(Verified(txn, user), StageOf(At(s, i, Naming(txn, user)), i))
    ensures k in s.links ==> SameUser(Verified(txn, user), StageOf(FindUser(s, i, txn, k), i))
  {
  }

  lemma PutsLand(su: Setup, s: State, i: nat, txn: Txn, user: string, pid: string, k: UserKey)
    ensures SameUser(Naming(txn, user), StageOf(PutPrincipal(s, i, txn, user, pid), i))
    ensures SameUser(Joining(txn, user, pid), StageOf(PutMembership(su, s, i, txn, user, pid), i))
    ensures SameUser(Linking(txn, user, pid), StageOf(PutLink(s, i, txn, k, pid), i))
  {
    hide OrgOf;
  }

  lemma SameLogin(su: Setup, s: State, i: nat, call: Call)
    requires call.CompleteCall?
    requires StageOf(s, i).Verified? || StageOf(s, i).Naming? || StageOf(s, i).Joining? || StageOf(s, i).Linking?
    ensures SameUser(StageOf(s, i), StageOf(CompleteStep(su, s, i, call), i))
  {
    var stage := StageOf(s, i);
    hide SameUser, StageOf, CodeStep, Verify, At, FindUser, PutPrincipal, PutMembership, PutLink;
    match stage
    case Verified(txn, user) => LookLands(s, i, txn, user, (txn.islandId, user));
    case Naming(txn, user) => PutsLand(su, s, i, txn, user, su.w.newName(s.names), (txn.islandId, user));
    case Joining(txn, user, pid) => PutsLand(su, s, i, txn, user, pid, (txn.islandId, user));
    case Linking(txn, user, pid) => PutsLand(su, s, i, txn, user, pid, (txn.islandId, user));
    case _ =>
  }

  lemma CodeEchoes(su: Setup, s: State, i: nat, txn: Txn, pid: string, now: real)
    requires EchoInv(su, s) && StageOf(s, i) == Linked(txn, pid)
    ensures EchoInv(su, CodeStep(su, s, i, txn, pid, now))
  {
    assert StageEchoes(su, s.txns, i, s.stages[i]);
    CodeLeaves(su, s, i, txn, pid, now);
    hide CodeStep;
    var s' := CodeStep(su, s, i, txn, pid, now);
    EchoMoves(su, s, s', i, StageOf(s', i));
  }

  lemma StoreLeaves(s: State, i: nat, txn: Txn, code: AuthCode, error: Error)
    ensures StoreCode(s, i, txn, code).txns == s.txns && At(s, i, Failed(error)).txns == s.txns
    ensures StoreCode(s, i, txn, code).stages == s.stages[i := Coded(txn.hash)]
    ensures At(s, i, Failed(error)).stages == s.stages[i := Failed(error)]
  {
  }

  lemma CodeLeaves(su: Setup, s: State, i: nat, txn: Txn, pid: string, now: real)
    ensures var s' := CodeStep(su, s, i, txn, pid, now);
            && s'.txns == s.txns && s'.stages == s.stages[i := StageOf(s', i)]
            && (StageOf(s', i) == Coded(txn.hash) || StageOf(s', i).Failed?)
  {
    hide LoginCode, At, StoreCode;
    var code := LoginCode(su, s.names, txn, pid, now);
    StoreLeaves(s, i, txn, code, UnknownClient);
    StoreLeaves(s, i, txn, code, UnregisteredRedirect);
  }

  lemma StepEchoes(su: Setup, s: State, i: nat)
    requires EchoInv(su, s)
    ensures EchoInv(su, Step(su, s, i))
  {
    hide EchoInv, RedeemStep, RefreshStep, CodeStep, Verify, NoLogin, At;
    hide FindUser, PutPrincipal, PutMembership, PutLink;
    var call := su.calls(i);
    match call
    case RedeemCall(_, _, _, _, _, _) =>
      RedeemIsNoLogin(su, s, i, call);
      NoLoginKeepsEcho(su, s, RedeemStep(su, s, i, call), i);
    case RefreshCall(_, _, _, _) =>
      RefreshIsNoLogin(su, s, i, call);
      NoLoginKeepsEcho(su, s, RefreshStep(su, s, i, call), i);
    case CompleteCall(_, _, _, _) => CompleteEchoes(su, s, i, call);
  }

  lemma CompleteEchoes(su: Setup, s: State, i: nat, call: Call)
    requires EchoInv(su, s) && call == su.calls(i) && call.CompleteCall?
    ensures EchoInv(su, CompleteStep(su, s, i, call))
  {
    var stage := StageOf(s, i);
    if stage.Begun? {
      BeginEchoes(su, s, i, call);
    } else if stage.Verified? || stage.Naming? || stage.Joining? || stage.Linking? {
      ResolveEchoes(su, s, i, call);
    } else {
      hide EchoInv, CodeStep, Verify, At, UseTxn;
      match stage
      case TxnPassed(txn) =>
        if txn.hash !in s.txns || s.txns[txn.hash].consumedAt.Some? { FailEchoes(su, s, i, TxnUsed); }
        else { UseEchoes(su, s, i, txn, call.now); }
      case TxnHolding(txn) => VerifyEchoes(su, s, i, txn, call);
      case Linked(txn, pid) => CodeEchoes(su, s, i, txn, pid, call.now);
      case _ =>
    }
  }

  lemma FailEchoes(su: Setup, s: State, i: nat, error: Error)
    requires EchoInv(su, s)
    ensures EchoInv(su, At(s, i, Failed(error)))
  {
    AtKeepsEcho(su, s, i, Failed(error));
  }

  lemma {:induction false} ExecEchoes(su: Setup, s: State, schedule: seq<nat>)
    requires Initial(su.w, s)
    ensures EchoInv(su, Exec(su, s, schedule))
  {
    if schedule != [] {
      hide Exec, Step, Initial, EchoInv;
      ExecLast(su, s, schedule);
      ExecEchoes(su, s, schedule[..|schedule| - 1]);
      StepEchoes(su, Exec(su, s, schedule[..|schedule| - 1]), schedule[|schedule| - 1]);
    }
  }

  /**
   In every interleaving, a call that issued the code of a login presented that login's transaction in
   time, and was answered with an assertion of the login's own island, for this kernel, in time, that
   echoed the nonce of the login.
   */
  lemma EveryCodeWasVouchedFor(su: Setup, s: State, schedule: seq<nat>, i: nat)
    requires Initial(su.w, s)
    requires var t := Exec(su, s, schedule); i in t.stages && t.stages[i].Coded?
    ensures var t := Exec(su, s, schedule); t.stages[i].x in t.txns && Echoed(su, i, t.txns[t.stages[i].x])
  {
    ExecEchoes(su, s, schedule);
    hide Exec, Initial, Echoed;
    assert StageEchoes(su, Exec(su, s, schedule).txns, i, Exec(su, s, schedule).stages[i]);
  }
}
