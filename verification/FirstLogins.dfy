/**
 What concurrent logins of one user do to its link: a login looks for the user's principal and,
 finding none, stores a new principal, its membership and its link, in separate store calls.
 */
module FirstLogins {
  import opened Wrappers
  import opened Dict
  import opened IdentitySpec
  import opened Names
  import opened OneUse

  /** The link a login resolved its user to still stands. */
  ghost predicate Resolves(links: map<UserKey, string>, a: UserPrincipal) {
    a.key in links && links[a.key] == a.pid
  }

  ghost predicate AllResolve(links: map<UserKey, string>, resolved: map<nat, UserPrincipal>) {
    forall i :: i in resolved ==> Resolves(links, resolved[i])
  }

  /** The next step of this call stores a link over one that another login stored after this one looked. */
  ghost predicate Overwrites(su: Setup, s: State, i: nat) {
    && su.calls(i).CompleteCall? && StageOf(s, i).Linking?
    && (StageOf(s, i).txn.islandId, StageOf(s, i).user) in s.links
  }

  ghost predicate Overwritten(su: Setup, s: State, schedule: seq<nat>) {
    exists m :: 0 <= m < |schedule| && Overwrites(su, Exec(su, s, schedule[..m]), schedule[m])
  }

  // ----- the invariant -----

  ghost predicate LinkNames(w: World, n: nat, links: map<UserKey, string>, resolved: map<nat, UserPrincipal>) {
    && (forall k :: k in links ==> Named(w, n, links[k]))
    && (forall i :: i in resolved ==> Named(w, n, resolved[i].pid))
  }

  /** Every link was there at the start or was stored by some login. */
  ghost predicate LinkOrigins(links0: map<UserKey, string>, links: map<UserKey, string>,
                              resolved: map<nat, UserPrincipal>) {
    && (forall k :: k in links0 ==> k in links)
    && (forall k :: k in links && k !in links0 ==>
          exists i :: i in resolved && resolved[i] == UserPrincipal(k, links[k]))
  }

  /** Between the lookup that found no link and the link stored. */
  predicate Placing(stage: Stage) {
    stage.Naming? || stage.Joining? || stage.Linking?
  }

  predicate Unresolved(stage: Stage) {
    stage.Begun? || stage.TxnPassed? || stage.TxnHolding? || stage.Verified? || Placing(stage)
  }

  /** The name of a principal stored and not yet linked. */
  function Pending(stage: Stage): Option<string> {
    if stage.Joining? || stage.Linking? then Some(stage.pid) else None
  }

  /** It is nobody's yet. */
  ghost predicate Unlinked(w: World, n: nat, links: map<UserKey, string>, resolved: map<nat, UserPrincipal>,
                           pid: string) {
    && Named(w, n, pid) && (forall k :: k in links ==> links[k] != pid)
    && (forall i :: i in resolved ==> resolved[i].pid != pid)
  }

  ghost predicate PendingOk(w: World, n: nat, links: map<UserKey, string>, resolved: map<nat, UserPrincipal>,
                            stages: map<nat, Stage>) {
    && (forall i :: i in stages && Pending(stages[i]).Some? ==>
         Unlinked(w, n, links, resolved, Pending(stages[i]).value))
    && (forall i, j | i in stages && j in stages && i != j ::
          Pending(stages[i]).Some? ==> Pending(stages[i]) != Pending(stages[j]))
  }

  /** A login under way has resolved nothing, and one that found no link looked for one the start does not have. */
  ghost predicate LinkStages(links0: map<UserKey, string>, stages: map<nat, Stage>, resolved: map<nat, UserPrincipal>) {
    && (forall i :: i in resolved ==> i in stages && !Unresolved(stages[i]))
    && (forall i :: i in stages && Placing(stages[i]) ==> (stages[i].txn.islandId, stages[i].user) !in links0)
  }

  ghost predicate LinkInv(w: World, links0: map<UserKey, string>, s: State, overwritten: bool) {
    && LinkNames(w, s.names, s.links, s.resolved) && LinkOrigins(links0, s.links, s.resolved)
    && LinkStages(links0, s.stages, s.resolved) && PendingOk(w, s.names, s.links, s.resolved, s.stages)
    && (AllResolve(s.links, s.resolved) <==> !overwritten)
  }

  // ----- each step keeps it -----

  lemma NamesGrow(w: World, n: nat, m: nat, links: map<UserKey, string>, resolved: map<nat, UserPrincipal>)
    requires LinkNames(w, n, links, resolved) && n <= m
    ensures LinkNames(w, m, links, resolved)
  {
    forall p: string ensures Named(w, n, p) ==> Named(w, m, p) { MintedGrows(w, n, m, p); }
  }

  lemma PendingGrow(w: World, n: nat, m: nat, links: map<UserKey, string>, resolved: map<nat, UserPrincipal>,
                    stages: map<nat, Stage>)
    requires PendingOk(w, n, links, resolved, stages) && n <= m
    ensures PendingOk(w, m, links, resolved, stages)
  {
    forall p: string ensures Named(w, n, p) ==> Named(w, m, p) { MintedGrows(w, n, m, p); }
    hide Named;
  }

  lemma PendingMoves(w: World, n: nat, links: map<UserKey, string>, resolved: map<nat, UserPrincipal>,
                     stages: map<nat, Stage>,
                     i: nat, stage: Stage)
    requires PendingOk(w, n, links, resolved, stages)
    requires Pending(stage).Some? ==> i in stages && Pending(stages[i]) == Pending(stage)
    ensures PendingOk(w, n, links, resolved, stages[i := stage])
  {
    hide Unlinked, Pending;
  }

  /** A step that leaves links alone. */
  lemma Elsewhere(w: World, links0: map<UserKey, string>, s: State, s': State, i: nat, stage: Stage, overwritten: bool)
    requires LinkInv(w, links0, s, overwritten) && s.names <= s'.names
    requires s'.links == s.links && s'.resolved == s.resolved && s'.stages == s.stages[i := stage]
    requires Unresolved(stage) ==> Unresolved(StageOf(s, i))
    requires Placing(stage) ==> (stage.txn.islandId, stage.user) !in links0
    requires Pending(stage).Some? ==> Pending(StageOf(s, i)) == Pending(stage)
    ensures LinkInv(w, links0, s', overwritten)
  {
    hide LinkNames, AllResolve, PendingOk, LinkOrigins, Placing, Unresolved;
    NamesGrow(w, s.names, s'.names, s.links, s.resolved);
    PendingMoves(w, s.names, s.links, s.resolved, s.stages, i, stage);
    PendingGrow(w, s.names, s'.names, s.links, s.resolved, s'.stages);
    StageMoves(links0, s.stages, s.resolved, i, stage);
  }

  lemma StageMoves(links0: map<UserKey, string>, stages: map<nat, Stage>, resolved: map<nat, UserPrincipal>, i: nat,
                   stage: Stage)
    requires LinkStages(links0, stages, resolved)
    requires Placing(stage) ==> (stage.txn.islandId, stage.user) !in links0
    requires Unresolved(stage) && i in stages ==> Unresolved(stages[i])
    ensures LinkStages(links0, stages[i := stage], resolved)
  {
  }

  lemma StagesMove(links0: map<UserKey, string>, stages: map<nat, Stage>, resolved: map<nat, UserPrincipal>,
                   i: nat, stage: Stage, a: UserPrincipal)
    requires LinkStages(links0, stages, resolved) && !Unresolved(stage)
    ensures LinkStages(links0, stages[i := stage], resolved[i := a])
  {
  }

  lemma FoundResolves(w: World, n: nat, links: map<UserKey, string>, resolved: map<nat, UserPrincipal>, i: nat,
                      k: UserKey)
    requires LinkNames(w, n, links, resolved) && k in links && i !in resolved
    ensures LinkNames(w, n, links, resolved[i := UserPrincipal(k, links[k])])
    ensures AllResolve(links, resolved[i := UserPrincipal(k, links[k])]) <==> AllResolve(links, resolved)
  {
    hide Named;
    var resolved' := resolved[i := UserPrincipal(k, links[k])];
    assert forall j :: j in resolved ==> j in resolved' && resolved'[j] == resolved[j];
  }

  lemma NotYetResolved(links0: map<UserKey, string>, stages: map<nat, Stage>, resolved: map<nat, UserPrincipal>, i: nat)
    requires LinkStages(links0, stages, resolved) && i in stages && Unresolved(stages[i])
    ensures i !in resolved
    ensures Placing(stages[i]) ==> (stages[i].txn.islandId, stages[i].user) !in links0
  {
  }

  /** Resolving a login to a linked principal leaves those not yet linked nobody's. */
  lemma FoundPends(w: World, n: nat, links: map<UserKey, string>, resolved: map<nat, UserPrincipal>,
                   stages: map<nat, Stage>,
                   i: nat, k: UserKey, stage: Stage)
    requires PendingOk(w, n, links, resolved, stages) && k in links && Pending(stage).None?
    ensures PendingOk(w, n, links, resolved[i := UserPrincipal(k, links[k])], stages[i := stage])
  {
    hide Named;
    PendingMoves(w, n, links, resolved, stages, i, stage);
    var resolved', stages' := resolved[i := UserPrincipal(k, links[k])], stages[i := stage];
    forall j | j in stages' && Pending(stages'[j]).Some?
      ensures Unlinked(w, n, links, resolved', Pending(stages'[j]).value)
    {
      assert Unlinked(w, n, links, resolved, Pending(stages'[j]).value);
    }
  }

  /** A login that finds its user's link. */
  lemma Found(w: World, links0: map<UserKey, string>, s: State, i: nat, stage: Stage, k: UserKey, overwritten: bool)
    requires LinkInv(w, links0, s, overwritten) && k in s.links && i in s.stages && Unresolved(s.stages[i])
    requires !Unresolved(stage)
    ensures LinkInv(w, links0, At(s, i, stage).(resolved := s.resolved[i := UserPrincipal(k, s.links[k])]), overwritten)
  {
    FoundPends(w, s.names, s.links, s.resolved, s.stages, i, k, stage);
    hide LinkNames, LinkOrigins, LinkStages, AllResolve, PendingOk, Pending;
    NotYetResolved(links0, s.stages, s.resolved, i);
    OriginsGrow(links0, s.links, s.resolved, i, k, s.links[k]);
    assert s.links[k := s.links[k]] == s.links;
    StagesMove(links0, s.stages, s.resolved, i, stage, UserPrincipal(k, s.links[k]));
    FoundResolves(w, s.names, s.links, s.resolved, i, k);
  }

  lemma OriginsGrow(links0: map<UserKey, string>, links: map<UserKey, string>, resolved: map<nat, UserPrincipal>,
                    i: nat, k: UserKey, pid: string)
    requires LinkOrigins(links0, links, resolved) && i !in resolved
    ensures LinkOrigins(links0, links[k := pid], resolved[i := UserPrincipal(k, pid)])
  {
    var links', resolved' := links[k := pid], resolved[i := UserPrincipal(k, pid)];
    forall j | j in links' && j !in links0
      ensures exists m :: m in resolved' && resolved'[m] == UserPrincipal(j, links'[j])
    {
      if j == k {
        assert resolved'[i] == UserPrincipal(j, links'[j]);
      } else {
        var m :| m in resolved && resolved[m] == UserPrincipal(j, links[j]);
        assert resolved'[m] == UserPrincipal(j, links'[j]);
      }
    }
  }

  /** A principal not yet linked resolves nobody else, and overwriting a link strands whoever stored it. */
  lemma StoreResolves(w: World, n: nat, links0: map<UserKey, string>, links: map<UserKey, string>,
                      resolved: map<nat, UserPrincipal>, i: nat, k: UserKey, pid: string, overwritten: bool)
    requires LinkOrigins(links0, links, resolved) && i !in resolved && k !in links0
    requires Unlinked(w, n, links, resolved, pid) && (AllResolve(links, resolved) <==> !overwritten)
    ensures AllResolve(links[k := pid], resolved[i := UserPrincipal(k, pid)]) <==> !overwritten && k !in links
  {
    var links', resolved' := links[k := pid], resolved[i := UserPrincipal(k, pid)];
    hide Named;
    forall j | j in resolved ensures resolved[j].pid != pid && resolved'[j] == resolved[j] {}
    if overwritten {
      var j :| j in resolved && !Resolves(links, resolved[j]);
      assert j in resolved' && !Resolves(links', resolved'[j]);
    } else if k in links {
      var j :| j in resolved && resolved[j] == UserPrincipal(k, links[k]);
      assert j in resolved' && !Resolves(links', resolved'[j]);
    } else {
      forall j | j in resolved' ensures Resolves(links', resolved'[j]) {
        if j != i { assert Resolves(links, resolved[j]); }
      }
    }
  }

  lemma LinkedNames(w: World, n: nat, links: map<UserKey, string>, resolved: map<nat, UserPrincipal>, i: nat,
                    k: UserKey, pid: string)
    requires LinkNames(w, n, links, resolved) && Named(w, n, pid)
    ensures LinkNames(w, n, links[k := pid], resolved[i := UserPrincipal(k, pid)])
  {
    hide Named;
  }

  /** Linking one principal leaves the others not yet linked nobody's. */
  lemma LinkPends(w: World, n: nat, links: map<UserKey, string>, resolved: map<nat, UserPrincipal>,
                  stages: map<nat, Stage>,
                  i: nat, k: UserKey, stage: Stage)
    requires PendingOk(w, n, links, resolved, stages) && Pending(stage).None?
    requires i in stages && Pending(stages[i]).Some?
    ensures var pid := Pending(stages[i]).value;
            PendingOk(w, n, links[k := pid], resolved[i := UserPrincipal(k, pid)], stages[i := stage])
  {
    hide Named, Pending;
    var pid := Pending(stages[i]).value;
    var links', resolved', stages' := links[k := pid], resolved[i := UserPrincipal(k, pid)], stages[i := stage];
    forall j | j in stages' && Pending(stages'[j]).Some?
      ensures Unlinked(w, n, links', resolved', Pending(stages'[j]).value)
    {
      assert j != i && Unlinked(w, n, links, resolved, Pending(stages[j]).value);
      assert Pending(stages[j]) != Pending(stages[i]);
    }
  }

  lemma StoresLink(w: World, links0: map<UserKey, string>, s: State, i: nat, stage: Stage, k: UserKey,
                   overwritten: bool)
    requires LinkInv(w, links0, s, overwritten)
    requires i in s.stages && s.stages[i].Linking? && k == (s.stages[i].txn.islandId, s.stages[i].user)
    requires !Unresolved(stage)
    ensures var pid := s.stages[i].pid;
            LinkInv(w, links0, At(s, i, stage).(links := s.links[k := pid],
                                                resolved := s.resolved[i := UserPrincipal(k, pid)]),
                    overwritten || k in s.links)
  {
    var pid := s.stages[i].pid;
    assert Unlinked(w, s.names, s.links, s.resolved, pid);
    LinkPends(w, s.names, s.links, s.resolved, s.stages, i, k, stage);
    hide LinkNames, LinkOrigins, LinkStages, AllResolve, PendingOk;
    NotYetResolved(links0, s.stages, s.resolved, i);
    OriginsGrow(links0, s.links, s.resolved, i, k, pid);
    StoreResolves(w, s.names, links0, s.links, s.resolved, i, k, pid, overwritten);
    StagesMove(links0, s.stages, s.resolved, i, stage, UserPrincipal(k, pid));
    LinkedNames(w, s.names, s.links, s.resolved, i, k, pid);
  }

  /** A new principal is under a new name, which is nobody's yet. */
  lemma NewPends(w: World, n: nat, links: map<UserKey, string>, resolved: map<nat, UserPrincipal>,
                 stages: map<nat, Stage>,
                 i: nat, stage: Stage)
    requires Sound(w) && PendingOk(w, n, links, resolved, stages) && LinkNames(w, n, links, resolved)
    requires Pending(stage) == Some(w.newName(n))
    ensures PendingOk(w, n + 1, links, resolved, stages[i := stage])
  {
    NewIsNew(w, n, n);
    PendingGrow(w, n, n + 1, links, resolved, stages);
    hide Sound, Named;
    var pid, stages' := w.newName(n), stages[i := stage];
    assert Unlinked(w, n + 1, links, resolved, pid);
    forall j | j in stages && Pending(stages[j]).Some? ensures Pending(stages[j]).value != pid {
      assert Unlinked(w, n, links, resolved, Pending(stages[j]).value);
    }
  }

  /** What the three puts of a new user change. */
  lemma PutsLeave(su: Setup, s: State, i: nat, txn: Txn, user: string, pid: string, k: UserKey)
    ensures var t := PutPrincipal(s, i, txn, user, pid);
            && t.links == s.links && t.resolved == s.resolved && t.names == s.names + 1
            && t.stages == s.stages[i := Joining(txn, user, pid)]
    ensures var t := PutMembership(su, s, i, txn, user, pid);
            && t.links == s.links && t.resolved == s.resolved && t.names == s.names
            && t.stages == s.stages[i := Linking(txn, user, pid)]
    ensures var t := PutLink(s, i, txn, k, pid);
            && t.links == s.links[k := pid] && t.resolved == s.resolved[i := UserPrincipal(k, pid)]
            && t.names == s.names
            && t.stages == s.stages[i := Linked(txn, pid)]
  {
    hide OrgOf;
  }

  lemma StoresPrincipal(su: Setup, links0: map<UserKey, string>, s: State, i: nat, txn: Txn, user: string,
                        overwritten: bool)
    requires Sound(su.w) && LinkInv(su.w, links0, s, overwritten) && StageOf(s, i) == Naming(txn, user)
    ensures LinkInv(su.w, links0, PutPrincipal(s, i, txn, user, su.w.newName(s.names)), overwritten)
  {
    hide Sound, LinkNames, LinkOrigins, LinkStages, AllResolve, PendingOk, PutPrincipal, PutMembership, PutLink;
    var w, pid := su.w, su.w.newName(s.names);
    PutsLeave(su, s, i, txn, user, pid, ("", ""));
    NewPends(w, s.names, s.links, s.resolved, s.stages, i, Joining(txn, user, pid));
    NotYetResolved(links0, s.stages, s.resolved, i);
    NamesGrow(w, s.names, s.names + 1, s.links, s.resolved);
    StageMoves(links0, s.stages, s.resolved, i, Joining(txn, user, pid));
  }

  lemma StoresMembership(su: Setup, links0: map<UserKey, string>, s: State, i: nat, txn: Txn, user: string,
                         pid: string, overwritten: bool)
    requires LinkInv(su.w, links0, s, overwritten) && StageOf(s, i) == Joining(txn, user, pid)
    ensures LinkInv(su.w, links0, PutMembership(su, s, i, txn, user, pid), overwritten)
  {
    NotYetResolved(links0, s.stages, s.resolved, i);
    PutsLeave(su, s, i, txn, user, pid, ("", ""));
    hide LinkInv, PutPrincipal, PutMembership, PutLink;
    Elsewhere(su.w, links0, s, PutMembership(su, s, i, txn, user, pid), i, Linking(txn, user, pid), overwritten);
  }

  /** A step of call i that leaves links and principals alone, as far as this invariant can see. */
  ghost predicate Aside(s: State, s': State, i: nat) {
    && s'.links == s.links && s'.resolved == s.resolved && s.names <= s'.names
    && s'.principals == s.principals && s'.members == s.members
    && (StageOf(s', i).Verified? ==> StageOf(s', i) == StageOf(s, i))
    && (s'.stages == s.stages || s'.stages == s.stages[i := StageOf(s', i)])
    && !Placing(StageOf(s', i)) && (Unresolved(StageOf(s', i)) ==> Unresolved(StageOf(s, i)))
  }

  lemma IsAside(s: State, s': State, i: nat, stage: Stage)
    requires s'.links == s.links && s'.resolved == s.resolved && s.names <= s'.names
    requires s'.principals == s.principals && s'.members == s.members
    requires s'.stages == s.stages[i := stage] && !stage.Verified? && !Placing(stage)
             && (Unresolved(stage) ==> Unresolved(StageOf(s, i)))
    ensures Aside(s, s', i)
  {
  }

  lemma AsideKeepsLinkInv(w: World, links0: map<UserKey, string>, s: State, s': State, i: nat, overwritten: bool)
    requires LinkInv(w, links0, s, overwritten) && Aside(s, s', i)
    ensures LinkInv(w, links0, s', overwritten)
  {
    if s'.stages == s.stages[i := StageOf(s', i)] {
      hide LinkInv;
      Elsewhere(w, links0, s, s', i, StageOf(s', i), overwritten);
    } else {
      hide LinkOrigins, LinkStages, AllResolve;
      NamesGrow(w, s.names, s'.names, s.links, s.resolved);
    }
  }

  lemma AtIsAside(s: State, i: nat, stage: Stage)
    requires !stage.Verified? && !Placing(stage) && (Unresolved(stage) ==> Unresolved(StageOf(s, i)))
    ensures Aside(s, At(s, i, stage), i)
  {
  }

  lemma UseIsAside(s: State, i: nat, row: AuthCode, at: real)
    requires row.hash in s.codes
    ensures Aside(s, UseCode(s, i, row, at), i)
  {
    hide Aside;
    IsAside(s, UseCode(s, i, row, at), i, Holding(row));
  }

  lemma PairIsAside(s: State, i: nat, row: AuthCode, token: AccessToken)
    ensures Aside(s, StorePair(s, i, row, token), i)
  {
    hide Aside, Put;
    IsAside(s, StorePair(s, i, row, token), i, Redeemed(row.hash));
  }

  lemma RedeemIsAside(su: Setup, s: State, i: nat, call: Call)
    requires call.RedeemCall? && !Placing(StageOf(s, i))
    ensures Aside(s, RedeemStep(su, s, i, call), i)
  {
    hide NewToken, CodeProblem, Aside, At, UseCode, StorePair;
    match StageOf(s, i)
    case Begun =>
      var h := su.w.hash(call.code);
      if h !in s.codes { AtIsAside(s, i, Failed(UnknownCode)); }
      else {
        var problem := CodeProblem(su.w, s.codes[h], call.verifier, call.audience, call.now);
        AtIsAside(s, i, if problem.Some? then Failed(problem.value) else Passed(s.codes[h]));
      }
    case Passed(row) =>
      if row.hash !in s.codes || s.codes[row.hash].consumedAt.Some? { AtIsAside(s, i, Failed(CodeUsed)); }
      else { UseIsAside(s, i, row, call.now); }
    case Holding(row) => PairIsAside(s, i, row,
                                     NewToken(su.w, s.names, row.grant, call.now, call.accessTtl, call.refreshTtl));
    case _ => Still(s, i);
  }

  lemma Still(s: State, i: nat)
    requires !Placing(StageOf(s, i))
    ensures Aside(s, s, i)
  {
  }

  lemma RedeemElsewhere(su: Setup, links0: map<UserKey, string>, s: State, i: nat, call: Call, overwritten: bool)
    requires LinkInv(su.w, links0, s, overwritten) && call.RedeemCall?
    ensures LinkInv(su.w, links0, RedeemStep(su, s, i, call), overwritten)
  {
    if !Placing(StageOf(s, i)) {
      RedeemIsAside(su, s, i, call);
      hide LinkInv, RedeemStep;
      AsideKeepsLinkInv(su.w, links0, s, RedeemStep(su, s, i, call), i, overwritten);
    } else {
      hide LinkInv;
    }
  }

  lemma ScanIsAside(s: State, i: nat, h: string, todo: seq<string>, now: real)
    requires StageOf(s, i).Scanning?
    ensures Aside(s, ScanStep(s, i, h, todo, now), i)
  {
    ScanStage(s, i, h, todo, now);
    hide ScanStep;
  }

  lemma PutIsAside(s: State, i: nat, presented: string, row: AccessToken, token: AccessToken)
    ensures Aside(s, PutStep(s, i, presented, row, token), i)
    ensures Aside(s, RotateStep(s, i, row, token), i)
  {
    hide Put, Remove, OriginAfter, Aside;
    IsAside(s, PutStep(s, i, presented, row, token), i, Stored(row, token));
    IsAside(s, RotateStep(s, i, row, token), i, Renewed(row.hash));
  }

  lemma RefreshElsewhere(su: Setup, links0: map<UserKey, string>, s: State, i: nat, call: Call, overwritten: bool)
    requires LinkInv(su.w, links0, s, overwritten) && call.RefreshCall?
    ensures LinkInv(su.w, links0, RefreshStep(su, s, i, call), overwritten)
  {
    RefreshIsAside(su, s, i, call);
    hide LinkInv, RefreshStep, Aside;
    if RefreshStep(su, s, i, call) != s {
      AsideKeepsLinkInv(su.w, links0, s, RefreshStep(su, s, i, call), i, overwritten);
    }
  }

  lemma RefreshIsAside(su: Setup, s: State, i: nat, call: Call)
    requires call.RefreshCall?
    ensures RefreshStep(su, s, i, call) == s || Aside(s, RefreshStep(su, s, i, call), i)
  {
    hide NotYetReturned, NewToken, ScanStep, PutStep, RotateStep, At, Aside;
    match StageOf(s, i)
    case Begun => AtIsAside(s, i, Scanning(s.tokens.order));
    case Scanning(todo) => ScanIsAside(s, i, su.w.hash(call.refreshToken), todo, call.now);
    case Read(row) =>
      PutIsAside(s, i, call.refreshToken, row,
                 NewToken(su.w, s.names, row.grant, call.now, call.accessTtl, call.refreshTtl));
    case Stored(row, token) => PutIsAside(s, i, call.refreshToken, row, token);
    case _ =>
  }

  lemma CompleteKeepsLinkInv(su: Setup, links0: map<UserKey, string>, s: State, i: nat, call: Call, overwritten: bool)
    requires Sound(su.w) && LinkInv(su.w, links0, s, overwritten) && call == su.calls(i) && call.CompleteCall?
    ensures LinkInv(su.w, links0, CompleteStep(su, s, i, call), overwritten || Overwrites(su, s, i))
  {
    hide Sound, LinkInv, CodeStep, Verify;
    match StageOf(s, i)
    case Begun => BeginElsewhere(su, links0, s, i, call, overwritten);
    case TxnPassed(txn) => BeginElsewhere(su, links0, s, i, call, overwritten);
    case TxnHolding(txn) => VerifyElsewhere(su, links0, s, i, txn, call, overwritten);
    case Verified(txn, user) => LookUp(su, links0, s, i, txn, user, call, overwritten);
    case Naming(txn, user) => StoresPrincipal(su, links0, s, i, txn, user, overwritten);
    case Joining(txn, user, pid) => StoresMembership(su, links0, s, i, txn, user, pid, overwritten);
    case Linking(txn, user, pid) => StoresLink(su.w, links0, s, i, Linked(txn, pid), (txn.islandId, user), overwritten);
    case Linked(txn, pid) => CodeStepElsewhere(su, links0, s, i, txn, pid, call.now, overwritten);
    case _ =>
  }

  lemma StepKeepsLinkInv(su: Setup, links0: map<UserKey, string>, s: State, i: nat, overwritten: bool)
    requires Sound(su.w) && LinkInv(su.w, links0, s, overwritten)
    ensures LinkInv(su.w, links0, Step(su, s, i), overwritten || Overwrites(su, s, i))
  {
    hide Sound, LinkInv, RedeemStep, RefreshStep, CompleteStep;
    var call := su.calls(i);
    match call
    case RedeemCall(_, _, _, _, _, _) => RedeemElsewhere(su, links0, s, i, call, overwritten);
    case RefreshCall(_, _, _, _) => RefreshElsewhere(su, links0, s, i, call, overwritten);
    case CompleteCall(_, _, _, _) => CompleteKeepsLinkInv(su, links0, s, i, call, overwritten);
  }

  lemma TxnIsAside(s: State, i: nat, txn: Txn, at: real)
    requires txn.hash in s.txns && Unresolved(StageOf(s, i))
    ensures Aside(s, UseTxn(s, i, txn, at), i)
  {
    hide Aside;
    IsAside(s, UseTxn(s, i, txn, at), i, TxnHolding(txn));
  }

  lemma BeginIsAside(su: Setup, s: State, i: nat, call: Call)
    requires call.CompleteCall? && (StageOf(s, i).Begun? || StageOf(s, i).TxnPassed?)
    ensures Aside(s, CompleteStep(su, s, i, call), i)
  {
    hide CodeStep, Verify, Aside, At, UseTxn;
    match StageOf(s, i)
    case Begun =>
      var h := su.w.hash(call.txnId);
      AtIsAside(s, i, if h !in s.txns then Failed(UnknownTxn)
                      else if call.now >= s.txns[h].expiresAt then Failed(TxnExpired) else TxnPassed(s.txns[h]));
    case TxnPassed(txn) =>
      if txn.hash !in s.txns || s.txns[txn.hash].consumedAt.Some? { AtIsAside(s, i, Failed(TxnUsed)); }
      else { TxnIsAside(s, i, txn, call.now); }
    case _ =>
  }

  lemma BeginElsewhere(su: Setup, links0: map<UserKey, string>, s: State, i: nat, call: Call, overwritten: bool)
    requires LinkInv(su.w, links0, s, overwritten) && call.CompleteCall?
             && (StageOf(s, i).Begun? || StageOf(s, i).TxnPassed?)
    ensures LinkInv(su.w, links0, CompleteStep(su, s, i, call), overwritten)
  {
    BeginIsAside(su, s, i, call);
    hide LinkInv, CompleteStep, Aside;
    AsideKeepsLinkInv(su.w, links0, s, CompleteStep(su, s, i, call), i, overwritten);
  }

  lemma NoLinkNoStart(w: World, links0: map<UserKey, string>, s: State, k: UserKey, overwritten: bool)
    requires LinkInv(w, links0, s, overwritten) && k !in s.links
    ensures k !in links0
  {
  }

  lemma LookUp(su: Setup, links0: map<UserKey, string>, s: State, i: nat, txn: Txn, user: string, call: Call,
               overwritten: bool)
    requires LinkInv(su.w, links0, s, overwritten) && call.CompleteCall? && StageOf(s, i) == Verified(txn, user)
    ensures LinkInv(su.w, links0, CompleteStep(su, s, i, call), overwritten)
  {
    hide LinkInv, CodeStep, Verify;
    var k := (txn.islandId, user);
    if k in s.links { Found(su.w, links0, s, i, Linked(txn, s.links[k]), k, overwritten); }
    else {
      NoLinkNoStart(su.w, links0, s, k, overwritten);
      Elsewhere(su.w, links0, s, At(s, i, Naming(txn, user)), i, Naming(txn, user), overwritten);
    }
  }

  lemma StoreIsAside(s: State, i: nat, txn: Txn, code: AuthCode)
    ensures Aside(s, StoreCode(s, i, txn, code), i)
  {
    hide Aside;
    IsAside(s, StoreCode(s, i, txn, code), i, Coded(txn.hash));
  }

  lemma CodeIsAside(su: Setup, s: State, i: nat, txn: Txn, pid: string, now: real)
    ensures Aside(s, CodeStep(su, s, i, txn, pid, now), i)
  {
    hide Aside, At, StoreCode, LoginCode;
    if txn.clientId !in su.clients { AtIsAside(s, i, Failed(UnknownClient)); }
    else if txn.redirectUri !in su.clients[txn.clientId].redirectUris { AtIsAside(s, i, Failed(UnregisteredRedirect)); }
    else { StoreIsAside(s, i, txn, LoginCode(su, s.names, txn, pid, now)); }
  }

  lemma CodeStepElsewhere(su: Setup, links0: map<UserKey, string>, s: State, i: nat, txn: Txn, pid: string, now: real,
                          overwritten: bool)
    requires LinkInv(su.w, links0, s, overwritten)
    ensures LinkInv(su.w, links0, CodeStep(su, s, i, txn, pid, now), overwritten)
  {
    CodeIsAside(su, s, i, txn, pid, now);
    hide LinkInv, CodeStep;
    AsideKeepsLinkInv(su.w, links0, s, CodeStep(su, s, i, txn, pid, now), i, overwritten);
  }

  lemma VerifyElsewhere(su: Setup, links0: map<UserKey, string>, s: State, i: nat, txn: Txn, call: Call,
                        overwritten: bool)
    requires LinkInv(su.w, links0, s, overwritten) && call.CompleteCall? && StageOf(s, i).TxnHolding?
    ensures LinkInv(su.w, links0, At(s, i, Verify(su, txn, call)), overwritten)
  {
    hide LinkInv, VerifyAssertion;
    Elsewhere(su.w, links0, s, At(s, i, Verify(su, txn, call)), i, Verify(su, txn, call), overwritten);
  }

  lemma OverwrittenStep(su: Setup, s: State, schedule: seq<nat>)
    requires schedule != []
    ensures var most := schedule[..|schedule| - 1];
            Overwritten(su, s, schedule)
            <==> Overwritten(su, s, most) || Overwrites(su, Exec(su, s, most), schedule[|schedule| - 1])
  {
    hide Exec, Overwrites;
    var last := |schedule| - 1;
    var most := schedule[..last];
    assert forall m :: 0 <= m < last ==> most[..m] == schedule[..m] && most[m] == schedule[m];
    if Overwritten(su, s, most) {
      var m :| 0 <= m < |most| && Overwrites(su, Exec(su, s, most[..m]), most[m]);
      assert Overwrites(su, Exec(su, s, schedule[..m]), schedule[m]);
    }
    if Overwritten(su, s, schedule) {
      var m :| 0 <= m < |schedule| && Overwrites(su, Exec(su, s, schedule[..m]), schedule[m]);
      if m < last { assert Overwrites(su, Exec(su, s, most[..m]), most[m]); }
    }
  }

  lemma {:induction false} ExecKeepsLinkInv(su: Setup, s: State, schedule: seq<nat>)
    requires Sound(su.w) && Initial(su.w, s)
    ensures LinkInv(su.w, s.links, Exec(su, s, schedule), Overwritten(su, s, schedule))
  {
    if schedule == [] {
      hide Sound;
    } else {
      hide Sound, Initial, LinkInv, Step, Overwrites, Overwritten;
      var most, i := schedule[..|schedule| - 1], schedule[|schedule| - 1];
      ExecKeepsLinkInv(su, s, most);
      StepKeepsLinkInv(su, s.links, Exec(su, s, most), i, Overwritten(su, s, most));
      OverwrittenStep(su, s, schedule);
    }
  }

  // ----- results -----

  /** Each login's principal is still its user's exactly when no login stored a link over another's. */
  lemma LoginsResolveExactlyWhenNoneOverwrites(su: Setup, s: State, schedule: seq<nat>)
    requires Sound(su.w) && Initial(su.w, s)
    ensures AllResolve(Exec(su, s, schedule).links, Exec(su, s, schedule).resolved) <==> !Overwritten(su, s, schedule)
  {
    ExecKeepsLinkInv(su, s, schedule);
  }

  // ----- a link is stored last -----

  /** The principal is stored, and a member of the island's org. */
  ghost predicate Stands(su: Setup, s: State, k: UserKey, pid: string) {
    k.0 in su.islands && pid in s.principals && (pid, su.islands[k.0].orgId) in s.members
  }

  ghost predicate LinksStand(su: Setup, s: State) {
    forall k :: k in s.links ==> Stands(su, s, k, s.links[k])
  }

  ghost predicate StageStands(su: Setup, s: State, stage: Stage) {
    && (stage.Verified? || Placing(stage) ==> stage.txn.islandId in su.islands)
    && (stage.Joining? ==> stage.pid in s.principals)
    && (stage.Linking? ==> Stands(su, s, (stage.txn.islandId, stage.user), stage.pid))
  }

  ghost predicate StandInv(su: Setup, s: State) {
    LinksStand(su, s) && forall i :: i in s.stages ==> StageStands(su, s, s.stages[i])
  }

  /** A step that stores no link, or one that stands, and leaves its call standing. */
  lemma StandsOn(su: Setup, s: State, s': State, i: nat)
    requires StandInv(su, s) && s.principals <= s'.principals && s.members <= s'.members
    requires forall k :: k in s'.links ==> (k in s.links && s'.links[k] == s.links[k]) || Stands(su, s', k, s'.links[k])
    requires s'.stages == s.stages || (s'.stages == s.stages[i := StageOf(s', i)]
                                       && StageStands(su, s', StageOf(s', i)))
    ensures StandInv(su, s')
  {
    forall k | k in s'.links ensures Stands(su, s', k, s'.links[k]) {
      if k in s.links { assert Stands(su, s, k, s.links[k]); }
    }
    forall j | j in s'.stages ensures StageStands(su, s', s'.stages[j]) {
      assert j in s.stages ==> StageStands(su, s, s.stages[j]);
    }
  }

  lemma AsideStands(su: Setup, s: State, s': State, i: nat)
    requires StandInv(su, s) && (s' == s || Aside(s, s', i))
    ensures StandInv(su, s')
  {
    assert i in s.stages ==> StageStands(su, s, s.stages[i]);
    hide LinksStand, Stands;
    StandsOn(su, s, s', i);
  }

  lemma PrincipalStands(su: Setup, s: State, i: nat, txn: Txn, user: string, pid: string)
    requires StandInv(su, s) && StageOf(s, i) == Naming(txn, user)
    ensures StandInv(su, PutPrincipal(s, i, txn, user, pid))
  {
    assert StageStands(su, s, s.stages[i]);
    hide StandInv;
    StandsOn(su, s, PutPrincipal(s, i, txn, user, pid), i);
  }

  lemma MembershipStands(su: Setup, s: State, i: nat, txn: Txn, user: string, pid: string)
    requires StandInv(su, s) && StageOf(s, i) == Joining(txn, user, pid)
    ensures StandInv(su, PutMembership(su, s, i, txn, user, pid))
  {
    assert StageStands(su, s, s.stages[i]);
    hide StandInv;
    StandsOn(su, s, PutMembership(su, s, i, txn, user, pid), i);
  }

  lemma LinkStands(su: Setup, s: State, i: nat, txn: Txn, user: string, pid: string)
    requires StandInv(su, s) && StageOf(s, i) == Linking(txn, user, pid)
    ensures StandInv(su, PutLink(s, i, txn, (txn.islandId, user), pid))
  {
    assert StageStands(su, s, s.stages[i]);
    hide StandInv;
    StandsOn(su, s, PutLink(s, i, txn, (txn.islandId, user), pid), i);
  }

  lemma AtStands(su: Setup, s: State, i: nat, stage: Stage)
    requires StandInv(su, s) && StageStands(su, s, stage)
    ensures StandInv(su, At(s, i, stage))
  {
    hide StandInv;
    StandsOn(su, s, At(s, i, stage), i);
  }

  lemma LookStands(su: Setup, s: State, i: nat, txn: Txn, user: string, k: UserKey)
    requires StandInv(su, s) && StageOf(s, i) == Verified(txn, user)
    ensures StandInv(su, At(s, i, Naming(txn, user)))
    ensures k in s.links ==> StandInv(su, FindUser(s, i, txn, k))
  {
    assert StageStands(su, s, s.stages[i]);
    hide StandInv;
    AtStands(su, s, i, Naming(txn, user));
    if k in s.links { StandsOn(su, s, FindUser(s, i, txn, k), i); }
  }

  lemma VerifiedStands(su: Setup, s: State, txn: Txn, call: Call)
    requires call.CompleteCall?
    ensures StageStands(su, s, Verify(su, txn, call))
  {
    hide VerifyAssertion;
  }

  lemma CompleteStands(su: Setup, s: State, i: nat, call: Call)
    requires StandInv(su, s) && call.CompleteCall?
    ensures StandInv(su, CompleteStep(su, s, i, call))
  {
    hide StandInv, CodeStep, Verify, Aside, FindUser, PutPrincipal, PutMembership, PutLink, StageStands;
    match StageOf(s, i)
    case Begun => BeginStands(su, s, i, call);
    case TxnPassed(txn) => BeginStands(su, s, i, call);
    case TxnHolding(txn) =>
      VerifiedStands(su, s, txn, call);
      AtStands(su, s, i, Verify(su, txn, call));
    case Verified(txn, user) => LookStands(su, s, i, txn, user, (txn.islandId, user));
    case Naming(txn, user) => PrincipalStands(su, s, i, txn, user, su.w.newName(s.names));
    case Joining(txn, user, pid) => MembershipStands(su, s, i, txn, user, pid);
    case Linking(txn, user, pid) => LinkStands(su, s, i, txn, user, pid);
    case Linked(txn, pid) =>
      CodeIsAside(su, s, i, txn, pid, call.now);
      AsideStands(su, s, CodeStep(su, s, i, txn, pid, call.now), i);
    case _ =>
  }

  lemma BeginStands(su: Setup, s: State, i: nat, call: Call)
    requires StandInv(su, s) && call.CompleteCall? && (StageOf(s, i).Begun? || StageOf(s, i).TxnPassed?)
    ensures StandInv(su, CompleteStep(su, s, i, call))
  {
    BeginIsAside(su, s, i, call);
    hide StandInv, CompleteStep, Aside;
    AsideStands(su, s, CompleteStep(su, s, i, call), i);
  }

  lemma StepStands(su: Setup, s: State, i: nat)
    requires StandInv(su, s)
    ensures StandInv(su, Step(su, s, i))
  {
    hide StandInv, RedeemStep, RefreshStep, CompleteStep, Aside;
    var call := su.calls(i);
    match call
    case RedeemCall(_, _, _, _, _, _) =>
      RedeemStillOrAside(su, s, i, call);
      AsideStands(su, s, RedeemStep(su, s, i, call), i);
    case RefreshCall(_, _, _, _) =>
      RefreshIsAside(su, s, i, call);
      AsideStands(su, s, RefreshStep(su, s, i, call), i);
    case CompleteCall(_, _, _, _) => CompleteStands(su, s, i, call);
  }

  lemma RedeemStillOrAside(su: Setup, s: State, i: nat, call: Call)
    requires call.RedeemCall?
    ensures RedeemStep(su, s, i, call) == s || Aside(s, RedeemStep(su, s, i, call), i)
  {
    if !Placing(StageOf(s, i)) { RedeemIsAside(su, s, i, call); }
  }

  /**
   The link is stored after the principal and its membership: in every interleaving, calls dying
   where they may, every link names a stored principal that is a member of the island's org.
   */
  lemma {:induction false} EveryLinkStands(su: Setup, s: State, schedule: seq<nat>)
    requires s.stages == map[] && LinksStand(su, s)
    ensures LinksStand(su, Exec(su, s, schedule)) && StandInv(su, Exec(su, s, schedule))
  {
    if schedule != [] {
      hide Exec, Step, LinksStand;
      ExecLast(su, s, schedule);
      EveryLinkStands(su, s, schedule[..|schedule| - 1]);
      StepStands(su, Exec(su, s, schedule[..|schedule| - 1]), schedule[|schedule| - 1]);
    }
  }

  // ----- two first logins at once -----

  function Login(w: World, i: nat): Txn {
    Txn(w.hash(w.newName(i)), "client", "https://app/cb", "challenge", "aud", "mcp", "state", "island",
        if i == 0 then "nonce 0" else "nonce 1", 600.0, None)
  }

  /** Two browsers on their way through the same island as the same user. */
  function TwoLogins(w: World): Setup {
    Setup(w, map["island" := Island("island", "issuer", "aud", "org", 30.0, None)],
          map["client" := Client("client", "client", ["https://app/cb"])],
          (i: nat) => CompleteCall(w.newName(i),
                                   Assertion(Some(Claims("issuer", "kernel", Some(Login(w, i).nonce), 600.0, "user",
                                                         None))),
                                   0.0, "kernel"))
  }

  function BothStarted(w: World): State {
    State(map[], Empty(), map[Login(w, 0).hash := Login(w, 0), Login(w, 1).hash := Login(w, 1)],
          {}, {}, map[], 2, map[], [], [], [], map[], map[], [], map[])
  }

  /** A login that runs alone up to the use of its transaction. */
  lemma UsesTxn(w: World, s: State, i: nat)
    requires i < 2 && i !in s.stages
    requires Login(w, i).hash in s.txns && s.txns[Login(w, i).hash] == Login(w, i)
    ensures Step(TwoLogins(w), Step(TwoLogins(w), s, i), i)
            == At(s, i, TxnHolding(Login(w, i)))
               .(txns := s.txns[Login(w, i).hash := Login(w, i).(consumedAt := Some(0.0))])
  {
    var su, txn := TwoLogins(w), Login(w, i);
    var s1 := Step(su, s, i);
    assert s1 == At(s, i, TxnPassed(txn));
    assert s1.stages[i := TxnHolding(txn)] == s.stages[i := TxnHolding(txn)];
  }

  /** It verifies its assertion and looks for a link. */
  lemma FindsNone(w: World, s: State, i: nat)
    requires i < 2 && StageOf(s, i) == TxnHolding(Login(w, i)) && s.links == map[]
    ensures Step(TwoLogins(w), Step(TwoLogins(w), s, i), i) == At(s, i, Naming(Login(w, i), "user"))
  {
    var su, txn := TwoLogins(w), Login(w, i);
    var s1 := Step(su, s, i);
    assert s1 == At(s, i, Verified(txn, "user"));
    assert s1.stages[i := Naming(txn, "user")] == s.stages[i := Naming(txn, "user")];
  }

  lemma LooksAndFindsNone(w: World, s: State, i: nat) returns (s': State)
    requires i < 2 && i !in s.stages && s.links == map[]
    requires Login(w, i).hash in s.txns && s.txns[Login(w, i).hash] == Login(w, i)
    ensures s' == At(s, i, Naming(Login(w, i), "user")).(txns := s'.txns)
    ensures s'.txns == s.txns[Login(w, i).hash := Login(w, i).(consumedAt := Some(0.0))]
    ensures s' == Step(TwoLogins(w), Step(TwoLogins(w), Step(TwoLogins(w), Step(TwoLogins(w), s, i), i), i), i)
  {
    hide Step, TwoLogins, Login;
    UsesTxn(w, s, i);
    var s2 := Step(TwoLogins(w), Step(TwoLogins(w), s, i), i);
    FindsNone(w, s2, i);
    s' := At(s2, i, Naming(Login(w, i), "user"));
    assert s'.stages == s.stages[i := Naming(Login(w, i), "user")];
  }

  lemma PlacingSteps(w: World, s: State, i: nat, pid: string)
    requires i < 2
    ensures var su, txn := TwoLogins(w), Login(w, i);
            && (StageOf(s, i) == Naming(txn, "user") ==>
                  Step(su, s, i) == PutPrincipal(s, i, txn, "user", w.newName(s.names)))
            && (StageOf(s, i) == Joining(txn, "user", pid) ==>
                 Step(su, s, i) == PutMembership(su, s, i, txn, "user", pid))
            && (StageOf(s, i) == Linking(txn, "user", pid) ==>
                 Step(su, s, i) == PutLink(s, i, txn, ("island", "user"), pid))
  {
    hide PutPrincipal, PutMembership, PutLink, OrgOf;
  }

  /** A login that found no link stores a principal, a membership and a link. */
  lemma Places(w: World, s: State, i: nat)
    requires i < 2 && StageOf(s, i) == Naming(Login(w, i), "user")
    ensures var t := Three(TwoLogins(w), s, i);
            var pid, k := w.newName(s.names), ("island", "user");
            && t.links == s.links[k := pid] && t.resolved == s.resolved[i := UserPrincipal(k, pid)]
            && t.names == s.names + 1 && forall j :: j != i ==> StageOf(t, j) == StageOf(s, j)
  {
    hide Step, TwoLogins, Login, PutPrincipal, PutMembership, PutLink;
    var su, txn, pid, k := TwoLogins(w), Login(w, i), w.newName(s.names), ("island", "user");
    PlacingSteps(w, s, i, pid);
    PutsLeave(su, s, i, txn, "user", pid, k);
    var s1 := Step(su, s, i);
    PlacingSteps(w, s1, i, pid);
    PutsLeave(su, s1, i, txn, "user", pid, k);
    var s2 := Step(su, s1, i);
    PlacingSteps(w, s2, i, pid);
    PutsLeave(su, s2, i, txn, "user", pid, k);
  }

  function Three(su: Setup, s: State, i: nat): State {
    Step(su, Step(su, Step(su, s, i), i), i)
  }

  /** Both have looked; each stores a link of its own. */
  lemma BothStore(w: World, s: State)
    requires Sound(w) && s.links == map[] && s.resolved == map[]
    requires StageOf(s, 0) == Naming(Login(w, 0), "user") && StageOf(s, 1) == Naming(Login(w, 1), "user")
    ensures var t := Three(TwoLogins(w), Three(TwoLogins(w), s, 0), 1);
            && t.links == map[("island", "user") := w.newName(s.names + 1)]
            && t.resolved == map[0 := UserPrincipal(("island", "user"), w.newName(s.names)),
                                 1 := UserPrincipal(("island", "user"), w.newName(s.names + 1))]
            && w.newName(s.names) != w.newName(s.names + 1)
  {
    hide Step, StageOf, TwoLogins, Login;
    Places(w, s, 0);
    Places(w, Three(TwoLogins(w), s, 0), 1);
  }

  lemma BothInitial(w: World)
    requires Sound(w)
    ensures Initial(w, BothStarted(w)) && Login(w, 0).hash != Login(w, 1).hash
  {
    assert w.newName(0) != w.newName(1);
    assert Minted(w, 2, Login(w, 0).hash) && Minted(w, 2, Login(w, 1).hash);
  }

  function Four(su: Setup, s: State, i: nat): State {
    Step(su, Step(su, Step(su, Step(su, s, i), i), i), i)
  }

  /** Both have looked for the user's link and found none. */
  lemma BothLook(w: World)
    requires Sound(w)
    ensures var su := TwoLogins(w);
            var s := Four(su, Four(su, BothStarted(w), 0), 1);
            && s.links == map[] && s.resolved == map[]
            && StageOf(s, 0) == Naming(Login(w, 0), "user") && StageOf(s, 1) == Naming(Login(w, 1), "user")
  {
    BothInitial(w);
    hide Initial, Step, TwoLogins, Sound;
    var sa := LooksAndFindsNone(w, BothStarted(w), 0);
    hide Login;
    var sb := LooksAndFindsNone(w, sa, 1);
  }

  /** Both look before either links. */
  const INTERLEAVED: seq<nat> := (([0, 0, 0, 0] + [1, 1, 1, 1]) + [0, 0, 0]) + [1, 1, 1]

  /**
   Two first logins of one user at once: both find no link, both store one, and the first is
   left with a principal no link names, so exchange can no longer tell its island or user.
   */
  lemma TwoFirstLoginsSplitTheUser(w: World)
    requires Sound(w)
    ensures Initial(w, BothStarted(w))
    ensures var t := Exec(TwoLogins(w), BothStarted(w), INTERLEAVED);
            && 0 in t.resolved && 1 in t.resolved && t.resolved[0].key == t.resolved[1].key
            && t.resolved[0].pid != t.resolved[1].pid
            && forall k :: k in t.links ==> t.links[k] != t.resolved[0].pid
  {
    BothInitial(w);
    BothLook(w);
    InterleavedSteps(TwoLogins(w), BothStarted(w));
    var sb := Four(TwoLogins(w), Four(TwoLogins(w), BothStarted(w), 0), 1);
    hide Initial, Exec, Step, TwoLogins, Sound, BothStarted, Login, StageOf;
    BothStore(w, sb);
  }

  lemma {:induction false} ExecAppend(su: Setup, s: State, run: seq<nat>, tail: seq<nat>)
    ensures Exec(su, s, run + tail) == Exec(su, Exec(su, s, run), tail)
  {
    hide Step;
    if tail == [] {
      assert run + tail == run;
    } else {
      var all := run + tail;
      assert all[..|all| - 1] == run + tail[..|tail| - 1];
      ExecAppend(su, s, run, tail[..|tail| - 1]);
    }
  }

  lemma ThreeSteps(su: Setup, s: State, i: nat)
    ensures Exec(su, s, [i, i, i]) == Three(su, s, i)
  {
    hide Step;
    assert [i, i, i][..2] == [i, i] && [i, i][..1] == [i] && [i][..0] == [];
    assert Exec(su, s, [i]) == Step(su, s, i);
    assert Exec(su, s, [i, i]) == Step(su, Step(su, s, i), i);
  }

  lemma FourSteps(su: Setup, s: State, i: nat)
    ensures Exec(su, s, [i, i, i, i]) == Four(su, s, i)
  {
    hide Step;
    assert [i, i, i, i][..3] == [i, i, i];
    ThreeSteps(su, s, i);
  }

  lemma InterleavedSteps(su: Setup, s: State)
    ensures Exec(su, s, INTERLEAVED) == Three(su, Three(su, Four(su, Four(su, s, 0), 1), 0), 1)
  {
    hide Exec, Step, Three, Four;
    ExecAppend(su, s, ([0, 0, 0, 0] + [1, 1, 1, 1]) + [0, 0, 0], [1, 1, 1]);
    ExecAppend(su, s, [0, 0, 0, 0] + [1, 1, 1, 1], [0, 0, 0]);
    ExecAppend(su, s, [0, 0, 0, 0], [1, 1, 1, 1]);
    FourSteps(su, s, 0);
    FourSteps(su, Four(su, s, 0), 1);
    ThreeSteps(su, Four(su, Four(su, s, 0), 1), 0);
    ThreeSteps(su, Three(su, Four(su, Four(su, s, 0), 1), 0), 1);
  }
}
